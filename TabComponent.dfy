/** The Tab component's state and its three entry points: the mount sequence
    (create the identity client, register the global provider, probe for
    consent), the login button, and the picker's selection callback. */
module TabComponent {
  import opened Wrappers
  import opened Selection
  import opened LoginMessage
  import opened Screen

  /** The sign-in state flag of the registered provider. */
  datatype ProviderState = Loading | SignedOut | SignedIn

  /** The provider installed in the global provider slot, with the scope it was built with. */
  datatype Provider = TeamsFxProvider(scope: Option<seq<string>>, state: ProviderState)

  /** The two permissions usable without administrator approval. */
  const Scope: seq<string> := ["User.Read", "User.ReadBasic.All"]

  class Tab {
    var showLoginPage: Option<bool>
    var selectedPeople: Option<seq<Person>>
    var tableHeader: seq<string>
    var tableRows: seq<Row>
    /** Whether `this.teamsfx` has been assigned an identity client. */
    var teamsfx: bool
    var scope: Option<seq<string>>
    /** The process-wide provider slot, as this component sees it. */
    var provider: Option<Provider>

    /** The table always shows the rows of the current selection, under the fixed header. */
    ghost predicate Valid()
      reads this
    {
      && tableHeader == TableHeader
      && tableRows == (if selectedPeople.Some? then MapRows(selectedPeople.value) else [])
    }

    /** Once the auth gate has decided, the provider's flag agrees with the screen shown. */
    ghost predicate AuthAgrees()
      reads this
    {
      showLoginPage.Some? ==>
        provider.Some? && provider.value.state == (if showLoginPage.value then SignedOut else SignedIn)
    }

    /** What `render()` puts on the page in the current state. */
    function View(): Page
      reads this
    {
      Render(showLoginPage, selectedPeople, tableHeader, tableRows)
    }

    constructor ()
      ensures Valid() && AuthAgrees()
      ensures showLoginPage == None && selectedPeople == None
      ensures tableHeader == ["Name", "Email", "User Principal Name", "Location"] && tableRows == []
      ensures !teamsfx && scope == None && provider == None
    {
      showLoginPage := None;
      selectedPeople := None;
      tableHeader := TableHeader;
      tableRows := [];
      teamsfx := false;
      scope := None;
      provider := None;
    }

    method InitTeamsFx()
      modifies this
      ensures teamsfx && scope == Some(["User.Read", "User.ReadBasic.All"])
      ensures showLoginPage == old(showLoginPage) && selectedPeople == old(selectedPeople)
      ensures tableHeader == old(tableHeader) && tableRows == old(tableRows) && provider == old(provider)
    {
      teamsfx := true;
      scope := Some(Scope);
    }

    /** Installs a new provider for `scopeArg` in the global slot; a new provider starts out Loading. */
    method InitGraphToolkit(scopeArg: Option<seq<string>>)
      modifies this
      ensures provider == Some(TeamsFxProvider(scopeArg, Loading))
      ensures showLoginPage == old(showLoginPage) && selectedPeople == old(selectedPeople)
      ensures tableHeader == old(tableHeader) && tableRows == old(tableRows)
      ensures teamsfx == old(teamsfx) && scope == old(scope)
    {
      provider := Some(TeamsFxProvider(scopeArg, Loading));
    }

    /** The consent probe; `tokenOk` is whether the silent token fetch resolved.
        The provider must be registered: setting its state is outside the try. */
    method CheckConsent(tokenOk: bool) returns (consentNeeded: bool)
      requires provider.Some?
      modifies this
      ensures consentNeeded == !tokenOk
      ensures showLoginPage == Some(consentNeeded)
      ensures provider == Some(old(provider).value.(state := if tokenOk then SignedIn else SignedOut))
      ensures AuthAgrees()
      ensures selectedPeople == old(selectedPeople) && tableHeader == old(tableHeader)
      ensures tableRows == old(tableRows) && teamsfx == old(teamsfx) && scope == old(scope)
    {
      consentNeeded := false;
      if !tokenOk {
        consentNeeded := true;
      }
      showLoginPage := Some(consentNeeded);
      provider := Some(provider.value.(state := if consentNeeded then SignedOut else SignedIn));
    }

    /** `componentDidMount`: the three steps in order. */
    method ComponentDidMount(tokenOk: bool)
      requires Valid()
      modifies this
      ensures Valid() && AuthAgrees()
      ensures teamsfx && scope == Some(Scope)
      ensures provider == Some(TeamsFxProvider(Some(Scope), if tokenOk then SignedIn else SignedOut))
      ensures showLoginPage == Some(!tokenOk)
      ensures selectedPeople == old(selectedPeople) && tableRows == old(tableRows)
    {
      InitTeamsFx();
      InitGraphToolkit(scope);
      var _ := CheckConsent(tokenOk);
    }

    /** `loginBtnClick`; `outcome` is how the interactive login settled. A
        failure leaves the state alone and yields the text passed to `alert`. */
    method Login(outcome: Result<(), AuthError>) returns (alert: Option<string>)
      requires provider.Some?
      modifies this
      ensures outcome.Success? ==>
        && showLoginPage == Some(false)
        && provider == Some(old(provider).value.(state := SignedIn))
        && alert == None
      ensures outcome.Failure? ==>
        && showLoginPage == old(showLoginPage)
        && provider == old(provider)
        && alert == Some(AlertText(outcome.error))
      ensures old(AuthAgrees()) ==> AuthAgrees()
      ensures outcome.Success? ==> AuthAgrees()
      ensures selectedPeople == old(selectedPeople) && tableHeader == old(tableHeader)
      ensures tableRows == old(tableRows) && teamsfx == old(teamsfx) && scope == old(scope)
    {
      match outcome {
        case Success(_) =>
          provider := Some(provider.value.(state := SignedIn));
          showLoginPage := Some(false);
          alert := None;
        case Failure(thrown) =>
          var err := thrown;
          if err.message.Some? && Contains(err.message.value, CancelledByUser) {
            err := err.(message := Some(err.message.value + Hint));
          }
          alert := Some(AlertPrefix + ErrorString(err));
      }
    }

    /** `handleInputChange`, taken as one atomic update of both fields. */
    method SelectionChanged(people: seq<Person>)
      requires Valid()
      modifies this
      ensures Valid()
      ensures selectedPeople == Some(people) && tableRows == MapRows(people)
      ensures |tableRows| == |people|
      ensures showLoginPage == old(showLoginPage) && tableHeader == old(tableHeader)
      ensures provider == old(provider) && teamsfx == old(teamsfx) && scope == old(scope)
    {
      selectedPeople := Some(people);
      tableRows := MapRows(people);
    }

    /** The welcome text is only ever shown over an empty table. */
    lemma WelcomeMeansEmptyTable()
      requires Valid()
      ensures View().main.Some? && View().main.value.panel == WelcomeText ==>
        View().main.value.rows == [] && View().main.value.header == TableHeader
    {
    }
  }

  /** Mounting with a working token endpoint lands on the main screen with an
      empty table and the welcome text. */
  method MountSignedIn() returns (p: Page)
    ensures p == Page(Some(MainScreen(TableHeader, [], WelcomeText)), false)
  {
    var t := new Tab();
    t.ComponentDidMount(true);
    p := t.View();
  }

  /** Mounting with a failing token endpoint shows only the login screen. */
  method MountNeedsLogin() returns (p: Page)
    ensures p == Page(None, true)
  {
    var t := new Tab();
    t.ComponentDidMount(false);
    p := t.View();
  }

  /** From the login screen, a cancelled login alerts with the original message,
      the hint and the help link, and the login screen stays. */
  method CancelledLoginStays(name: Option<string>, message: string) returns (alert: string, p: Page)
    requires Contains(message, CancelledByUser)
    ensures EndsWith(alert, message + Hint) && EndsWith(alert, HelpLink)
    ensures alert[..|AlertPrefix|] == AlertPrefix
    ensures p == Page(None, true)
  {
    var t := new Tab();
    t.ComponentDidMount(false);
    var err := AuthError(name, Some(message));
    var shown := t.Login(Failure(err));
    alert := shown.value;
    CancelledAlertEndsWithHelp(err);
    p := t.View();
  }

  /** From the login screen, a successful login switches to the main screen. */
  method LoginOpensMain() returns (p: Page)
    ensures p == Page(Some(MainScreen(TableHeader, [], WelcomeText)), false)
  {
    var t := new Tab();
    t.ComponentDidMount(false);
    var _ := t.Login(Success(()));
    p := t.View();
  }

  /** On the main screen, picking two people gives two rows in pick order,
      each with the fixed location label, and the map replaces the welcome text. */
  method SelectTwo(a: Person, b: Person) returns (p: Page)
    ensures p.main.Some? && !p.login && p.main.value.panel == MapViewer
    ensures |p.main.value.rows| == 2
    ensures RowFor(p.main.value.rows[0], a, 0) && RowFor(p.main.value.rows[1], b, 1)
  {
    var t := new Tab();
    t.ComponentDidMount(true);
    t.SelectionChanged([a, b]);
    p := t.View();
  }

  /** Clearing the picker after a pick leaves an empty table and still shows
      the map: the selection is an empty list then, not undefined. */
  method ClearSelectionKeepsMap(a: Person) returns (p: Page)
    ensures p == Page(Some(MainScreen(TableHeader, [], MapViewer)), false)
  {
    var t := new Tab();
    t.ComponentDidMount(true);
    t.SelectionChanged([a]);
    t.SelectionChanged([]);
    p := t.View();
  }
}
