/** The conditional branches of the Tab component's `render`: which of the two
    screens is on the page, and on the main screen whether the map or the
    welcome text is shown. Markup and styling are not modelled. */
module Screen {
  import opened Wrappers
  import opened Selection

  /** What the lower area of the main screen holds. */
  datatype Panel = MapViewer | WelcomeText

  /** The main screen: the picker (stateless here), the table and the panel. */
  datatype MainScreen = MainScreen(header: seq<string>, rows: seq<Row>, panel: Panel)

  /** The page: the main-screen section if present, and whether the login
      section (with its "Start" button) is present. */
  datatype Page = Page(main: Option<MainScreen>, login: bool)

  /** `render()` as a function of the component state. */
  function Render(showLoginPage: Option<bool>, selectedPeople: Option<seq<Person>>,
                  tableHeader: seq<string>, tableRows: seq<Row>): (p: Page)
    ensures p.main.Some? <==> showLoginPage == Some(false)
    ensures p.login <==> showLoginPage == Some(true)
    ensures p.main.Some? ==>
      && p.main.value.header == tableHeader
      && p.main.value.rows == tableRows
      && (p.main.value.panel == MapViewer <==> selectedPeople.Some?)
  {
    var main := if showLoginPage == Some(false) then
      Some(MainScreen(tableHeader, tableRows,
        if selectedPeople.Some? then MapViewer else WelcomeText))
    else None;
    Page(main, showLoginPage == Some(true))
  }

  /** The two sections are never on the page together, and while the auth
      state is still undefined the page is blank. */
  lemma ScreensExclusive(showLoginPage: Option<bool>, selectedPeople: Option<seq<Person>>,
                         tableHeader: seq<string>, tableRows: seq<Row>)
    ensures var p := Render(showLoginPage, selectedPeople, tableHeader, tableRows);
      !(p.main.Some? && p.login) && (showLoginPage.None? <==> p == Page(None, false))
  {
    match showLoginPage {
      case None =>
      case Some(b) => assert showLoginPage == Some(true) || showLoginPage == Some(false);
    }
  }
}
