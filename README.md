# Tab component of the "Go There" campus-map tab

A Dafny model of the one component of this Teams tab, the `Tab` React class.
The class gates the app behind sign-in (create the TeamsFx identity client,
register it as the global Graph Toolkit provider, silently probe for a token,
and show either the login screen or the main screen), lets the user sign in
interactively, and turns the people picker's selection into rows of a
four-column table.

Files:

- `Wrappers.dfy`: `Option` (JavaScript `undefined`) and `Result` (a settled promise).
- `Selection.dfy`: the selection mapper, pure. `Person`, `Cell`, `Row`,
  `MapRows`, and its inverse `PeopleOfRows` with a round-trip lemma.
- `LoginMessage.dfy`: the text shown after a failed login, pure. It covers the
  `includes("CancelledByUser")` test, the appended hint, the Error string form
  (ECMAScript `Error.prototype.toString`) and the `"Login failed: "` prefix.
- `Screen.dfy`: the conditional branches of `render`, as a function of the state.
- `TabComponent.dfy`: the `Tab` class. Its fields are the React state plus
  `teamsfx`, `scope` and the global provider slot. Its methods are the
  constructor, the three mount steps, `componentDidMount`, `loginBtnClick` and
  the picker callback. The file ends with client methods that run the
  component through the mount, login and selection scenarios.

The outcomes of the SDK calls are parameters. `getToken` becomes
`tokenOk: bool` and `login` becomes a `Result<(), AuthError>`. A call on an
undefined `teamsfx` would throw inside the same `try`, so the same parameter
covers that case too. `CheckConsent` requires a registered provider: its
`Providers.globalProvider.setState` call is outside the `try`, so on an empty
slot it would throw out of the probe. The mount sequence always registers the
provider before the probe. `Login` requires a registered provider for a
different reason. Its only caller is the "Start" button, which is rendered
only after the probe has run, and the probe runs after registration. (In
`loginBtnClick` the `setState` call is inside the `try`, so on an empty slot
the error would be caught and alerted.)

## Model

| member | source | states |
|---|---|---|
| TabComponent.Tab.constructor | tabs/src/components/Tab.js:19-30 | initial state: `showLoginPage` and `selectedPeople` undefined, no rows, header exactly Name/Email/User Principal Name/Location, no client, scope or provider yet |
| TabComponent.Tab.InitTeamsFx | tabs/src/components/Tab.js:43-51 | assigns the identity client and the scope `["User.Read", "User.ReadBasic.All"]`, nothing else |
| TabComponent.Tab.InitGraphToolkit | tabs/src/components/Tab.js:38-41 | installs a fresh provider bound to the given scope in the global slot, nothing else changes |
| TabComponent.Tab.CheckConsent | tabs/src/components/Tab.js:74-86 | token ok ⇒ `showLoginPage = false`, provider SignedIn, returns false; token fails ⇒ `showLoginPage = true`, provider SignedOut, returns true; provider flag agrees with the screen afterwards |
| TabComponent.Tab.ComponentDidMount | tabs/src/components/Tab.js:32-36 | after the three steps in order: client and scope set, provider registered with that scope and in the state the probe decided, `showLoginPage` equals "token failed", table untouched |
| TabComponent.Tab.Login | tabs/src/components/Tab.js:53-71 | success ⇒ provider SignedIn, `showLoginPage = false`, no alert; failure ⇒ screen and provider unchanged, alert text is `AlertText(err)`; keeps the provider/screen agreement |
| TabComponent.Tab.SelectionChanged | tabs/src/components/Tab.js:90-126 | `selectedPeople` is the event's selection, `tableRows` its mapped rows (same length), auth state, header and provider unchanged |
| TabComponent.Tab.WelcomeMeansEmptyTable | tabs/src/components/Tab.js:145-148 | whenever the welcome text is on the main screen, the table under the fixed header is empty |
| Selection.MapRowsFrom | tabs/src/components/Tab.js:95-122 | one row per person, in order; row i has key start+i, four truncated cells: person card of `id` titled `displayName`, `mail`/`mail`, `userPrincipalName`/`userPrincipalName`, the fixed `SHA-ZIZHU-BLD1/1707` titled `officeLocation` |
| Selection.MapRows | tabs/src/components/Tab.js:95-122 | the same with keys 0..n-1: exactly one row per selected person, row i built from person i with key i |
| Selection.PeopleOfRowsFrom | tabs/src/components/Tab.js:95-122 | reading the people back from mapped rows gives the selection back, for any starting key |
| Selection.RowsRoundTrip | tabs/src/components/Tab.js:95-122 | `PeopleOfRows(MapRows(people)) == Some(people)`: every attribute of every person, office location included, survives in the rows |
| Selection.MapRowsInjective | tabs/src/components/Tab.js:95-122 | equal tables come only from equal selections (with determinism of the function, same input ⇔ same rows) |
| Selection.LocationCellIsConstant | tabs/src/components/Tab.js:115-119 | the fourth cell's content is the fixed label, whatever the people are |
| Selection.MapRowsPrefix | tabs/src/components/Tab.js:95-97 | keys are positional: appending people leaves the earlier rows exactly as they were |
| LoginMessage.Contains | tabs/src/components/Tab.js:61 | the left-to-right scan returns true iff the substring occurs at some position |
| LoginMessage.AugmentedMessage | tabs/src/components/Tab.js:61-67 | undefined message stays undefined; a message containing "CancelledByUser" gets the hint appended, so it keeps the old message as a prefix and ends with the help link; any other message is unchanged |
| LoginMessage.ErrorString | tabs/src/components/Tab.js:69 | the string form of the error, all four branches: name + ": " + message when both are non-empty, the message when the name is empty, "Error: " + message when the name is undefined, the name (or "Error") alone when the message is empty or undefined; it ends with the message whenever that is non-empty |
| LoginMessage.AlertText | tabs/src/components/Tab.js:61-69 | the alert text is "Login failed: " followed by the string form of the error whose message has been augmented; it always starts with "Login failed: " |
| LoginMessage.CancelledAlertEndsWithHelp | tabs/src/components/Tab.js:61-69 | for a cancelled login the alert ends with the original message followed by the hint, hence with `https://aka.ms/teamsfx-auth-code-flow` |
| LoginMessage.OtherAlertIsUnchanged | tabs/src/components/Tab.js:61-69 | any other failure is shown as "Login failed: " followed by the raw error string |
| Screen.Render | tabs/src/components/Tab.js:129-159 | main screen iff `showLoginPage == Some(false)`, login screen iff `== Some(true)`; on the main screen the table shows the header and rows, and the map is shown iff `selectedPeople` is defined, the welcome text otherwise |
| Screen.ScreensExclusive | tabs/src/components/Tab.js:131-157 | never both screens; the page is blank exactly while `showLoginPage` is undefined |
| TabComponent.MountSignedIn | tabs/src/components/Tab.js:32-36 | mount with a working token endpoint: main screen, empty table, welcome text, no login screen |
| TabComponent.MountNeedsLogin | tabs/src/components/Tab.js:74-86 | mount with a failing token endpoint: only the login screen |
| TabComponent.CancelledLoginStays | tabs/src/components/Tab.js:53-71 | login cancelled from the login screen: alert has the prefix, the original message, the hint and the help link; the login screen stays |
| TabComponent.LoginOpensMain | tabs/src/components/Tab.js:53-59 | login succeeds from the login screen: main screen with an empty table and the welcome text |
| TabComponent.SelectTwo | tabs/src/components/Tab.js:90-148 | two people picked on the main screen: two rows in pick order, keys 0 and 1, the fixed location label, the map visible |
| TabComponent.ClearSelectionKeepsMap | tabs/src/components/Tab.js:90-148 | clearing the picker after a pick: the table is empty but the map stays, because the selection is then an empty list, not undefined |

## Left out

- JSX markup, CSS, and the `Table`, `Button`, `PeoplePicker`, `Person` and `ZoomImage` widgets. These belong to external libraries. The person card is only an abstract `PersonCard(id)`; its view and hover settings are not modelled.
- `CacheService.clearCaches()` in the constructor is not modelled. It clears an external library cache.
- The unused `csvData` state field is not modelled.
- The internals of `TeamsFx`, `getCredential().getToken`, `login` and `TeamsFxProvider` are not modelled, since they are foreign SDK code. Their outcomes are parameters.
- The state of a newly built `TeamsFxProvider` is not visible in this component. It is modelled as the provider default, Loading.
- TabComponent.Tab.InitGraphToolkit: the `teamsfx` argument is not passed, so the provider records only its scope and sign-in state, not which identity client it wraps. The mount sequence always passes the client it has just created.
- The global provider slot is a single field of the component. Other writers of that process-wide slot are not modelled.
- `alert` as an I/O effect is not modelled. Only the string it receives is.
- The error object's in-place `+=` on `err.message` is modelled as a new value. Nothing reads the error after the handler returns.
- An error attribute that is `null` rather than `undefined` is not modelled. `toString` would print it as "null".
- A thrown value that is not an Error object, or one with its own `toString`, is not modelled. The string form is the standard `Error.prototype.toString`.
- Strings are sequences of characters, not UTF-16 code units. All the constants involved are ASCII.
- `async`/`await` interleavings and re-entrant login clicks are not modelled. Login is reachable from any mounted state, and each call handles exactly one settled outcome with no retry.
- TabComponent.Tab.SelectionChanged: the two `setState` calls of `handleInputChange` are treated as one atomic update. A render between them, showing the new selection with stale rows, is not modelled.
