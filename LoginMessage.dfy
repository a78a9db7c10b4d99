/** The text the Tab component shows when an interactive login fails: the
    error message, augmented with a remediation hint when the user cancelled
    the popup, behind the prefix "Login failed: ". */
module LoginMessage {
  import opened Wrappers

  /** The thrown error as the handler sees it: an Error object's `name` and
      `message`, either of which may be undefined. `None` means `undefined`
      only; a `null` attribute, which `toString` would print as "null", is
      not modelled. */
  datatype AuthError = AuthError(name: Option<string>, message: Option<string>)

  const CancelledByUser: string := "CancelledByUser"
  const HelpLink: string := "https://aka.ms/teamsfx-auth-code-flow"

  /** The hint appended to a cancelled-login message; it ends with the help link. */
  const Hint: string :=
    "\nIf you see \"AADSTS50011: The reply URL specified in the request does not match the reply URLs configured for the application\" "
    + "in the popup window, you may be using unmatched version for TeamsFx SDK (version >= 0.5.0) and Teams Toolkit (version < 3.3.0) or "
    + "cli (version < 0.11.0). Please refer to the help link for how to fix the issue: " + HelpLink

  const AlertPrefix: string := "Login failed: "

  /** `sub` occurs in `s` starting at position `i`. */
  ghost predicate OccursAt(s: string, sub: string, i: int) {
    0 <= i && i + |sub| <= |s| && s[i..i + |sub|] == sub
  }

  /** JavaScript's `String.prototype.includes`, scanning from the left. */
  function Contains(s: string, sub: string): (b: bool)
    ensures b <==> exists i :: OccursAt(s, sub, i)
    decreases |s|
  {
    if |sub| > |s| then false
    else if s[..|sub|] == sub then (assert OccursAt(s, sub, 0); true)
    else
      var rest := Contains(s[1..], sub);
      ShiftOccurrence(s, sub);
      rest
  }

  /** If `sub` is not at the head of `s`, its occurrences in `s` are those in `s[1..]`, shifted by one. */
  lemma ShiftOccurrence(s: string, sub: string)
    requires |sub| <= |s| && s[..|sub|] != sub
    ensures (exists i :: OccursAt(s, sub, i)) <==> (exists j :: OccursAt(s[1..], sub, j))
  {
    if i :| OccursAt(s, sub, i) {
      assert i != 0;
      assert s[1..][i - 1..i - 1 + |sub|] == s[i..i + |sub|];
      assert OccursAt(s[1..], sub, i - 1);
    }
    if j :| OccursAt(s[1..], sub, j) {
      assert s[j + 1..j + 1 + |sub|] == s[1..][j..j + |sub|];
      assert OccursAt(s, sub, j + 1);
    }
  }

  /** `err.message` after the handler's `+=`: only a defined message containing
      "CancelledByUser" is extended, and then by the hint. */
  function AugmentedMessage(message: Option<string>): (r: Option<string>)
    ensures message.None? ==> r == None
    ensures message.Some? && Contains(message.value, CancelledByUser) ==>
      r.Some? && |r.value| == |message.value| + |Hint|
      && r.value[..|message.value|] == message.value
      && r.value[|message.value|..] == Hint
      && r.value[|r.value| - |HelpLink|..] == HelpLink
    ensures message.Some? && !Contains(message.value, CancelledByUser) ==> r == message
  {
    match message
    case None => None
    case Some(m) =>
      if Contains(m, CancelledByUser) then
        var r := m + Hint;
        assert r[|r| - |HelpLink|..] == Hint[|Hint| - |HelpLink|..];
        Some(r)
      else Some(m)
  }

  /** The string form of an Error object, as `Error.prototype.toString` in the
      ECMAScript language specification (section 20.5.3.4 in the 2022 edition)
      defines it: the name defaults to "Error", the message to "", and ": "
      joins them only when both are non-empty. */
  function ErrorString(e: AuthError): (s: string)
    ensures e.message.Some? && e.message.value != "" ==>
      |s| >= |e.message.value| && s[|s| - |e.message.value|..] == e.message.value
    ensures e.name.Some? && e.name.value != "" && e.message.Some? && e.message.value != "" ==>
      s == e.name.value + ": " + e.message.value
    ensures e.message.Some? && e.message.value != "" && e.name == Some("") ==> s == e.message.value
    ensures e.message.Some? && e.message.value != "" && e.name.None? ==> s == "Error: " + e.message.value
    ensures e.message.None? || e.message == Some("") ==> s == (if e.name.None? then "Error" else e.name.value)
  {
    var name := if e.name.None? then "Error" else e.name.value;
    var msg := if e.message.None? then "" else e.message.value;
    if name == "" then msg
    else if msg == "" then name
    else name + ": " + msg
  }

  /** The argument of `alert` in the catch block, after the message has
      (possibly) been augmented in place. */
  function AlertText(e: AuthError): (s: string)
    ensures |s| >= |AlertPrefix| && s[..|AlertPrefix|] == AlertPrefix
  {
    AlertPrefix + ErrorString(e.(message := AugmentedMessage(e.message)))
  }

  ghost predicate EndsWith(s: string, suffix: string) {
    |suffix| <= |s| && s[|s| - |suffix|..] == suffix
  }

  /** A cancelled login shows the original message followed by the hint, so
      the alert ends with the help link. */
  lemma CancelledAlertEndsWithHelp(e: AuthError)
    requires e.message.Some? && Contains(e.message.value, CancelledByUser)
    ensures EndsWith(AlertText(e), e.message.value + Hint)
    ensures EndsWith(AlertText(e), HelpLink)
  {
    var am := e.message.value + Hint;
    var augmented := e.(message := AugmentedMessage(e.message));
    assert augmented.message == Some(am);
    var tail := ErrorString(augmented);
    assert EndsWith(tail, am);
    assert EndsWith(Hint, HelpLink);
    EndsWithTrans(AlertPrefix + tail, tail, am);
    EndsWithTrans(AlertPrefix + tail, am, Hint);
    EndsWithTrans(AlertPrefix + tail, Hint, HelpLink);
  }

  lemma EndsWithTrans(s: string, t: string, u: string)
    requires EndsWith(s, t) && EndsWith(t, u)
    ensures EndsWith(s, u)
  {
    assert s[|s| - |u|..] == s[|s| - |t|..][|t| - |u|..];
  }

  /** Any other failure shows its message unchanged behind the prefix. */
  lemma OtherAlertIsUnchanged(e: AuthError)
    requires e.message.None? || !Contains(e.message.value, CancelledByUser)
    ensures AlertText(e) == AlertPrefix + ErrorString(e)
  {
  }
}
