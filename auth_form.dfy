/** Client-side checks of the login and signup forms (app/static/js/auth.js):
    which message blocks a submission, the email pattern, and the live hints
    next to the password fields. DOM updates are the values returned. */
module AuthForm {
  import opened Common
  import AuthRoutes

  const FillInAll := "Please fill in all fields"
  const MinPasswordLength := 8

  /** The login submit handler: the message that blocks the submission, if any. */
  function LoginBlock(username: string, password: string): (r: Option<string>)
    ensures r.Some? ==> r.value == FillInAll
    // a username of whitespace only counts as empty
    ensures r.Some? <==> (forall i :: 0 <= i < |username| ==> JsSpace(username[i])) || password == []
  {
    TrimEmptyIffAllSpace(username, JsSpace);
    if JsTrim(username) == [] || password == [] then Some(FillInAll) else None
  }

  /** A character `[^\s@]` accepts. */
  predicate EmailChar(c: char) {
    !JsSpace(c) && c != '@'
  }

  /** The pattern `/^[^\s@]+@[^\s@]+\.[^\s@]+$/`: the text splits as
      local `@` host `.` suffix, three non-empty runs of `EmailChar`. */
  predicate MatchesEmailPattern(s: string) {
    exists at, dot :: 0 < at < dot < |s| && SplitsAt(s, at, dot)
  }

  /** `isValidEmail(email)`, the pattern's `test`: it accepts exactly the
      well-formed addresses. */
  function IsValidEmail(s: string): (ok: bool)
    ensures ok <==> WellFormedAddress(s)
  {
    EmailPatternCharacterised(s);
    MatchesEmailPattern(s)
  }

  /** The same set of strings described by what they contain: no whitespace,
      exactly one `@`, not first, and a `.` after it that is neither the
      first nor the last character of the domain. */
  predicate WellFormedAddress(s: string) {
    (forall i :: 0 <= i < |s| ==> !JsSpace(s[i]))
    && exists at :: 0 < at < |s| && s[at] == '@'
         && (forall i :: 0 <= i < |s| && i != at ==> s[i] != '@')
         && (exists dot :: at + 1 < dot < |s| - 1 && s[dot] == '.')
  }

  /** The three runs of the pattern, split at `at` and `dot`. */
  predicate SplitsAt(s: string, at: int, dot: int) {
    0 < at && at + 1 < dot && dot + 1 < |s| && s[at] == '@' && s[dot] == '.'
    && (forall i :: 0 <= i < at ==> EmailChar(s[i]))
    && (forall i :: at < i < dot ==> EmailChar(s[i]))
    && (forall i :: dot < i < |s| ==> EmailChar(s[i]))
  }

  lemma EmailPatternSound(s: string, at: int, dot: int)
    requires SplitsAt(s, at, dot)
    ensures WellFormedAddress(s)
  {
    assert forall i :: 0 <= i < |s| && i != at ==> EmailChar(s[i]);
    assert !JsSpace(s[at]);
  }

  lemma EmailPatternComplete(s: string)
    requires WellFormedAddress(s)
    ensures MatchesEmailPattern(s)
  {
    var at :| 0 < at < |s| && s[at] == '@'
       && (forall i :: 0 <= i < |s| && i != at ==> s[i] != '@')
       && (exists dot :: at + 1 < dot < |s| - 1 && s[dot] == '.');
    var dot :| at + 1 < dot < |s| - 1 && s[dot] == '.';
    assert forall i :: 0 <= i < |s| && i != at ==> EmailChar(s[i]);
    assert SplitsAt(s, at, dot);
  }

  lemma EmailPatternCharacterised(s: string)
    ensures MatchesEmailPattern(s) <==> WellFormedAddress(s)
  {
    if MatchesEmailPattern(s) {
      var at, dot :| SplitsAt(s, at, dot);
      EmailPatternSound(s, at, dot);
    }
    if WellFormedAddress(s) {
      EmailPatternComplete(s);
    }
  }

  /** Two `@` or a whitespace character always fail the pattern. */
  lemma EmailRejects(s: string, i: nat, j: nat)
    requires i < j < |s| && s[i] == '@' && s[j] == '@'
    ensures !MatchesEmailPattern(s)
  {
    EmailPatternCharacterised(s);
  }

  /** The signup submit handler: the message of the first failing check,
      in the handler's order. */
  function SignupBlock(username: string, email: string, fullName: string, password: string,
                       confirmPassword: string): (r: Option<string>)
    ensures r == Some(FillInAll) <==>
              (JsTrim(username) == [] || JsTrim(email) == [] || JsTrim(fullName) == [] || password == [] || confirmPassword == [])
    ensures r == Some("Password must be at least 8 characters long") <==>
              r != Some(FillInAll) && |password| < MinPasswordLength
    ensures r == Some("Passwords do not match") <==>
              r != Some(FillInAll) && |password| >= MinPasswordLength && password != confirmPassword
    ensures r == Some("Please enter a valid email address") <==>
              r != Some(FillInAll) && |password| >= MinPasswordLength && password == confirmPassword
              && !IsValidEmail(JsTrim(email))
    // submitted exactly when all four checks pass
    ensures r.None? <==>
              JsTrim(username) != [] && JsTrim(email) != [] && JsTrim(fullName) != [] && password != []
              && |password| >= MinPasswordLength && password == confirmPassword && IsValidEmail(JsTrim(email))
  {
    if JsTrim(username) == [] || JsTrim(email) == [] || JsTrim(fullName) == [] || password == [] || confirmPassword == [] then
      Some(FillInAll)
    else if |password| < MinPasswordLength then Some("Password must be at least 8 characters long")
    else if password != confirmPassword then Some("Passwords do not match")
    else if !IsValidEmail(JsTrim(email)) then Some("Please enter a valid email address")
    else None
  }

  /** A form the client lets through never meets the server's mismatch
      refusal, and its trimmed email has an `@`. */
  lemma SubmittedSignupPassesConfirmation(users: seq<AuthRoutes.Security.User>, same: AuthRoutes.Security.Collation,
                                          username: string, email: string, fullName: string, password: string,
                                          confirmPassword: string)
    requires SignupBlock(username, email, fullName, password, confirmPassword).None?
    ensures AuthRoutes.SignupRejection(users, same, username, email, password, confirmPassword) != Some("Passwords do not match")
    ensures WellFormedAddress(JsTrim(email))
  {
  }

  datatype Colour = TextTertiary | Success | ErrorColour

  datatype Hint = Hint(text: string, colour: Colour)

  /** `checkPasswordsMatch()`. */
  function PasswordsMatchHint(password: string, confirmPassword: string): (h: Hint)
    ensures confirmPassword == [] ==> h == Hint("Both passwords must match", TextTertiary)
    ensures h.colour == Success <==> confirmPassword != [] && password == confirmPassword
    ensures h.colour == ErrorColour <==> confirmPassword != [] && password != confirmPassword
    ensures h.colour == Success ==> h.text == "Passwords match"
    ensures h.colour == ErrorColour ==> h.text == "Passwords do not match"
  {
    if confirmPassword == [] then Hint("Both passwords must match", TextTertiary)
    else if password == confirmPassword then Hint("Passwords match", Success)
    else Hint("Passwords do not match", ErrorColour)
  }

  /** The colour of the length hint under the password field. */
  function PasswordLengthColour(password: string): (c: Colour)
    ensures c == ErrorColour <==> 0 < |password| < MinPasswordLength
    ensures c != Success
  {
    if |password| < MinPasswordLength && |password| > 0 then ErrorColour else TextTertiary
  }

  /** The hints agree with the submit check: a form it lets through shows a
      neutral length hint and a matching confirmation. */
  lemma SubmittedFormShowsNoErrorHint(username: string, email: string, fullName: string, password: string,
                                      confirmPassword: string)
    requires SignupBlock(username, email, fullName, password, confirmPassword).None?
    ensures PasswordLengthColour(password) == TextTertiary
    ensures PasswordsMatchHint(password, confirmPassword) == Hint("Passwords match", Success)
  {
  }
}
