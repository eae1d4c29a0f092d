/** The reset-password page, app/reset-password/page.jsx: the four password
    rules and the order their failures are listed in, the strength meter,
    and the checks before the new password is posted. */
module ResetPasswordPage {
  import opened Common
  import Accounts

  /** The rules, in the order `validatePassword` tests them. */
  datatype Rule = MinLength | Uppercase | Lowercase | Digit

  const AllRules := [MinLength, Uppercase, Lowercase, Digit]

  predicate HasCharIn(pass: string, lo: char, hi: char) {
    exists k :: 0 <= k < |pass| && lo <= pass[k] <= hi
  }

  /** `pass.length >= 8`, `/[A-Z]/`, `/[a-z]/` and `/[0-9]/`. */
  predicate Holds(r: Rule, pass: string) {
    match r
    case MinLength => |pass| >= 8
    case Uppercase => HasCharIn(pass, 'A', 'Z')
    case Lowercase => HasCharIn(pass, 'a', 'z')
    case Digit => HasCharIn(pass, '0', '9')
  }

  function Message(r: Rule): string {
    match r
    case MinLength => "at least 8 characters"
    case Uppercase => "one uppercase letter"
    case Lowercase => "one lowercase letter"
    case Digit => "one number"
  }

  function Fails(pass: string): Rule -> bool {
    (r: Rule) => !Holds(r, pass)
  }

  /** The rules `pass` breaks, in checking order. */
  function FailedRules(pass: string): seq<Rule> {
    Filter(AllRules, Fails(pass))
  }

  function Messages(rules: seq<Rule>): (r: seq<string>)
    ensures |r| == |rules|
    ensures forall k :: 0 <= k < |r| ==> r[k] == Message(rules[k])
  {
    if rules == [] then [] else [Message(rules[0])] + Messages(rules[1..])
  }

  /** A rule is reported iff it fails, and the report is empty iff all four hold. */
  lemma FailedRulesSpec(pass: string)
    ensures forall r :: r in FailedRules(pass) <==> !Holds(r, pass)
    ensures FailedRules(pass) == [] <==> forall r: Rule :: Holds(r, pass)
    ensures Subsequence(FailedRules(pass), AllRules)
  {
    FilterMembers(AllRules, Fails(pass));
    FilterSubsequence(AllRules, Fails(pass));
    forall r: Rule ensures r in AllRules {
      match r
      case MinLength =>
      case Uppercase =>
      case Lowercase =>
      case Digit =>
    }
    if FailedRules(pass) != [] {
      assert FailedRules(pass)[0] in FailedRules(pass);
    }
  }

  /** `validatePassword`: the rules are checked in order and each failure's
      text is pushed. */
  method ValidatePassword(pass: string) returns (errors: seq<string>)
    ensures errors == Messages(FailedRules(pass))
    ensures |errors| <= 4
  {
    errors := [];
    var i := 0;
    while i < |AllRules|
      invariant 0 <= i <= |AllRules|
      invariant errors == Messages(Filter(AllRules[..i], Fails(pass)))
    {
      FilterAppend(AllRules[..i], AllRules[i], Fails(pass));
      MessagesAppend(Filter(AllRules[..i], Fails(pass)), AllRules[i]);
      assert AllRules[..i + 1] == AllRules[..i] + [AllRules[i]];
      if !Holds(AllRules[i], pass) {
        errors := errors + [Message(AllRules[i])];
      }
      i := i + 1;
    }
    assert AllRules[..i] == AllRules;
  }

  lemma MessagesAppend(rules: seq<Rule>, r: Rule)
    ensures Messages(rules + [r]) == Messages(rules) + [Message(r)]
  {
  }

  /** `passwordStrength`. */
  datatype Strength = Strong | Medium | Weak

  function PasswordStrength(password: string): (s: Option<Strength>)
    ensures password == "" <==> s.None?
    ensures s == Some(Strong) <==> password != "" && forall r: Rule :: Holds(r, password)
  {
    FailedRulesSpec(password);
    if password == "" then None
    else if |FailedRules(password)| == 0 then Some(Strong)
    else if |FailedRules(password)| <= 2 then Some(Medium)
    else Some(Weak)
  }

  /** "weak" means three or four broken rules; one or two is "medium". */
  lemma StrengthWeakNeedsThreeFailures(password: string)
    requires password != ""
    ensures PasswordStrength(password) == Some(Weak) <==> |FailedRules(password)| >= 3
    ensures PasswordStrength(password) == Some(Medium) <==> 1 <= |FailedRules(password)| <= 2
  {
  }

  /** `errors.join(", ")`. */
  function Join(parts: seq<string>, sep: string): string {
    if parts == [] then "" else if |parts| == 1 then parts[0] else parts[0] + sep + Join(parts[1..], sep)
  }

  /** `handleSubmit`'s checks in order: both fields filled, then the rules,
      then the two entries equal. `None` means the password is posted. */
  function SubmitError(password: string, confirm: string): (r: Option<string>)
    ensures r.None? <==>
      password != "" && confirm != "" && (forall rule: Rule :: Holds(rule, password)) && password == confirm
  {
    FailedRulesSpec(password);
    if password == "" || confirm == "" then Some("Please fill in all fields")
    else if |FailedRules(password)| > 0 then
      Some("Password must contain " + Join(Messages(FailedRules(password)), ", "))
    else if password != confirm then Some("Passwords do not match")
    else None
  }

  /** A password the page posts meets the server's only rule, the length. */
  lemma PostedPasswordMeetsServerRule(password: string, confirm: string)
    requires SubmitError(password, confirm).None?
    ensures Accounts.LongEnough(password)
  {
    assert Holds(MinLength, password);
  }

  /** The server's rule is weaker: an eight-letter lower-case password is
      refused by the page and accepted by the route's length check. */
  lemma ServerAcceptsWhatPageRefuses()
    ensures Accounts.LongEnough("abcdefgh")
    ensures SubmitError("abcdefgh", "abcdefgh").Some?
  {
    assert !Holds(Uppercase, "abcdefgh");
  }

  /** After a failed reply, the page sends the visitor back to request a
      new link when the error mentions "expired" or "invalid". */
  predicate RedirectsToForgot(errorMessage: string) {
    Contains(errorMessage, "expired") || Contains(errorMessage, "invalid")
  }

  /** The route's reply for a stale token leads back to the request page. */
  lemma StaleTokenRedirects()
    ensures RedirectsToForgot("Password reset token is invalid or has expired")
  {
    var before := "Password reset token is ";
    var m := before + "invalid" + " or has expired";
    assert m == "Password reset token is invalid or has expired";
    assert m[|before|..|before| + 7] == "invalid";
    ContainsAt(m, "invalid", |before|);
  }
}
