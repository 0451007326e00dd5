/** The input validators of the client and the rule order of validateField. */
module Validation {
  import opened Js
  import opened Text
  import PassCodec

  // ---------------------------------------------------------------------------
  // isValidRegNo

  /** One step of the anchored pattern `^[a-zA-Z0-9]+$`: a non-empty run of ASCII letters and digits. */
  predicate MatchesAlnumRun(s: string)
    decreases |s|
  {
    s != [] && IsAsciiAlnum(s[0]) && (|s| == 1 || MatchesAlnumRun(s[1..]))
  }

  /** `isValidRegNo(regNo)`: truthy, at least three characters long, and matching `^[a-zA-Z0-9]+$`. */
  predicate IsValidRegNo(regNo: string) {
    regNo != "" && |regNo| >= 3 && MatchesAlnumRun(regNo)
  }

  /** The pattern matches exactly the non-empty strings of ASCII letters and digits. */
  lemma {:induction false} AlnumRunMeaning(s: string)
    ensures MatchesAlnumRun(s) <==> s != [] && forall i :: 0 <= i < |s| ==> IsAsciiAlnum(s[i])
    decreases |s|
  {
    if |s| > 1 {
      AlnumRunMeaning(s[1..]);
      assert forall i :: 1 <= i < |s| ==> s[i] == s[1..][i - 1];
    }
  }

  /** A registration number is valid exactly when it has at least three characters, all ASCII
      letters or digits. */
  lemma RegNoMeaning(regNo: string)
    ensures IsValidRegNo(regNo) <==> |regNo| >= 3 && forall i :: 0 <= i < |regNo| ==> IsAsciiAlnum(regNo[i])
  {
    AlnumRunMeaning(regNo);
  }

  /** A registration number the form accepts is carried unchanged by the pass text. */
  lemma ValidRegNoIsCodecSafe(regNo: string)
    requires IsValidRegNo(regNo)
    ensures PassCodec.CodecSafe(regNo)
  {
    RegNoMeaning(regNo);
    assert forall i :: 0 <= i < |regNo| ==> !IsWhitespace(regNo[i]) && regNo[i] != '|' && regNo[i] != ':';
    assert regNo[0] == regNo[0];
  }

  // ---------------------------------------------------------------------------
  // isValidEmail

  /** The class `[^\s@]`. */
  predicate EmailChar(c: char) {
    !IsWhitespace(c) && c != '@'
  }

  /** `[^\s@]+`. */
  predicate EmailRun(s: string) {
    s != [] && forall i :: 0 <= i < |s| ==> EmailChar(s[i])
  }

  /** The language of `^[^\s@]+@[^\s@]+\.[^\s@]+$`: a run, `@` at `at`, a run, `.` at `dot`, a run. */
  ghost predicate EmailPattern(s: string) {
    exists at, dot :: 0 <= at < dot < |s| && EmailShape(s, at, dot)
  }

  ghost predicate EmailShape(s: string, at: nat, dot: nat)
    requires at < dot < |s|
  {
    EmailRun(s[..at]) && s[at] == '@' && EmailRun(s[at + 1..dot]) && s[dot] == '.' && EmailRun(s[dot + 1..])
  }

  /** The first position of `c` in `s`. */
  function IndexOf(s: string, c: char): (r: Option<nat>)
    ensures r.Some? ==> r.value < |s| && s[r.value] == c && c !in s[..r.value]
    ensures r.None? ==> c !in s
    decreases |s|
  {
    if s == [] then None
    else if s[0] == c then Some(0)
    else match IndexOf(s[1..], c)
      case None => None
      case Some(i) =>
        assert s[..i + 1] == [s[0]] + s[1..][..i];
        Some(i + 1)
  }

  /** `isValidEmail(email)`, decided in one pass: the text before the only `@` is a run, and the
      text after it is free of whitespace and `@` and holds a `.` with a character on each side. */
  predicate IsValidEmail(email: string) {
    match IndexOf(email, '@')
    case None => false
    case Some(at) =>
      var domain := email[at + 1..];
      at > 0 && EmailRun(email[..at]) && EmailRun(domain)
      && exists j :: 0 < j < |domain| - 1 && domain[j] == '.'
  }

  /** The one-pass test accepts exactly the strings of the pattern. */
  lemma EmailMeaning(email: string)
    ensures IsValidEmail(email) <==> EmailPattern(email)
  {
    if IsValidEmail(email) {
      ValidEmailMatches(email);
    }
    if EmailPattern(email) {
      MatchingEmailValid(email);
    }
  }

  lemma ValidEmailMatches(email: string)
    requires IsValidEmail(email)
    ensures EmailPattern(email)
  {
    var at := IndexOf(email, '@').value;
    var domain := email[at + 1..];
    var j :| 0 < j < |domain| - 1 && domain[j] == '.';
    var dot := at + 1 + j;
    assert email[at + 1..dot] == domain[..j];
    assert email[dot + 1..] == domain[j + 1..];
    assert EmailShape(email, at, dot);
  }

  lemma MatchingEmailValid(email: string)
    requires EmailPattern(email)
    ensures IsValidEmail(email)
  {
    var at, dot :| 0 <= at < dot < |email| && EmailShape(email, at, dot);
    assert '@' !in email[..at] by {
      assert forall i :: 0 <= i < at ==> EmailChar(email[..at][i]);
    }
    var found := IndexOf(email, '@');
    assert found == Some(at);
    var domain := email[at + 1..];
    assert domain == email[at + 1..dot] + ['.'] + email[dot + 1..];
    assert domain[dot - at - 1] == '.';
    assert EmailRun(domain) by {
      forall i | 0 <= i < |domain|
        ensures EmailChar(domain[i])
      {
        if i < dot - at - 1 {
          assert domain[i] == email[at + 1..dot][i];
        } else if i > dot - at - 1 {
          assert domain[i] == email[dot + 1..][i - (dot - at)];
        }
      }
    }
  }

  /** Surrounding whitespace makes an address invalid: the pattern admits no whitespace at all. */
  lemma PaddedEmailRejected(email: string)
    requires email != [] && IsWhitespace(email[0])
    ensures !IsValidEmail(email)
  {
    match IndexOf(email, '@')
    case None =>
    case Some(at) =>
      if at > 0 {
        assert !EmailChar(email[..at][0]);
      }
  }

  // ---------------------------------------------------------------------------
  // validateField

  /** The properties of a form control that validateField reads. */
  datatype FormField = FormField(required: bool, inputType: string, name: string, value: string)

  /** The three rules, in the order validateField runs them. */
  datatype Rule = RequiredRule | EmailRule | RegNoRule

  const RequiredMessage := "This field is required"
  const EmailMessage := "Please enter a valid email address"
  const RegNoMessage := "Registration number must be at least 3 characters (letters and numbers only)"

  function RuleMessage(rule: Rule): string {
    match rule
    case RequiredRule => RequiredMessage
    case EmailRule => EmailMessage
    case RegNoRule => RegNoMessage
  }

  /** Whether `rule` rejects `field`. Only the blank test trims; the email and registration-number
      tests see the raw value. */
  predicate Fails(field: FormField, rule: Rule) {
    match rule
    case RequiredRule => field.required && Trim(field.value) == ""
    case EmailRule => field.inputType == "email" && Trim(field.value) != "" && !IsValidEmail(field.value)
    case RegNoRule => field.name == "regNo" && Trim(field.value) != "" && !IsValidRegNo(field.value)
  }

  /** The rules flagged as failing, in rule order. */
  function RulesInOrder(required: bool, email: bool, regNo: bool): (r: seq<Rule>)
    ensures RequiredRule in r <==> required
    ensures EmailRule in r <==> email
    ensures RegNoRule in r <==> regNo
    ensures |r| <= 3
  {
    (if required then [RequiredRule] else [])
    + (if email then [EmailRule] else [])
    + (if regNo then [RegNoRule] else [])
  }

  /** The rules that reject `field`, in rule order. */
  function FailedRules(field: FormField): (r: seq<Rule>)
    ensures RequiredRule in r <==> Fails(field, RequiredRule)
    ensures EmailRule in r <==> Fails(field, EmailRule)
    ensures RegNoRule in r <==> Fails(field, RegNoRule)
    ensures |r| <= 3
  {
    RulesInOrder(Fails(field, RequiredRule), Fails(field, EmailRule), Fails(field, RegNoRule))
  }

  /** The rule whose message is reported: the last one in rule order that rejects `field`. */
  function Reported(field: FormField): Option<Rule> {
    if Fails(field, RegNoRule) then Some(RegNoRule)
    else if Fails(field, EmailRule) then Some(EmailRule)
    else if Fails(field, RequiredRule) then Some(RequiredRule)
    else None
  }

  /** The reported rule is the last of the failing rules, and there is one exactly when some rule fails. */
  lemma ReportedIsLastFailure(field: FormField)
    ensures Reported(field).None? <==> FailedRules(field) == []
    ensures Reported(field).Some? ==> Reported(field).value == FailedRules(field)[|FailedRules(field)| - 1]
  {
    var r := FailedRules(field);
    if Fails(field, RegNoRule) {
      assert r[|r| - 1] == RegNoRule;
    } else if Fails(field, EmailRule) {
      assert r[|r| - 1] == EmailRule;
    }
  }

  /** The decision part of `validateField(field)`: each rule that fails clears the verdict and
      overwrites the message, so the last failing rule is the one reported. */
  method ValidateField(field: FormField) returns (isValid: bool, errorMessage: string)
    ensures isValid <==> Reported(field).None?
    ensures isValid ==> errorMessage == ""
    ensures !isValid ==> errorMessage == RuleMessage(Reported(field).value)
  {
    isValid := true;
    errorMessage := "";
    var trimmed := Trim(field.value);
    if field.required && trimmed == "" {
      isValid := false;
      errorMessage := RequiredMessage;
    }
    if field.inputType == "email" && trimmed != "" && !IsValidEmail(field.value) {
      isValid := false;
      errorMessage := EmailMessage;
    }
    if field.name == "regNo" && trimmed != "" && !IsValidRegNo(field.value) {
      isValid := false;
      errorMessage := RegNoMessage;
    }
  }

  /** A blank value fails only the required rule: the other two rules skip blank values. */
  lemma BlankFailsOnlyRequired(field: FormField)
    requires Trim(field.value) == ""
    ensures FailedRules(field) == if field.required then [RequiredRule] else []
  {
  }

  /** The required rule and the other two exclude each other, so at most two rules fail and the
      required message is reported only for blank values. */
  lemma RequiredExcludesOthers(field: FormField)
    ensures Fails(field, RequiredRule) ==> FailedRules(field) == [RequiredRule]
    ensures |FailedRules(field)| <= 2
  {
  }

  /** A control named `regNo` of type email with a bad value fails both rules, and the
      registration-number message wins. */
  lemma LastRuleWins(field: FormField)
    requires field.inputType == "email" && field.name == "regNo" && Trim(field.value) != ""
    requires !IsValidEmail(field.value) && !IsValidRegNo(field.value)
    ensures FailedRules(field) == [EmailRule, RegNoRule]
    ensures Reported(field) == Some(RegNoRule)
  {
    assert !Fails(field, RequiredRule) && Fails(field, EmailRule) && Fails(field, RegNoRule);
    assert RulesInOrder(false, true, true) == [EmailRule, RegNoRule];
  }
}
