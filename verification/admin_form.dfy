/** The admin registration form's submit handler: four checks in a fixed order, the
    first failing one decides the message, and only when all pass is a signup
    request sent, with `phone` renamed to `phoneNumber`. */
module AdminForm {
  import opened Common

  datatype FormData = FormData(
    phone: string,
    flatNumber: string,
    apartmentCode: string,
    password: string,
    confirmPassword: string)

  /** The body posted to /signup-admin. */
  datatype SignupRequest = SignupRequest(phoneNumber: string, flatNumber: string, password: string, apartmentCode: string)

  datatype Outcome = Rejected(title: string) | Send(request: SignupRequest)

  const MinPasswordLength := 6
  const MinPhoneLength := 10

  /** JavaScript's `\s`: the ASCII whitespace controls, space, and the Unicode space separators. */
  predicate IsWhitespace(c: char) {
    var n := c as int;
    || 0x09 <= n <= 0x0D || n == 0x20 || n == 0xA0 || n == 0x1680
    || 0x2000 <= n <= 0x200A || n == 0x2028 || n == 0x2029
    || n == 0x202F || n == 0x205F || n == 0x3000 || n == 0xFEFF
  }

  /** One character of the class `[\d\s-()]`. */
  predicate PhoneChar(c: char) {
    '0' <= c <= '9' || IsWhitespace(c) || c == '-' || c == '(' || c == ')'
  }

  predicate AllPhoneChars(s: string) {
    forall i :: 0 <= i < |s| ==> PhoneChar(s[i])
  }

  /** The language of `/^\+?[\d\s-()]+$/`: an optional '+' and then at least one class character. */
  predicate PhonePattern(s: string) {
    || (|s| > 1 && s[0] == '+' && AllPhoneChars(s[1..]))
    || (|s| > 0 && AllPhoneChars(s))
  }

  /** A scan of the phone number as the regular expression engine reads it. */
  method MatchPhonePattern(s: string) returns (matched: bool)
    ensures matched <==> PhonePattern(s)
  {
    var start := if |s| > 0 && s[0] == '+' then 1 else 0;
    if start == |s| {
      return false;
    }
    var i := start;
    while i < |s|
      invariant start <= i <= |s|
      invariant forall j :: start <= j < i ==> PhoneChar(s[j])
    {
      if !PhoneChar(s[i]) {
        assert !AllPhoneChars(s[start..]) by { assert s[start..][i - start] == s[i]; }
        return false;
      }
      i := i + 1;
    }
    assert AllPhoneChars(s[start..]) by {
      forall j | 0 <= j < |s| - start ensures PhoneChar(s[start..][j]) {
        assert s[start..][j] == s[start + j];
      }
    }
    return true;
  }

  /** `handleSubmit`. */
  function Submit(f: FormData): (r: Outcome)
    ensures r.Send? <==>
      && f.password == f.confirmPassword
      && |f.password| >= MinPasswordLength
      && |f.phone| >= MinPhoneLength
      && PhonePattern(f.phone)
    ensures r.Send? ==> r.request == SignupRequest(f.phone, f.flatNumber, f.password, f.apartmentCode)
    ensures f.password != f.confirmPassword ==> r == Rejected("Password mismatch")
  {
    if f.password != f.confirmPassword then Rejected("Password mismatch")
    else if |f.password| < MinPasswordLength then Rejected("Password too short")
    else if |f.phone| < MinPhoneLength then Rejected("Please enter a valid phone number")
    else if !PhonePattern(f.phone) then Rejected("Invalid phone number")
    else Send(SignupRequest(f.phone, f.flatNumber, f.password, f.apartmentCode))
  }

  // ---- the checks as an ordered list, an independent reading of the handler ----

  datatype Check = Check(passes: bool, title: string)

  function ChecksOf(f: FormData): seq<Check> {
    [ Check(f.password == f.confirmPassword, "Password mismatch"),
      Check(|f.password| >= MinPasswordLength, "Password too short"),
      Check(|f.phone| >= MinPhoneLength, "Please enter a valid phone number"),
      Check(PhonePattern(f.phone), "Invalid phone number") ]
  }

  /** The title of the first check that fails, if any. */
  function FirstFailure(checks: seq<Check>): Option<string> {
    if checks == [] then None
    else if !checks[0].passes then Some(checks[0].title)
    else FirstFailure(checks[1..])
  }

  /** The handler rejects with exactly the title of the first failing check, in the
      order mismatch, password length, phone length, phone pattern, and sends otherwise. */
  lemma {:induction false} SubmitReportsFirstFailure(f: FormData)
    ensures Submit(f).Rejected? <==> FirstFailure(ChecksOf(f)).Some?
    ensures Submit(f).Rejected? ==> Submit(f).title == FirstFailure(ChecksOf(f)).value
  {
    var c0 := ChecksOf(f);
    var c1, c2, c3 := c0[1..], c0[2..], c0[3..];
    assert c1[1..] == c2 && c2[1..] == c3 && c3[1..] == [];
    assert FirstFailure(c3) == if c3[0].passes then None else Some(c3[0].title);
    assert FirstFailure(c2) == if c2[0].passes then FirstFailure(c3) else Some(c2[0].title);
    assert FirstFailure(c1) == if c1[0].passes then FirstFailure(c2) else Some(c1[0].title);
  }

  /** A phone number that passes the pattern check has at most one '+', and only in front. */
  lemma {:induction false} PlusOnlyInFront(s: string, i: nat)
    requires PhonePattern(s)
    requires 0 < i < |s|
    ensures s[i] != '+'
  {
    if s[0] == '+' {
      assert s[1..][i - 1] == s[i];
      assert PhoneChar(s[1..][i - 1]);
    } else {
      assert PhoneChar(s[i]);
    }
  }
}
