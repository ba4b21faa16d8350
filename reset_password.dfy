/** The reset-password form of src/features/auth/components/reset-password-form.tsx: the
    strength meter (`getPasswordStrength`) and the validation schema
    (`resetPasswordSchema`). The component's React state and the submit handler are not
    part of this module. */
module ResetPassword {
  import opened Wrappers

  /** The character classes the source tests with regular expressions. */
  datatype CharClass = Digit | Lowercase | Uppercase | Special

  /** The characters of the class `[!@#$%^&*(),.?":{}|<>]`. */
  const SpecialChars: string := "!@#$%^&*(),.?\":{}|<>"

  predicate InClass(c: char, cls: CharClass) {
    match cls
    case Digit => '0' <= c <= '9'
    case Lowercase => 'a' <= c <= 'z'
    case Uppercase => 'A' <= c <= 'Z'
    case Special => c in SpecialChars
  }

  /** `/[...]/.test(s)`: some character of `s` is in the class. */
  predicate ContainsClass(s: string, cls: CharClass) {
    exists i :: 0 <= i < |s| && InClass(s[i], cls)
  }

  lemma ContainsClassAppend(p: string, q: string, cls: CharClass)
    requires ContainsClass(p, cls)
    ensures ContainsClass(p + q, cls)
  {
    var i :| 0 <= i < |p| && InClass(p[i], cls);
    assert (p + q)[i] == p[i];
  }

  // ---------------------------------------------------------------------------
  // Strength meter
  // ---------------------------------------------------------------------------

  /** The seven criteria, each worth one point. */
  datatype Criterion =
    | MinLength6 | MinLength8 | MinLength12
    | HasDigit | HasLowercase | HasUppercase | HasSpecial

  predicate Satisfies(password: string, c: Criterion) {
    match c
    case MinLength6 => |password| >= 6
    case MinLength8 => |password| >= 8
    case MinLength12 => |password| >= 12
    case HasDigit => ContainsClass(password, Digit)
    case HasLowercase => ContainsClass(password, Lowercase)
    case HasUppercase => ContainsClass(password, Uppercase)
    case HasSpecial => ContainsClass(password, Special)
  }

  /** One point for a criterion that holds. */
  function Point(holds: bool): nat {
    if holds then 1 else 0
  }

  /** The raw score: how many of the seven criteria the password meets. */
  function Score(password: string): (r: nat)
    ensures r <= 7
  {
    Point(Satisfies(password, MinLength6)) + Point(Satisfies(password, MinLength8))
    + Point(Satisfies(password, MinLength12)) + Point(Satisfies(password, HasDigit))
    + Point(Satisfies(password, HasLowercase)) + Point(Satisfies(password, HasUppercase))
    + Point(Satisfies(password, HasSpecial))
  }

  /** The meter's output: a level (0 to 4), a caption (the label text) and a colour class. */
  datatype Strength = Strength(level: nat, caption: string, color: string)

  const NoStrength: Strength := Strength(0, "", "")

  /** Maps a raw score of a non-empty password to one of the four bands. */
  function Band(score: int): (r: Strength)
    ensures 1 <= r.level <= 4
    ensures score <= 2 <==> r.level == 1
    ensures score >= 6 <==> r.level == 4
  {
    if score <= 2 then Strength(1, "약함", "bg-red-500")
    else if score <= 4 then Strength(2, "보통", "bg-yellow-500")
    else if score <= 5 then Strength(3, "강함", "bg-green-500")
    else Strength(4, "매우 강함", "bg-green-600")
  }

  /** What the meter shows for a password: nothing for the empty one, else the band of
      its score. */
  function StrengthOf(password: string): (r: Strength)
    ensures password == "" <==> r.level == 0
    ensures password == "" ==> r == NoStrength
  {
    if password == "" then NoStrength else Band(Score(password))
  }

  /** `getPasswordStrength`: the score is built one criterion at a time on a local
      counter, then mapped to its band. */
  method GetPasswordStrength(password: string) returns (r: Strength)
    ensures r == StrengthOf(password)
    ensures password != "" ==> 1 <= r.level <= 4
  {
    if password == "" {
      return NoStrength;
    }
    var strength := 0;
    if |password| >= 6 { strength := strength + 1; }
    if |password| >= 8 { strength := strength + 1; }
    if |password| >= 12 { strength := strength + 1; }
    if ContainsClass(password, Digit) { strength := strength + 1; }
    if ContainsClass(password, Lowercase) { strength := strength + 1; }
    if ContainsClass(password, Uppercase) { strength := strength + 1; }
    if ContainsClass(password, Special) { strength := strength + 1; }

    if strength <= 2 {
      r := Strength(1, "약함", "bg-red-500");
    } else if strength <= 4 {
      r := Strength(2, "보통", "bg-yellow-500");
    } else if strength <= 5 {
      r := Strength(3, "강함", "bg-green-500");
    } else {
      r := Strength(4, "매우 강함", "bg-green-600");
    }
  }

  /** A non-empty password always gets one of the four bands, and the band follows the
      score thresholds 2, 4 and 5. */
  lemma StrengthBands(password: string)
    requires password != ""
    ensures 1 <= StrengthOf(password).level <= 4
    ensures var s := Score(password);
            StrengthOf(password) ==
              if s <= 2 then Strength(1, "약함", "bg-red-500")
              else if s <= 4 then Strength(2, "보통", "bg-yellow-500")
              else if s == 5 then Strength(3, "강함", "bg-green-500")
              else Strength(4, "매우 강함", "bg-green-600")
  {
  }

  /** Every criterion is monotone under appending, so appending characters to a
      non-empty password never lowers its level. */
  lemma StrengthMonotone(p: string, q: string)
    requires p != ""
    ensures StrengthOf(p + q).level >= StrengthOf(p).level
  {
    forall c ensures Satisfies(p, c) ==> Satisfies(p + q, c) {
      match c
      case HasDigit => if ContainsClass(p, Digit) { ContainsClassAppend(p, q, Digit); }
      case HasLowercase => if ContainsClass(p, Lowercase) { ContainsClassAppend(p, q, Lowercase); }
      case HasUppercase => if ContainsClass(p, Uppercase) { ContainsClassAppend(p, q, Uppercase); }
      case HasSpecial => if ContainsClass(p, Special) { ContainsClassAppend(p, q, Special); }
      case _ =>
    }
  }

  // ---------------------------------------------------------------------------
  // Validation schema
  // ---------------------------------------------------------------------------

  datatype Field = Password | ConfirmPassword

  /** A validation issue: the field it is shown under and its message. */
  datatype Issue = Issue(path: Field, message: string)

  const TooShortMessage: string := "비밀번호는 최소 6자 이상이어야 합니다."
  const NoDigitMessage: string := "비밀번호에 숫자를 포함해야 합니다."
  const NoSpecialMessage: string := "비밀번호에 특수문자를 포함해야 합니다."
  const ConfirmEmptyMessage: string := "비밀번호 확인을 입력해주세요."
  const MismatchMessage: string := "비밀번호가 일치하지 않습니다."

  /** What the schema accepts. */
  predicate ResetPasswordAccepts(password: string, confirmPassword: string) {
    && |password| >= 6
    && ContainsClass(password, Digit)
    && ContainsClass(password, Special)
    && |confirmPassword| >= 1
    && password == confirmPassword
  }

  /** The issues the schema reports, in order: the password checks, the confirmation
      check, then the object-level equality refinement, which runs even when a field
      check failed (field checks are not fatal). */
  function ResetPasswordIssues(password: string, confirmPassword: string): (r: seq<Issue>)
    ensures r == [] <==> ResetPasswordAccepts(password, confirmPassword)
    ensures password != confirmPassword ==> Issue(ConfirmPassword, MismatchMessage) in r
    ensures forall k :: 0 <= k < |r| && r[k].path == Password ==>
              r[k].message in {TooShortMessage, NoDigitMessage, NoSpecialMessage}
  {
    (if |password| < 6 then [Issue(Password, TooShortMessage)] else [])
    + (if !ContainsClass(password, Digit) then [Issue(Password, NoDigitMessage)] else [])
    + (if !ContainsClass(password, Special) then [Issue(Password, NoSpecialMessage)] else [])
    + (if |confirmPassword| < 1 then [Issue(ConfirmPassword, ConfirmEmptyMessage)] else [])
    + (if password != confirmPassword then [Issue(ConfirmPassword, MismatchMessage)] else [])
  }

  /** The message shown under a field: the first issue reported for it. */
  function FirstError(issues: seq<Issue>, field: Field): (r: Option<string>)
    ensures r.None? <==> forall k :: 0 <= k < |issues| ==> issues[k].path != field
    ensures r.Some? ==> exists k :: 0 <= k < |issues| && issues[k] == Issue(field, r.value)
                                    && forall j :: 0 <= j < k ==> issues[j].path != field
  {
    if issues == [] then None
    else if issues[0].path == field then Some(issues[0].message)
    else
      var rest := FirstError(issues[1..], field);
      assert forall k :: 1 <= k < |issues| ==> issues[k] == issues[1..][k - 1];
      assert rest.Some? ==> exists k :: 1 <= k < |issues| && issues[k] == Issue(field, rest.value)
                                        && forall j :: 0 <= j < k ==> issues[j].path != field by {
        if rest.Some? {
          var k :| 0 <= k < |issues[1..]| && issues[1..][k] == Issue(field, rest.value)
                   && forall j :: 0 <= j < k ==> issues[1..][j].path != field;
          assert issues[k + 1] == Issue(field, rest.value);
          assert forall j :: 1 <= j < k + 1 ==> issues[j] == issues[1..][j - 1];
        }
      }
      rest
  }

  /** A well-formed password whose confirmation differs shows only the mismatch message,
      under the confirmation field. */
  lemma MismatchShownUnderConfirmation(password: string, confirmPassword: string)
    requires |password| >= 6 && ContainsClass(password, Digit) && ContainsClass(password, Special)
    requires confirmPassword != "" && password != confirmPassword
    ensures ResetPasswordIssues(password, confirmPassword) == [Issue(ConfirmPassword, MismatchMessage)]
    ensures FirstError(ResetPasswordIssues(password, confirmPassword), Password).None?
    ensures FirstError(ResetPasswordIssues(password, confirmPassword), ConfirmPassword) == Some(MismatchMessage)
  {
  }

  /** A password that breaks several rules shows the first rule it breaks: too short
      before no digit before no special character. */
  lemma FirstBrokenRuleIsShown(password: string, confirmPassword: string)
    ensures |password| < 6 ==>
              FirstError(ResetPasswordIssues(password, confirmPassword), Password) == Some(TooShortMessage)
    ensures |password| >= 6 && !ContainsClass(password, Digit) ==>
              FirstError(ResetPasswordIssues(password, confirmPassword), Password) == Some(NoDigitMessage)
    ensures confirmPassword == "" && password != "" ==>
              FirstError(ResetPasswordIssues(password, confirmPassword), ConfirmPassword) == Some(ConfirmEmptyMessage)
  {
    if confirmPassword == "" && password != "" {
      var passwordIssues :=
        (if |password| < 6 then [Issue(Password, TooShortMessage)] else [])
        + (if !ContainsClass(password, Digit) then [Issue(Password, NoDigitMessage)] else [])
        + (if !ContainsClass(password, Special) then [Issue(Password, NoSpecialMessage)] else []);
      var confirmIssues := [Issue(ConfirmPassword, ConfirmEmptyMessage), Issue(ConfirmPassword, MismatchMessage)];
      assert ResetPasswordIssues(password, confirmPassword) == passwordIssues + confirmIssues;
      FirstErrorSkips(passwordIssues, confirmIssues, ConfirmPassword);
    }
  }

  /** Issues under other fields in front do not change what a field shows. */
  lemma {:induction false} FirstErrorSkips(a: seq<Issue>, b: seq<Issue>, field: Field)
    requires forall k :: 0 <= k < |a| ==> a[k].path != field
    ensures FirstError(a + b, field) == FirstError(b, field)
    decreases |a|
  {
    if a == [] {
      assert a + b == b;
    } else {
      assert (a + b)[1..] == a[1..] + b;
      FirstErrorSkips(a[1..], b, field);
    }
  }

  /** A password the schema accepts is at least "보통" on the meter: it meets the
      length-6, digit and special-character criteria, so its score is at least 3. */
  lemma AcceptedPasswordIsAtLeastFair(password: string, confirmPassword: string)
    requires ResetPasswordAccepts(password, confirmPassword)
    ensures StrengthOf(password).level >= 2
  {
  }
}
