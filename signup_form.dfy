/** The sign-up form of src/features/auth/components/signup-form.tsx: the validation
    schema (`signUpSchema`) and the online-platform checkbox toggle
    (`handlePlatformChange`), which keeps two copies of the selection in step. */
module SignUpForm {
  import opened Wrappers

  datatype Field =
    | Email | Password | PasswordConfirm | Nickname
    | SellerExperience | OnlinePlatforms | Expectations

  /** A validation issue: the field it is shown under and its message. */
  datatype Issue = Issue(path: Field, message: string)

  datatype SignUpFormData = SignUpFormData(
    email: string,
    password: string,
    passwordConfirm: string,
    nickname: string,
    sellerExperience: string,
    onlinePlatforms: seq<string>,
    expectations: string)

  const EmailMessage: string := "올바른 이메일 주소를 입력해주세요."
  const PasswordTooShortMessage: string := "비밀번호는 최소 6자 이상이어야 합니다."
  const PasswordTooLongMessage: string := "비밀번호는 최대 100자까지 가능합니다."
  const NicknameTooShortMessage: string := "닉네임은 최소 2자 이상이어야 합니다."
  const NicknameTooLongMessage: string := "닉네임은 최대 20자까지 가능합니다."
  const ExperienceMessage: string := "온라인 셀러 경력을 입력해주세요."
  const PlatformsMessage: string := "최소 하나의 온라인 판매처를 선택해주세요."
  const ExpectationsTooShortMessage: string := "기대사항은 최소 5자 이상 입력해주세요."
  const ExpectationsTooLongMessage: string := "기대사항은 최대 500자까지 가능합니다."
  const MismatchMessage: string := "비밀번호가 일치하지 않습니다."

  /** What the schema accepts. The e-mail syntax check belongs to the validation library
      and is a parameter here. */
  predicate SignUpAccepts(d: SignUpFormData, isEmail: string -> bool) {
    && isEmail(d.email)
    && 6 <= |d.password| <= 100
    && 2 <= |d.nickname| <= 20
    && |d.sellerExperience| >= 1
    && |d.onlinePlatforms| >= 1
    && 5 <= |d.expectations| <= 500
    && d.password == d.passwordConfirm
  }

  /** The issue a failed check reports, or none. */
  function IssueIf(fails: bool, field: Field, message: string): (r: seq<Issue>)
    ensures |r| == if fails then 1 else 0
    ensures forall k :: 0 <= k < |r| ==> r[k] == Issue(field, message)
  {
    if fails then [Issue(field, message)] else []
  }

  /** No issue of `s` is reported under `field`. */
  predicate NoneUnder(s: seq<Issue>, field: Field) {
    forall k :: 0 <= k < |s| ==> s[k].path != field
  }

  lemma NoneUnderAppend(a: seq<Issue>, b: seq<Issue>, field: Field)
    requires NoneUnder(a, field) && NoneUnder(b, field)
    ensures NoneUnder(a + b, field)
  {
    forall k | 0 <= k < |a + b| ensures (a + b)[k].path != field {
      if k >= |a| {
        assert (a + b)[k] == b[k - |a|];
      }
    }
  }

  /** The issues of the field checks, in field order; every check of a field runs. */
  function FieldIssues(d: SignUpFormData, isEmail: string -> bool): (r: seq<Issue>)
    ensures r == [] <==>
              isEmail(d.email) && 6 <= |d.password| <= 100 && 2 <= |d.nickname| <= 20
              && |d.sellerExperience| >= 1 && |d.onlinePlatforms| >= 1 && 5 <= |d.expectations| <= 500
    ensures forall k :: 0 <= k < |r| ==> r[k].path != PasswordConfirm
  {
    var email := IssueIf(!isEmail(d.email), Email, EmailMessage);
    var password := IssueIf(|d.password| < 6, Password, PasswordTooShortMessage)
                    + IssueIf(|d.password| > 100, Password, PasswordTooLongMessage);
    var nickname := IssueIf(|d.nickname| < 2, Nickname, NicknameTooShortMessage)
                    + IssueIf(|d.nickname| > 20, Nickname, NicknameTooLongMessage);
    var experience := IssueIf(|d.sellerExperience| < 1, SellerExperience, ExperienceMessage);
    var platforms := IssueIf(|d.onlinePlatforms| < 1, OnlinePlatforms, PlatformsMessage);
    var expectations := IssueIf(|d.expectations| < 5, Expectations, ExpectationsTooShortMessage)
                        + IssueIf(|d.expectations| > 500, Expectations, ExpectationsTooLongMessage);
    var first := email + password + nickname;
    var second := experience + platforms + expectations;
    assert |first| == |email| + |password| + |nickname|;
    assert |second| == |experience| + |platforms| + |expectations|;
    assert NoneUnder(first, PasswordConfirm) by {
      NoneUnderAppend(email, password, PasswordConfirm);
      NoneUnderAppend(email + password, nickname, PasswordConfirm);
    }
    assert NoneUnder(second, PasswordConfirm) by {
      NoneUnderAppend(experience, platforms, PasswordConfirm);
      NoneUnderAppend(experience + platforms, expectations, PasswordConfirm);
    }
    NoneUnderAppend(first, second, PasswordConfirm);
    first + second
  }

  /** All issues the schema reports: the field checks, then the object-level equality
      refinement, which runs even when a field check failed (field checks are not
      fatal) and reports under the confirmation field. */
  function SignUpIssues(d: SignUpFormData, isEmail: string -> bool): (r: seq<Issue>)
    ensures r == [] <==> SignUpAccepts(d, isEmail)
    ensures d.password != d.passwordConfirm <==> Issue(PasswordConfirm, MismatchMessage) in r
    ensures forall k :: 0 <= k < |r| && r[k].path == PasswordConfirm ==> r[k].message == MismatchMessage
  {
    var fields := FieldIssues(d, isEmail);
    var refinement := IssueIf(d.password != d.passwordConfirm, PasswordConfirm, MismatchMessage);
    var r := fields + refinement;
    assert forall k :: |fields| <= k < |r| ==> r[k] == refinement[k - |fields|];
    assert d.password != d.passwordConfirm ==> r[|fields|] == Issue(PasswordConfirm, MismatchMessage);
    r
  }

  // ---------------------------------------------------------------------------
  // Platform checkboxes
  // ---------------------------------------------------------------------------

  predicate NoDuplicates(s: seq<string>) {
    forall i, j :: 0 <= i < j < |s| ==> s[i] != s[j]
  }

  /** `s.filter((p) => p !== x)`. */
  function RemoveAll(s: seq<string>, x: string): (r: seq<string>)
    ensures x !in r
    ensures multiset(r) == multiset(s)[x := 0]
    ensures x !in s ==> r == s
  {
    if s == [] then []
    else
      assert s == [s[0]] + s[1..];
      if s[0] == x then RemoveAll(s[1..], x)
      else [s[0]] + RemoveAll(s[1..], x)
  }

  /** The tail of a duplicate-free list is duplicate-free and lacks the head. */
  lemma NoDuplicatesTail(s: seq<string>)
    requires s != [] && NoDuplicates(s)
    ensures NoDuplicates(s[1..]) && s[0] !in s[1..]
  {
    forall i, j | 0 <= i < j < |s[1..]| ensures s[1..][i] != s[1..][j] {
      assert s[1..][i] == s[i + 1] && s[1..][j] == s[j + 1];
    }
    forall k | 0 <= k < |s[1..]| ensures s[1..][k] != s[0] {
      assert s[1..][k] == s[k + 1];
    }
  }

  /** A new head in front of a duplicate-free list keeps it duplicate-free. */
  lemma NoDuplicatesCons(h: string, rest: seq<string>)
    requires NoDuplicates(rest) && h !in rest
    ensures NoDuplicates([h] + rest)
  {
    var r := [h] + rest;
    forall i, j | 0 <= i < j < |r| ensures r[i] != r[j] {
      assert r[j] == rest[j - 1] && r[j] in rest;
      if i > 0 {
        assert r[i] == rest[i - 1];
      }
    }
  }

  lemma {:induction false} RemoveAllKeepsNoDuplicates(s: seq<string>, x: string)
    requires NoDuplicates(s)
    ensures NoDuplicates(RemoveAll(s, x))
  {
    if s != [] {
      NoDuplicatesTail(s);
      RemoveAllKeepsNoDuplicates(s[1..], x);
      if s[0] != x {
        var h, rest := s[0], RemoveAll(s[1..], x);
        assert h !in rest by {
          assert multiset(rest)[h] == multiset(s[1..])[h] == 0;
          assert h in rest ==> h in multiset(rest);
        }
        NoDuplicatesCons(h, rest);
      }
    }
  }

  lemma {:induction false} RemoveAllOfAppended(s: seq<string>, x: string)
    requires x !in s
    ensures RemoveAll(s + [x], x) == s
  {
    if s == [] {
      assert [x][1..] == [];
    } else {
      assert (s + [x])[1..] == s[1..] + [x];
      RemoveAllOfAppended(s[1..], x);
      assert s == [s[0]] + s[1..];
    }
  }

  /** Filtering a concatenation filters each part and keeps them in order; with
      `RemoveAll([y], x) == (if y == x then [] else [y])` this pins the result down:
      the platforms kept stay in their original order. */
  lemma {:induction false} RemoveAllAppend(a: seq<string>, b: seq<string>, x: string)
    ensures RemoveAll(a + b, x) == RemoveAll(a, x) + RemoveAll(b, x)
    decreases |a|
  {
    if a == [] {
      assert a + b == b;
    } else {
      assert (a + b)[1..] == a[1..] + b;
      RemoveAllAppend(a[1..], b, x);
    }
  }

  /** In a duplicate-free list, removing the element at `i` leaves the elements before
      and after it, in order. */
  lemma RemoveAllAt(s: seq<string>, i: int)
    requires 0 <= i < |s| && NoDuplicates(s)
    ensures RemoveAll(s, s[i]) == s[..i] + s[i + 1..]
  {
    var x := s[i];
    assert s == s[..i] + [x] + s[i + 1..];
    assert x !in s[..i] && x !in s[i + 1..] by {
      forall k | 0 <= k < |s| && k != i ensures s[k] != x { }
    }
    RemoveAllAppend(s[..i] + [x], s[i + 1..], x);
    RemoveAllAppend(s[..i], [x], x);
    assert RemoveAll([x], x) == [] by {
      assert [x][1..] == [];
    }
    assert s[..i] + [] == s[..i];
  }

  /** A platform of a duplicate-free list is removed where it stands. */
  lemma RemoveAllInPlace(s: seq<string>, x: string)
    ensures x in s && NoDuplicates(s) ==>
              exists i :: 0 <= i < |s| && s[i] == x && RemoveAll(s, x) == s[..i] + s[i + 1..]
  {
    if x in s && NoDuplicates(s) {
      var i :| 0 <= i < |s| && s[i] == x;
      RemoveAllAt(s, i);
    }
  }

  /** `handlePlatformChange`'s new list: a selected platform is removed (every
      occurrence), any other is appended at the end. */
  function TogglePlatform(selected: seq<string>, platform: string): (r: seq<string>)
    ensures platform !in selected ==> r == selected + [platform]
    ensures platform in selected ==> platform !in r && multiset(r) == multiset(selected)[platform := 0]
    ensures platform in selected && NoDuplicates(selected) ==>
              exists i :: 0 <= i < |selected| && selected[i] == platform && r == selected[..i] + selected[i + 1..]
  {
    if platform in selected then
      RemoveAllInPlace(selected, platform);
      RemoveAll(selected, platform)
    else selected + [platform]
  }

  /** Toggling keeps a duplicate-free selection duplicate-free. */
  lemma ToggleKeepsNoDuplicates(selected: seq<string>, platform: string)
    requires NoDuplicates(selected)
    ensures NoDuplicates(TogglePlatform(selected, platform))
  {
    if platform in selected {
      RemoveAllKeepsNoDuplicates(selected, platform);
    }
  }

  /** Checking then unchecking a platform that was not selected restores the list. */
  lemma ToggleTwiceFromAbsentRestores(selected: seq<string>, platform: string)
    requires platform !in selected
    ensures TogglePlatform(TogglePlatform(selected, platform), platform) == selected
  {
    RemoveAllOfAppended(selected, platform);
  }

  /** A duplicate-free list holds each of its platforms exactly once. */
  lemma {:induction false} NoDuplicatesCountsOnce(s: seq<string>, x: string)
    requires NoDuplicates(s) && x in s
    ensures multiset(s)[x] == 1
    decreases |s|
  {
    NoDuplicatesTail(s);
    assert s == [s[0]] + s[1..];
    assert multiset(s) == multiset{s[0]} + multiset(s[1..]);
    if s[0] == x {
      assert multiset(s[1..])[x] == 0;
    } else {
      assert x in s[1..];
      NoDuplicatesCountsOnce(s[1..], x);
    }
  }

  /** Unchecking then checking a selected platform of a duplicate-free list keeps the
      same platforms but moves that one to the end. */
  lemma ToggleTwiceFromPresentMovesToEnd(selected: seq<string>, platform: string)
    requires platform in selected && NoDuplicates(selected)
    ensures TogglePlatform(TogglePlatform(selected, platform), platform)
            == RemoveAll(selected, platform) + [platform]
    ensures multiset(TogglePlatform(TogglePlatform(selected, platform), platform)) == multiset(selected)
  {
    var removed := RemoveAll(selected, platform);
    assert TogglePlatform(selected, platform) == removed;
    assert platform !in removed;
    NoDuplicatesCountsOnce(selected, platform);
    assert multiset(removed + [platform]) == multiset(removed) + multiset{platform};
  }

  /** So toggling twice does not restore every list: the order can change. */
  lemma ToggleTwiceCanReorder()
    ensures TogglePlatform(TogglePlatform(["쿠팡", "11번가"], "쿠팡"), "쿠팡") == ["11번가", "쿠팡"]
  {
    assert "쿠팡" != "11번가";
    assert RemoveAll(["쿠팡", "11번가"], "쿠팡") == ["11번가"] by {
      assert ["쿠팡", "11번가"][1..] == ["11번가"];
      assert ["11번가"][1..] == [];
    }
  }

  /** The component's two copies of the selection: the React state behind the checkboxes
      and the form field that is validated and submitted. */
  class SignUpFormState {
    var selectedPlatforms: seq<string>
    var onlinePlatforms: seq<string>

    /** The two copies agree, and no platform is selected twice. */
    ghost predicate Valid()
      reads this
    {
      selectedPlatforms == onlinePlatforms && NoDuplicates(selectedPlatforms)
    }

    /** Both start empty (`useState([])`, `defaultValues.online_platforms = []`). */
    constructor ()
      ensures Valid() && selectedPlatforms == [] && onlinePlatforms == []
    {
      selectedPlatforms := [];
      onlinePlatforms := [];
    }

    /** `handlePlatformChange`: computes the toggled list and writes it to both copies. */
    method HandlePlatformChange(platform: string)
      requires Valid()
      modifies this
      ensures Valid() && NoDuplicates(selectedPlatforms) && onlinePlatforms == selectedPlatforms
      ensures selectedPlatforms == TogglePlatform(old(selectedPlatforms), platform)
    {
      var newPlatforms := TogglePlatform(selectedPlatforms, platform);
      ToggleKeepsNoDuplicates(selectedPlatforms, platform);
      selectedPlatforms := newPlatforms;
      onlinePlatforms := newPlatforms;
    }
  }
}
