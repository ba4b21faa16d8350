/** Display-name masking (`maskNickname` in src/lib/utils.ts) and the rule the comment list
    uses to choose an author's display name.

    A JavaScript string is modelled as a `seq<char>` with one element per character that
    `length` and indexing count. */
module Masking {
  import opened Wrappers

  /** Shown instead of the author for an anonymous comment. */
  const AnonymousLabel: string := "익명"

  /** Used when a non-anonymous comment carries no (or an empty) profile nickname. */
  const UnknownNickname: string := "알 수 없음"

  /** `'*'.repeat(n)`. */
  function Stars(n: nat): (r: string)
    ensures |r| == n
    ensures forall i :: 0 <= i < n ==> r[i] == '*'
  {
    if n == 0 then "" else Stars(n - 1) + "*"
  }

  /** Keeps the first character and replaces every other one with `*`; strings of
      length 0 or 1 come back unchanged. */
  function MaskNickname(nickname: string): (r: string)
    ensures |r| == |nickname|
    ensures |nickname| <= 1 ==> r == nickname
    ensures |nickname| >= 1 ==> r[0] == nickname[0]
    ensures forall i :: 1 <= i < |r| ==> r[i] == '*'
  {
    if |nickname| == 0 then nickname
    else if |nickname| == 1 then nickname
    else [nickname[0]] + Stars(|nickname| - 1)
  }

  /** Masking a masked name changes nothing. */
  lemma MaskIdempotent(nickname: string)
    ensures MaskNickname(MaskNickname(nickname)) == MaskNickname(nickname)
  {
    var once := MaskNickname(nickname);
    var twice := MaskNickname(once);
    assert |twice| == |once|;
    forall i | 0 <= i < |once| ensures twice[i] == once[i] {
    }
  }

  /** The mask reveals exactly the length and the first character: two names mask to the
      same text iff they agree on both. */
  lemma MaskRevealsOnlyLengthAndFirst(s: string, t: string)
    ensures MaskNickname(s) == MaskNickname(t) <==> |s| == |t| && (|s| >= 1 ==> s[0] == t[0])
  {
    var ms, mt := MaskNickname(s), MaskNickname(t);
    if |s| == |t| && (|s| >= 1 ==> s[0] == t[0]) {
      forall i | 0 <= i < |ms| ensures ms[i] == mt[i] {
      }
      assert ms == mt;
    }
    if ms == mt {
      assert |s| == |ms| == |mt| == |t|;
      if |s| >= 1 {
        assert s[0] == ms[0] == mt[0] == t[0];
      }
    }
  }

  /** The examples of the function's documentation. */
  lemma MaskDocExamples()
    ensures MaskNickname("이한솔") == "이**"
    ensures MaskNickname("홍길동") == "홍**"
    ensures MaskNickname("김") == "김"
    ensures MaskNickname("") == ""
  {
    assert Stars(2) == "**" by {
      assert Stars(1) == "*";
    }
  }

  /** The author label of a comment: a fixed label when anonymous, otherwise the masked
      profile nickname, falling back to `UnknownNickname` when the nickname is missing or
      empty (JavaScript's `||`). */
  function CommentDisplayName(isAnonymous: bool, profileNickname: Option<string>): (r: string)
    ensures isAnonymous ==> r == AnonymousLabel
    ensures !isAnonymous ==> |r| >= 1 && forall i :: 1 <= i < |r| ==> r[i] == '*'
    ensures !isAnonymous && profileNickname.Some? && profileNickname.value != "" ==>
              |r| == |profileNickname.value| && r[0] == profileNickname.value[0]
    ensures !isAnonymous && (profileNickname.None? || profileNickname.value == "") ==>
              r == "알*****"
  {
    if isAnonymous then AnonymousLabel
    else
      var name := if profileNickname.Some? && profileNickname.value != "" then profileNickname.value
                  else UnknownNickname;
      MaskNickname(name)
  }
}
