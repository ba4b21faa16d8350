/** The keyword filter of `getPosts` (src/features/posts/api.ts) and how the PostgREST
    server reads it.

    The filter is sent as the text of an `or=(...)` parameter: conditions separated by
    commas, each `column.operator.value`. The server splits the text at every comma that
    is not inside double quotes (inside quotes a backslash escapes the next character),
    and a value written in double quotes is read without its quotes and escapes.

    As written, the keyword is pasted into the text verbatim, so a keyword holding a
    comma or a double quote changes the number of conditions (`AsWrittenSearchText`,
    `CommaKeywordBreaksSearch`). The corrected text quotes and escapes the keyword
    (`SearchFilterText`) and always reads back as exactly the two intended conditions
    (`SearchFilterReadsBack`). */
module SearchFilter {
  import opened Wrappers

  // ---------------------------------------------------------------------------
  // How the server splits the condition list
  // ---------------------------------------------------------------------------

  /** Where the splitter is: inside double quotes or not, and whether the previous
      character was an escaping backslash. */
  datatype Lexer = Lexer(inQuote: bool, escaped: bool)

  const Outside: Lexer := Lexer(false, false)
  const Inside: Lexer := Lexer(true, false)

  function Advance(l: Lexer, c: char): Lexer {
    if l.escaped then Lexer(l.inQuote, false)
    else if l.inQuote && c == '\\' then Lexer(true, true)
    else if c == '"' then Lexer(!l.inQuote, false)
    else l
  }

  function LexRun(l: Lexer, t: string): Lexer
    decreases |t|
  {
    if t == [] then l else LexRun(Advance(l, t[0]), t[1..])
  }

  /** Reading `t` from `l` meets no comma outside quotes. */
  predicate Quiet(l: Lexer, t: string)
    decreases |t|
  {
    t == [] || ((t[0] != ',' || l.inQuote) && Quiet(Advance(l, t[0]), t[1..]))
  }

  /** Splits at commas outside quotes; `current` is the condition read so far. */
  function SplitAt(s: string, l: Lexer, current: string): (r: seq<string>)
    ensures |r| >= 1
    decreases |s|
  {
    if s == [] then [current]
    else if s[0] == ',' && !l.inQuote then [current] + SplitAt(s[1..], l, "")
    else SplitAt(s[1..], Advance(l, s[0]), current + [s[0]])
  }

  function SplitConditions(s: string): seq<string> {
    SplitAt(s, Outside, "")
  }

  lemma {:induction false} SplitQuiet(t: string, rest: string, l: Lexer, current: string)
    requires Quiet(l, t)
    ensures SplitAt(t + rest, l, current) == SplitAt(rest, LexRun(l, t), current + t)
    decreases |t|
  {
    if t == [] {
      assert t + rest == rest;
      assert current + t == current;
    } else {
      assert (t + rest)[0] == t[0];
      assert (t + rest)[1..] == t[1..] + rest;
      assert current + [t[0]] + t[1..] == current + t;
      SplitQuiet(t[1..], rest, Advance(l, t[0]), current + [t[0]]);
    }
  }

  lemma {:induction false} QuietAppend(l: Lexer, a: string, b: string)
    requires Quiet(l, a) && Quiet(LexRun(l, a), b)
    ensures Quiet(l, a + b) && LexRun(l, a + b) == LexRun(LexRun(l, a), b)
    decreases |a|
  {
    if a == [] {
      assert a + b == b;
    } else {
      assert (a + b)[0] == a[0];
      assert (a + b)[1..] == a[1..] + b;
      QuietAppend(Advance(l, a[0]), a[1..], b);
    }
  }

  /** No comma, double quote or backslash. */
  predicate Plain(t: string) {
    forall i :: 0 <= i < |t| ==> t[i] != ',' && t[i] != '"' && t[i] != '\\'
  }

  lemma {:induction false} PlainQuiet(l: Lexer, t: string)
    requires Plain(t) && !l.escaped
    ensures Quiet(l, t) && LexRun(l, t) == l
    decreases |t|
  {
    if t != [] {
      assert Plain(t[1..]) by {
        forall i | 0 <= i < |t[1..]| ensures t[1..][i] != ',' && t[1..][i] != '"' && t[1..][i] != '\\' {
          assert t[1..][i] == t[i + 1];
        }
      }
      PlainQuiet(l, t[1..]);
    }
  }

  /** A condition the splitter reads whole and leaves outside quotes. */
  predicate Segment(t: string) {
    Quiet(Outside, t) && LexRun(Outside, t) == Outside
  }

  /** Conditions joined with commas. */
  function Join(parts: seq<string>): string
    requires |parts| >= 1
    decreases |parts|
  {
    if |parts| == 1 then parts[0] else parts[0] + "," + Join(parts[1..])
  }

  /** Joining segments and splitting the result gives the segments back. */
  lemma {:induction false} SplitJoin(parts: seq<string>)
    requires |parts| >= 1
    requires forall k :: 0 <= k < |parts| ==> Segment(parts[k])
    ensures SplitConditions(Join(parts)) == parts
    decreases |parts|
  {
    if |parts| == 1 {
      SplitQuiet(parts[0], "", Outside, "");
      assert parts[0] + "" == parts[0];
      assert "" + parts[0] == parts[0];
    } else {
      var rest := "," + Join(parts[1..]);
      assert Join(parts) == parts[0] + rest;
      SplitQuiet(parts[0], rest, Outside, "");
      assert "" + parts[0] == parts[0];
      assert rest[0] == ',' && rest[1..] == Join(parts[1..]);
      SplitJoin(parts[1..]);
    }
  }

  // ---------------------------------------------------------------------------
  // How the server reads one condition
  // ---------------------------------------------------------------------------

  datatype Condition = Condition(column: string, operator: string, value: string)

  /** Splits at the first `sep`. */
  function SplitOnce(s: string, sep: char): Option<(string, string)>
    decreases |s|
  {
    if s == [] then None
    else if s[0] == sep then Some(([], s[1..]))
    else match SplitOnce(s[1..], sep)
      case None => None
      case Some(p) => Some(([s[0]] + p.0, p.1))
  }

  lemma {:induction false} SplitOnceAt(a: string, b: string, sep: char)
    requires sep !in a
    ensures SplitOnce(a + [sep] + b, sep) == Some((a, b))
    decreases |a|
  {
    if a == [] {
      assert a + [sep] + b == [sep] + b;
    } else {
      assert (a + [sep] + b)[1..] == a[1..] + [sep] + b;
      SplitOnceAt(a[1..], b, sep);
      assert [a[0]] + a[1..] == a;
    }
  }

  /** Reads `\x` as `x`. */
  function Unescape(s: string): string
    decreases |s|
  {
    if s == [] then []
    else if s[0] == '\\' && |s| >= 2 then [s[1]] + Unescape(s[2..])
    else [s[0]] + Unescape(s[1..])
  }

  /** A quoted value loses its quotes and escapes; any other value is read as it is. */
  function Dequote(raw: string): string {
    if |raw| >= 2 && raw[0] == '"' && raw[|raw| - 1] == '"' then Unescape(raw[1..|raw| - 1]) else raw
  }

  function ParseCondition(text: string): Option<Condition> {
    match SplitOnce(text, '.')
    case None => None
    case Some(p) =>
      match SplitOnce(p.1, '.')
      case None => None
      case Some(q) => Some(Condition(p.0, q.0, Dequote(q.1)))
  }

  function ParseAll(parts: seq<string>): (r: seq<Option<Condition>>)
    ensures |r| == |parts|
    ensures forall k :: 0 <= k < |parts| ==> r[k] == ParseCondition(parts[k])
  {
    if parts == [] then [] else [ParseCondition(parts[0])] + ParseAll(parts[1..])
  }

  /** The conditions the server reads from an `or` filter text. */
  function ReadOrFilter(text: string): seq<Option<Condition>> {
    ParseAll(SplitConditions(text))
  }

  // ---------------------------------------------------------------------------
  // The keyword filter, as written and corrected
  // ---------------------------------------------------------------------------

  /** What the search means: the keyword as a case-insensitive substring of the title
      or of the content. */
  function IntendedConditions(keyword: string): seq<Option<Condition>> {
    [Some(Condition("title", "ilike", "%" + keyword + "%")),
     Some(Condition("content", "ilike", "%" + keyword + "%"))]
  }

  /** The filter text as the source writes it: the keyword pasted in verbatim. */
  function AsWrittenSearchText(keyword: string): string {
    "title.ilike.%" + keyword + "%,content.ilike.%" + keyword + "%"
  }

  lemma PlainConcat(a: string, b: string)
    requires Plain(a) && Plain(b)
    ensures Plain(a + b)
  {
    forall i | 0 <= i < |a + b| ensures (a + b)[i] != ',' && (a + b)[i] != '"' && (a + b)[i] != '\\' {
      if i >= |a| {
        assert (a + b)[i] == b[i - |a|];
      }
    }
  }

  lemma PlainSegment(t: string)
    requires Plain(t)
    ensures Segment(t)
  {
    PlainQuiet(Outside, t);
  }

  lemma ReadCondition(column: string, operator: string, raw: string)
    requires '.' !in column && '.' !in operator
    ensures ParseCondition(column + "." + operator + "." + raw) == Some(Condition(column, operator, Dequote(raw)))
  {
    assert column + "." + operator + "." + raw == column + ['.'] + (operator + ['.'] + raw);
    SplitOnceAt(column, operator + ['.'] + raw, '.');
    SplitOnceAt(operator, raw, '.');
  }

  /** Two segments joined by a comma are read as two conditions. */
  lemma ReadTwo(t: string, c: string)
    requires Segment(t) && Segment(c)
    ensures ReadOrFilter(t + "," + c) == [ParseCondition(t), ParseCondition(c)]
  {
    assert Join([t, c]) == t + "," + c by {
      assert [t, c][1..] == [c];
    }
    SplitJoin([t, c]);
  }

  /** `column.ilike.value`. */
  function IlikeText(column: string, value: string): string {
    column + ".ilike." + value
  }

  lemma ReadIlike(column: string, value: string)
    requires '.' !in column
    ensures ParseCondition(IlikeText(column, value)) == Some(Condition(column, "ilike", Dequote(value)))
  {
    assert IlikeText(column, value) == column + "." + "ilike" + "." + value;
    ReadCondition(column, "ilike", value);
  }

  /** Two `ilike` conditions on columns without dots, each a segment, are read back
      with their values dequoted. */
  lemma ReadIlikePair(column1: string, value1: string, column2: string, value2: string)
    requires '.' !in column1 && '.' !in column2
    requires Segment(IlikeText(column1, value1)) && Segment(IlikeText(column2, value2))
    ensures ReadOrFilter(IlikeText(column1, value1) + "," + IlikeText(column2, value2))
            == [Some(Condition(column1, "ilike", Dequote(value1))), Some(Condition(column2, "ilike", Dequote(value2)))]
  {
    ReadTwo(IlikeText(column1, value1), IlikeText(column2, value2));
    ReadIlike(column1, value1);
    ReadIlike(column2, value2);
  }

  lemma PlainIlike(column: string, value: string)
    requires Plain(column) && Plain(value)
    ensures Segment(IlikeText(column, value))
  {
    assert Plain(".ilike.");
    PlainConcat(column, ".ilike.");
    PlainConcat(column + ".ilike.", value);
    PlainSegment(IlikeText(column, value));
  }

  lemma AsWrittenShape(keyword: string)
    ensures AsWrittenSearchText(keyword)
            == IlikeText("title", "%" + keyword + "%") + "," + IlikeText("content", "%" + keyword + "%")
  {
  }

  /** As written, the filter reads back as intended only when the keyword holds no
      comma, double quote or backslash. */
  lemma AsWrittenReadsBackForPlainKeywords(keyword: string)
    requires Plain(keyword)
    ensures ReadOrFilter(AsWrittenSearchText(keyword)) == IntendedConditions(keyword)
  {
    var v := "%" + keyword + "%";
    assert Plain(v) by {
      assert Plain("%");
      PlainConcat("%", keyword);
      PlainConcat("%" + keyword, "%");
    }
    assert Plain("title") && Plain("content");
    PlainIlike("title", v);
    PlainIlike("content", v);
    AsWrittenShape(keyword);
    ReadIlikePair("title", v, "content", v);
    assert Dequote(v) == v by {
      assert v[0] == '%';
    }
  }

  lemma {:induction false} SplitOnceMissing(s: string, sep: char)
    requires sep !in s
    ensures SplitOnce(s, sep) == None
    decreases |s|
  {
    if s != [] {
      assert sep !in s[1..] by {
        forall k | 0 <= k < |s[1..]| ensures s[1..][k] != sep {
          assert s[1..][k] == s[k + 1];
        }
      }
      SplitOnceMissing(s[1..], sep);
    }
  }

  lemma JoinFour(p0: string, p1: string, p2: string, p3: string)
    ensures Join([p0, p1, p2, p3]) == p0 + "," + p1 + "," + p2 + "," + p3
  {
    var parts := [p0, p1, p2, p3];
    assert parts[1..] == [p1, p2, p3];
    assert parts[1..][1..] == [p2, p3];
    assert parts[1..][1..][1..] == [p3];
    assert Join([p2, p3]) == p2 + "," + p3;
    assert Join([p1, p2, p3]) == p1 + "," + (p2 + "," + p3);
  }

  /** The four pieces a comma keyword is cut into. */
  lemma CommaPiecesAreSegments(before: string, after: string)
    requires Plain(before) && Plain(after)
    ensures Segment("title.ilike.%" + before) && Segment(after + "%")
    ensures Segment("content.ilike.%" + before)
  {
    assert Plain("%") && Plain("title.ilike.%") && Plain("content.ilike.%");
    PlainConcat("title.ilike.%", before);
    PlainConcat(after, "%");
    PlainConcat("content.ilike.%", before);
    PlainSegment("title.ilike.%" + before);
    PlainSegment(after + "%");
    PlainSegment("content.ilike.%" + before);
  }

  /** Regrouping the pattern of a keyword `before,after` around its comma. */
  lemma RegroupAtComma(prefix: string, before: string, after: string)
    ensures prefix + ("%" + (before + "," + after) + "%") == (prefix + "%" + before) + "," + (after + "%")
  {
  }

  lemma CommaShape(before: string, after: string)
    ensures AsWrittenSearchText(before + "," + after)
            == Join(["title.ilike.%" + before, after + "%", "content.ilike.%" + before, after + "%"])
  {
    var p0, p1, p2 := "title.ilike.%" + before, after + "%", "content.ilike.%" + before;
    var k := before + "," + after;
    AsWrittenShape(k);
    assert IlikeText("title", "%" + k + "%") == p0 + "," + p1 by {
      RegroupAtComma("title.ilike.", before, after);
      assert "title.ilike." + "%" == "title.ilike.%";
    }
    assert IlikeText("content", "%" + k + "%") == p2 + "," + p1 by {
      RegroupAtComma("content.ilike.", before, after);
      assert "content.ilike." + "%" == "content.ilike.%";
    }
    JoinFour(p0, p1, p2, p1);
  }

  /** A keyword with a comma in it, such as "쿠팡,네이버", is cut into four conditions;
      the second ("네이버%") has no column or operator, so the server rejects the request
      and the search fails instead of finding posts. */
  lemma CommaKeywordBreaksSearch(before: string, after: string)
    requires Plain(before) && Plain(after) && '.' !in after
    ensures SplitConditions(AsWrittenSearchText(before + "," + after))
            == ["title.ilike.%" + before, after + "%", "content.ilike.%" + before, after + "%"]
    ensures ReadOrFilter(AsWrittenSearchText(before + "," + after))[1] == None
    ensures ReadOrFilter(AsWrittenSearchText(before + "," + after)) != IntendedConditions(before + "," + after)
  {
    var p1 := after + "%";
    var parts := ["title.ilike.%" + before, p1, "content.ilike.%" + before, p1];
    CommaPiecesAreSegments(before, after);
    CommaShape(before, after);
    SplitJoin(parts);
    assert '.' !in p1;
    SplitOnceMissing(p1, '.');
    assert ParseCondition(parts[1]) == None;
  }

  /** `\` before every double quote and backslash. */
  function Escape(s: string): string
    decreases |s|
  {
    if s == [] then [] else EscapeChar(s[0]) + Escape(s[1..])
  }

  /** One character as `Escape` writes it. */
  function EscapeChar(c: char): string {
    if c == '"' || c == '\\' then ['\\', c] else [c]
  }

  lemma {:induction false} EscapedStaysInside(s: string)
    ensures Quiet(Inside, Escape(s)) && LexRun(Inside, Escape(s)) == Inside
    decreases |s|
  {
    if s != [] {
      var c := s[0];
      var head := if c == '"' || c == '\\' then ['\\', c] else [c];
      assert Escape(s) == head + Escape(s[1..]);
      assert Quiet(Inside, head) && LexRun(Inside, head) == Inside by {
        if c == '"' || c == '\\' {
          assert head[1..] == [c];
          assert Advance(Inside, '\\') == Lexer(true, true);
          assert Advance(Lexer(true, true), c) == Inside;
          assert Quiet(Lexer(true, true), [c]) && LexRun(Lexer(true, true), [c]) == Inside by {
            assert [c][1..] == [];
          }
        } else {
          assert head[1..] == [];
          assert Advance(Inside, c) == Inside;
        }
      }
      EscapedStaysInside(s[1..]);
      QuietAppend(Inside, head, Escape(s[1..]));
    }
  }

  lemma UnescapeEscapedChar(c: char, x: string)
    ensures Unescape(['\\', c] + x) == [c] + Unescape(x)
  {
    var e := ['\\', c] + x;
    assert e[0] == '\\' && e[1] == c && e[2..] == x;
  }

  lemma UnescapePlainChar(c: char, x: string)
    requires c != '\\'
    ensures Unescape([c] + x) == [c] + Unescape(x)
  {
    var e := [c] + x;
    assert e[0] == c && e[1..] == x;
  }

  lemma {:induction false} UnescapeEscape(s: string, t: string)
    ensures Unescape(Escape(s) + t) == s + Unescape(t)
    decreases |s|
  {
    if s == [] {
      assert Escape(s) + t == t;
    } else {
      var c := s[0];
      var x := Escape(s[1..]) + t;
      assert Unescape(Escape(s) + t) == [c] + Unescape(x) by {
        assert Escape(s) + t == EscapeChar(c) + x;
        if c == '"' || c == '\\' {
          UnescapeEscapedChar(c, x);
        } else {
          UnescapePlainChar(c, x);
        }
      }
      assert Unescape(x) == s[1..] + Unescape(t) by {
        UnescapeEscape(s[1..], t);
      }
      assert [c] + (s[1..] + Unescape(t)) == s + Unescape(t) by {
        assert [c] + s[1..] == s;
      }
    }
  }

  /** The value of a corrected condition: the pattern in double quotes, the keyword
      escaped. */
  function QuotedPattern(keyword: string): string {
    "\"%" + Escape(keyword) + "%\""
  }

  /** The corrected filter text. */
  function SearchFilterText(keyword: string): string {
    IlikeText("title", QuotedPattern(keyword)) + "," + IlikeText("content", QuotedPattern(keyword))
  }

  lemma QuotedPatternIsSegment(prefix: string, keyword: string)
    requires Plain(prefix)
    ensures Segment(prefix + QuotedPattern(keyword))
  {
    var e := Escape(keyword);
    PlainQuiet(Outside, prefix);
    assert Quiet(Outside, "\"") && LexRun(Outside, "\"") == Inside by {
      assert "\""[1..] == [];
    }
    PlainQuiet(Inside, "%");
    EscapedStaysInside(keyword);
    assert Quiet(Inside, "\"") && LexRun(Inside, "\"") == Outside by {
      assert "\""[1..] == [];
    }
    QuietAppend(Outside, prefix, "\"");
    QuietAppend(Outside, prefix + "\"", "%");
    QuietAppend(Outside, prefix + "\"" + "%", e);
    QuietAppend(Outside, prefix + "\"" + "%" + e, "%");
    QuietAppend(Outside, prefix + "\"" + "%" + e + "%", "\"");
    assert prefix + "\"" + "%" + e + "%" + "\"" == prefix + QuotedPattern(keyword);
  }

  lemma DequoteQuotedPattern(keyword: string)
    ensures Dequote(QuotedPattern(keyword)) == "%" + keyword + "%"
  {
    var e := Escape(keyword);
    var raw := QuotedPattern(keyword);
    var inner := "%" + (e + "%");
    assert raw == "\"" + inner + "\"";
    assert |raw| >= 2 && raw[0] == '"' && raw[|raw| - 1] == '"';
    assert raw[1..|raw| - 1] == inner;
    assert inner[0] == '%' && inner[1..] == e + "%";
    assert Unescape(inner) == "%" + Unescape(e + "%");
    UnescapeEscape(keyword, "%");
    assert Unescape("%") == "%" by {
      assert "%"[1..] == [];
    }
  }

  lemma QuotedIlikeSegment(column: string, keyword: string)
    requires Plain(column)
    ensures Segment(IlikeText(column, QuotedPattern(keyword)))
  {
    assert Plain(".ilike.");
    PlainConcat(column, ".ilike.");
    QuotedPatternIsSegment(column + ".ilike.", keyword);
  }

  /** The corrected filter reads back as the two intended conditions for every keyword. */
  lemma SearchFilterReadsBack(keyword: string)
    ensures ReadOrFilter(SearchFilterText(keyword)) == IntendedConditions(keyword)
  {
    var v := QuotedPattern(keyword);
    assert Plain("title") && Plain("content");
    QuotedIlikeSegment("title", keyword);
    QuotedIlikeSegment("content", keyword);
    ReadIlikePair("title", v, "content", v);
    DequoteQuotedPattern(keyword);
  }
}
