/** The posts gateway of src/features/posts/api.ts: how `getPosts` composes its query
    from the filter options, and what each gateway function sends, returns or throws.
    Backend answers are inputs (`Response`); a thrown `Error` is `Err(message)`. */
module PostsApi {
  import opened Wrappers
  import opened AuthApi
  import SearchFilter

  // ---------------------------------------------------------------------------
  // Data
  // ---------------------------------------------------------------------------

  /** The author's profile joined onto a post row. */
  datatype AuthorProfile = AuthorProfile(nickname: string, avatarUrl: Option<string>)

  /** A row of `posts`, with the joined author profile when there is one. */
  datatype Post = Post(
    id: string,
    title: string,
    content: string,
    authorId: string,
    category: string,
    isAnonymous: bool,
    viewCount: int,
    likeCount: int,
    commentCount: int,
    bestScore: int,
    isPublished: bool,
    createdAt: string,
    updatedAt: string,
    profiles: Option<AuthorProfile>)

  datatype CreatePostData = CreatePostData(title: string, content: string, category: string, isAnonymous: bool)

  datatype OrderColumn = CreatedAt | LikeCount | ViewCount | BestScore
  datatype Direction = Asc | Desc

  /** The options of `getPosts`; every one may be omitted. */
  datatype PostFilters = PostFilters(
    category: Option<string>,
    limit: Option<int>,
    offset: Option<int>,
    orderBy: Option<OrderColumn>,
    orderDirection: Option<Direction>,
    searchKeyword: Option<string>)

  /** Reading `options?.x` when `options` itself is omitted. */
  const NoFilters: PostFilters := PostFilters(None, None, None, None, None, None)

  /** JavaScript truthiness of an optional text: present and not empty. */
  predicate TruthyText(o: Option<string>) {
    o.Some? && o.value != ""
  }

  /** JavaScript truthiness of an optional number: present and not zero. */
  predicate TruthyNumber(o: Option<int>) {
    o.Some? && o.value != 0
  }

  // ---------------------------------------------------------------------------
  // Query descriptors
  // ---------------------------------------------------------------------------

  datatype Filter =
    | IsPublished                      // .eq('is_published', true)
    | IdIs(id: string)                 // .eq('id', id)
    | CategoryIs(category: string)     // .eq('category', category)
    | MatchesAny(conditions: string)   // .or(conditions)

  datatype Ordering = Ordering(column: OrderColumn, ascending: bool)

  /** An inclusive row range `from..to`. */
  datatype Range = Range(from: int, to: int)

  /** What `getPosts` asks of the `posts` table (with the author profile joined). */
  datatype PostsQuery = PostsQuery(filters: seq<Filter>, order: Ordering, limit: Option<int>, range: Option<Range>)

  /** The page size a range falls back to when no limit is given. */
  const DefaultPageSize: int := 10

  function Options(options: Option<PostFilters>): PostFilters {
    options.GetOr(NoFilters)
  }

  /** The `or` filter `getPosts` adds for a search keyword: the keyword is pasted into
      the filter text unquoted. */
  function SearchFilterOf(keyword: string): Filter {
    MatchesAny(SearchFilter.AsWrittenSearchText(keyword))
  }

  /** The corrected keyword filter: the pattern quoted and escaped. */
  function QuotedSearchFilterOf(keyword: string): Filter {
    MatchesAny(SearchFilter.SearchFilterText(keyword))
  }

  /** The keyword filter as written, or corrected when `quoted`. */
  function KeywordFilter(keyword: string, quoted: bool): Filter {
    if quoted then QuotedSearchFilterOf(keyword) else SearchFilterOf(keyword)
  }

  /** The filters of `getPosts`, in the order they are added: published posts only, then
      the category and the keyword filter when their option is truthy. `quoted` picks
      the corrected keyword filter instead of the one the source sends. */
  function FiltersOf(o: PostFilters, quoted: bool): (fs: seq<Filter>)
    ensures |fs| >= 1 && fs[0] == IsPublished
    ensures forall k :: 0 <= k < |fs| ==> !fs[k].IdIs?
    ensures (exists k :: 0 <= k < |fs| && fs[k].CategoryIs?) <==> TruthyText(o.category)
    ensures forall k :: 0 <= k < |fs| && fs[k].CategoryIs? ==> fs[k].category == o.category.value
    ensures (exists k :: 0 <= k < |fs| && fs[k].MatchesAny?) <==> TruthyText(o.searchKeyword)
    ensures forall k :: 0 <= k < |fs| && fs[k].MatchesAny? ==>
              TruthyText(o.searchKeyword) && fs[k] == KeywordFilter(o.searchKeyword.value, quoted)
  {
    var category := if TruthyText(o.category) then [CategoryIs(o.category.value)] else [];
    var search := if TruthyText(o.searchKeyword) then [KeywordFilter(o.searchKeyword.value, quoted)] else [];
    var fs := [IsPublished] + category + search;
    assert forall k :: 1 <= k < |fs| ==> fs[k] in category || fs[k] in search;
    assert TruthyText(o.category) ==> fs[1] == CategoryIs(o.category.value);
    assert TruthyText(o.searchKeyword) ==> fs[|fs| - 1].MatchesAny?;
    fs
  }

  /** The query `getPosts` builds: its filters; the requested ordering, newest first by
      default; a limit when it is truthy; a range when the offset is truthy. */
  function PostsQueryOf(options: Option<PostFilters>): (q: PostsQuery)
    ensures |q.filters| >= 1 && q.filters[0] == IsPublished
    ensures forall k :: 0 <= k < |q.filters| ==> !q.filters[k].IdIs?
    ensures (exists k :: 0 <= k < |q.filters| && q.filters[k].CategoryIs?) <==> TruthyText(Options(options).category)
    ensures forall k :: 0 <= k < |q.filters| && q.filters[k].CategoryIs? ==>
              q.filters[k].category == Options(options).category.value
    ensures (exists k :: 0 <= k < |q.filters| && q.filters[k].MatchesAny?) <==> TruthyText(Options(options).searchKeyword)
    ensures forall k :: 0 <= k < |q.filters| && q.filters[k].MatchesAny? ==>
              TruthyText(Options(options).searchKeyword)
              && q.filters[k].conditions == SearchFilter.AsWrittenSearchText(Options(options).searchKeyword.value)
    ensures Options(options).orderBy.None? ==> q.order == Ordering(CreatedAt, false)
    ensures Options(options).orderBy.Some? ==> q.order.column == Options(options).orderBy.value
    ensures q.order.ascending <==> Options(options).orderBy.Some? && Options(options).orderDirection == Some(Asc)
    ensures q.limit.Some? <==> TruthyNumber(Options(options).limit)
    ensures q.limit.Some? ==> q.limit == Options(options).limit
    ensures q.range.Some? <==> TruthyNumber(Options(options).offset)
    ensures q.range.Some? ==> q.range.value.from == Options(options).offset.value
    ensures q.range.Some? ==>
              q.range.value.to - q.range.value.from + 1
              == if TruthyNumber(Options(options).limit) then Options(options).limit.value else DefaultPageSize
  {
    var o := Options(options);
    var order := if o.orderBy.Some? then Ordering(o.orderBy.value, o.orderDirection == Some(Asc))
                 else Ordering(CreatedAt, false);
    var limit := if TruthyNumber(o.limit) then o.limit else None;
    var pageSize := if TruthyNumber(o.limit) then o.limit.value else DefaultPageSize;
    var range := if TruthyNumber(o.offset) then Some(Range(o.offset.value, o.offset.value + pageSize - 1)) else None;
    PostsQuery(FiltersOf(o, false), order, limit, range)
  }

  /** The query with the corrected keyword filter: the same ordering and rows, and the
      same filters except for the keyword filter's text. */
  function QuotedPostsQueryOf(options: Option<PostFilters>): (q: PostsQuery)
    ensures q.order == PostsQueryOf(options).order
    ensures q.limit == PostsQueryOf(options).limit && q.range == PostsQueryOf(options).range
    ensures |q.filters| == |PostsQueryOf(options).filters|
    ensures forall k :: 0 <= k < |q.filters| && !q.filters[k].MatchesAny? ==> q.filters[k] == PostsQueryOf(options).filters[k]
    ensures forall k :: 0 <= k < |q.filters| && q.filters[k].MatchesAny? ==>
              TruthyText(Options(options).searchKeyword)
              && q.filters[k].conditions == SearchFilter.SearchFilterText(Options(options).searchKeyword.value)
  {
    FiltersDifferOnlyInKeyword(Options(options));
    PostsQueryOf(options).(filters := FiltersOf(Options(options), true))
  }

  /** The corrected filters differ from the source's only in the keyword filter. */
  lemma FiltersDifferOnlyInKeyword(o: PostFilters)
    ensures |FiltersOf(o, true)| == |FiltersOf(o, false)|
    ensures forall k :: 0 <= k < |FiltersOf(o, true)| && !FiltersOf(o, true)[k].MatchesAny? ==>
              FiltersOf(o, true)[k] == FiltersOf(o, false)[k]
  {
    var category := if TruthyText(o.category) then [CategoryIs(o.category.value)] else [];
    var front := [IsPublished] + category;
    if TruthyText(o.searchKeyword) {
      assert FiltersOf(o, true) == front + [QuotedSearchFilterOf(o.searchKeyword.value)];
      assert FiltersOf(o, false) == front + [SearchFilterOf(o.searchKeyword.value)];
    } else {
      assert FiltersOf(o, true) == front + [] == FiltersOf(o, false);
    }
  }

  /** `getPosts`' builder chain: the query is reassigned step by step as in the source. */
  method BuildPostsQuery(options: Option<PostFilters>) returns (q: PostsQuery)
    ensures q == PostsQueryOf(options)
  {
    var o := options.GetOr(NoFilters);
    var filters := [IsPublished];
    if TruthyText(o.category) {
      filters := filters + [CategoryIs(o.category.value)];
    }
    if TruthyText(o.searchKeyword) {
      filters := filters + [SearchFilterOf(o.searchKeyword.value)];
    }
    var order: Ordering;
    if o.orderBy.Some? {
      order := Ordering(o.orderBy.value, o.orderDirection == Some(Asc));
    } else {
      order := Ordering(CreatedAt, false);
    }
    var limit: Option<int> := None;
    if TruthyNumber(o.limit) {
      limit := o.limit;
    }
    var range: Option<Range> := None;
    if TruthyNumber(o.offset) {
      var pageSize := if TruthyNumber(o.limit) then o.limit.value else DefaultPageSize;
      range := Some(Range(o.offset.value, o.offset.value + pageSize - 1));
    }
    q := PostsQuery(filters, order, limit, range);
  }

  // ---------------------------------------------------------------------------
  // What the filters select
  // ---------------------------------------------------------------------------

  /** A condition of an `or` filter holds for a post; `like` is the server's
      case-insensitive pattern match. */
  predicate ConditionHolds(c: Option<SearchFilter.Condition>, p: Post, like: (string, string) -> bool) {
    c.Some? && c.value.operator == "ilike"
    && ((c.value.column == "title" && like(p.title, c.value.value))
        || (c.value.column == "content" && like(p.content, c.value.value)))
  }

  /** The server can read every condition of an `or` filter. When it cannot, it rejects
      the whole request, which `getPosts` then reports as a failure. */
  predicate Readable(f: Filter) {
    f.MatchesAny? ==> forall c :: c in SearchFilter.ReadOrFilter(f.conditions) ==> c.Some?
  }

  predicate AllReadable(filters: seq<Filter>) {
    forall k :: 0 <= k < |filters| ==> Readable(filters[k])
  }

  predicate AnyConditionHolds(cs: seq<Option<SearchFilter.Condition>>, p: Post, like: (string, string) -> bool) {
    exists k :: 0 <= k < |cs| && ConditionHolds(cs[k], p, like)
  }

  predicate Admits(f: Filter, p: Post, like: (string, string) -> bool) {
    match f
    case IsPublished => p.isPublished
    case IdIs(id) => p.id == id
    case CategoryIs(c) => p.category == c
    case MatchesAny(text) => AnyConditionHolds(SearchFilter.ReadOrFilter(text), p, like)
  }

  predicate Selects(filters: seq<Filter>, p: Post, like: (string, string) -> bool) {
    forall k :: 0 <= k < |filters| ==> Admits(filters[k], p, like)
  }

  lemma SelectsAppend(a: seq<Filter>, b: seq<Filter>, p: Post, like: (string, string) -> bool)
    ensures Selects(a + b, p, like) <==> Selects(a, p, like) && Selects(b, p, like)
  {
    if Selects(a, p, like) && Selects(b, p, like) {
      forall k | 0 <= k < |a + b| ensures Admits((a + b)[k], p, like) {
        if k >= |a| {
          assert (a + b)[k] == b[k - |a|];
        }
      }
    }
    if Selects(a + b, p, like) {
      forall k | 0 <= k < |a| ensures Admits(a[k], p, like) {
        assert (a + b)[k] == a[k];
      }
      forall k | 0 <= k < |b| ensures Admits(b[k], p, like) {
        assert (a + b)[|a| + k] == b[k];
      }
    }
  }

  /** The two intended conditions hold for a post exactly when the keyword pattern is
      like its title or its content. */
  lemma IntendedConditionsHold(kw: string, p: Post, like: (string, string) -> bool)
    ensures AnyConditionHolds(SearchFilter.IntendedConditions(kw), p, like)
            <==> like(p.title, "%" + kw + "%") || like(p.content, "%" + kw + "%")
  {
    var cs := SearchFilter.IntendedConditions(kw);
    if like(p.title, "%" + kw + "%") {
      assert ConditionHolds(cs[0], p, like);
    }
    if like(p.content, "%" + kw + "%") {
      assert ConditionHolds(cs[1], p, like);
    }
  }

  /** A keyword filter the server reads as the two intended conditions admits a post
      exactly when the keyword pattern is like its title or content. */
  lemma IntendedFilterSelects(kw: string, text: string, p: Post, like: (string, string) -> bool)
    requires SearchFilter.ReadOrFilter(text) == SearchFilter.IntendedConditions(kw)
    ensures Selects([MatchesAny(text)], p, like) <==> like(p.title, "%" + kw + "%") || like(p.content, "%" + kw + "%")
  {
    var f := MatchesAny(text);
    assert Selects([f], p, like) <==> Admits(f, p, like) by {
      assert [f][0] == f;
    }
    IntendedConditionsHold(kw, p, like);
  }

  /** The keyword filter is read as the two intended conditions: the corrected one for
      every keyword, the one the source sends for keywords without comma, double quote
      or backslash. */
  lemma KeywordFilterReadsBack(kw: string, quoted: bool)
    requires quoted || SearchFilter.Plain(kw)
    ensures SearchFilter.ReadOrFilter(KeywordFilter(kw, quoted).conditions) == SearchFilter.IntendedConditions(kw)
    ensures Readable(KeywordFilter(kw, quoted))
  {
    if quoted {
      SearchFilter.SearchFilterReadsBack(kw);
    } else {
      SearchFilter.AsWrittenReadsBackForPlainKeywords(kw);
    }
  }

  /** So the keyword filter selects as intended for those keywords. */
  lemma SearchSelects(kw: string, quoted: bool, p: Post, like: (string, string) -> bool)
    requires quoted || SearchFilter.Plain(kw)
    ensures Selects([KeywordFilter(kw, quoted)], p, like) <==> like(p.title, "%" + kw + "%") || like(p.content, "%" + kw + "%")
  {
    KeywordFilterReadsBack(kw, quoted);
    IntendedFilterSelects(kw, KeywordFilter(kw, quoted).conditions, p, like);
  }

  /** Those keywords make filters the server can read. */
  lemma FiltersReadable(o: PostFilters, quoted: bool)
    requires quoted || SearchFilter.Plain(o.searchKeyword.GetOr(""))
    ensures AllReadable(FiltersOf(o, quoted))
  {
    if TruthyText(o.searchKeyword) {
      KeywordFilterReadsBack(o.searchKeyword.value, quoted);
    }
  }

  /** The posts the filters select: published, in the category when one is given, and
      with the keyword in the title or the content when one is given. */
  lemma FiltersSelect(o: PostFilters, quoted: bool, p: Post, like: (string, string) -> bool)
    requires quoted || SearchFilter.Plain(o.searchKeyword.GetOr(""))
    ensures Selects(FiltersOf(o, quoted), p, like) <==>
              && p.isPublished
              && (TruthyText(o.category) ==> p.category == o.category.value)
              && (TruthyText(o.searchKeyword) ==>
                    var pattern := "%" + o.searchKeyword.value + "%";
                    like(p.title, pattern) || like(p.content, pattern))
  {
    var published := [IsPublished];
    var category := if TruthyText(o.category) then [CategoryIs(o.category.value)] else [];
    var search := if TruthyText(o.searchKeyword) then [KeywordFilter(o.searchKeyword.value, quoted)] else [];
    var fs := FiltersOf(o, quoted);
    assert fs == published + category + search;
    SelectsAppend(published + category, search, p, like);
    SelectsAppend(published, category, p, like);
    if TruthyText(o.searchKeyword) {
      SearchSelects(o.searchKeyword.value, quoted, p, like);
      assert fs[|fs| - 1] == search[0];
    }
  }

  /** The posts a `getPosts` query returns, for a keyword without comma, double quote
      or backslash: published, in the category when one is given, and with the keyword
      in the title or the content when one is given. */
  lemma PostsQuerySelects(options: Option<PostFilters>, p: Post, like: (string, string) -> bool)
    requires SearchFilter.Plain(Options(options).searchKeyword.GetOr(""))
    ensures AllReadable(PostsQueryOf(options).filters)
    ensures Selects(PostsQueryOf(options).filters, p, like) <==>
              && p.isPublished
              && (TruthyText(Options(options).category) ==> p.category == Options(options).category.value)
              && (TruthyText(Options(options).searchKeyword) ==>
                    var pattern := "%" + Options(options).searchKeyword.value + "%";
                    like(p.title, pattern) || like(p.content, pattern))
  {
    FiltersReadable(Options(options), false);
    FiltersSelect(Options(options), false, p, like);
  }

  /** With the corrected keyword filter the same holds for every keyword. */
  lemma QuotedPostsQuerySelects(options: Option<PostFilters>, p: Post, like: (string, string) -> bool)
    ensures AllReadable(QuotedPostsQueryOf(options).filters)
    ensures Selects(QuotedPostsQueryOf(options).filters, p, like) <==>
              && p.isPublished
              && (TruthyText(Options(options).category) ==> p.category == Options(options).category.value)
              && (TruthyText(Options(options).searchKeyword) ==>
                    var pattern := "%" + Options(options).searchKeyword.value + "%";
                    like(p.title, pattern) || like(p.content, pattern))
  {
    FiltersReadable(Options(options), true);
    FiltersSelect(Options(options), true, p, like);
  }

  /** As written, a keyword `before,after` makes the list query one the server cannot
      read, so the search fails instead of finding posts; the corrected query is read. */
  lemma CommaKeywordQueryIsRejected(options: Option<PostFilters>, before: string, after: string)
    requires Options(options).searchKeyword == Some(before + "," + after)
    requires SearchFilter.Plain(before) && SearchFilter.Plain(after) && '.' !in after
    ensures !AllReadable(PostsQueryOf(options).filters)
    ensures AllReadable(QuotedPostsQueryOf(options).filters)
  {
    var kw := before + "," + after;
    var fs := PostsQueryOf(options).filters;
    var o := Options(options);
    assert TruthyText(o.searchKeyword);
    var k :| 0 <= k < |fs| && fs[k].MatchesAny?;
    assert fs[k] == SearchFilterOf(kw);
    SearchFilter.CommaKeywordBreaksSearch(before, after);
    var read := SearchFilter.ReadOrFilter(SearchFilter.AsWrittenSearchText(kw));
    assert |read| == 4;
    assert read[1] in read;
    assert !Readable(fs[k]);
    FiltersReadable(o, true);
  }

  /** For instance, searching for "쿠팡,네이버" sends a filter the server cannot read. */
  lemma CommaKeywordExample()
    ensures !AllReadable(PostsQueryOf(Some(NoFilters.(searchKeyword := Some("쿠팡,네이버")))).filters)
  {
    assert "쿠팡,네이버" == "쿠팡" + "," + "네이버";
    assert SearchFilter.Plain("쿠팡") && SearchFilter.Plain("네이버");
    CommaKeywordQueryIsRejected(Some(NoFilters.(searchKeyword := Some("쿠팡,네이버"))), "쿠팡", "네이버");
  }

  /** The detail query of `getPost`: the id, and published posts only. */
  function PostQueryOf(id: string): (filters: seq<Filter>)
    ensures IsPublished in filters && IdIs(id) in filters
    ensures forall k :: 0 <= k < |filters| ==> filters[k] == IsPublished || filters[k] == IdIs(id)
  {
    [IdIs(id), IsPublished]
  }

  /** Every post a list or detail query returns is published. */
  lemma OnlyPublishedPostsAreRead(options: Option<PostFilters>, id: string, p: Post, like: (string, string) -> bool)
    requires Selects(PostsQueryOf(options).filters, p, like) || Selects(PostQueryOf(id), p, like)
    ensures p.isPublished
  {
    if Selects(PostQueryOf(id), p, like) {
      assert Admits(PostQueryOf(id)[1], p, like);
    } else {
      assert Admits(PostsQueryOf(options).filters[0], p, like);
    }
  }

  // ---------------------------------------------------------------------------
  // Which rows come back
  // ---------------------------------------------------------------------------

  function Clamp(x: int, n: nat): (r: nat)
    ensures r <= n
    ensures 0 <= x <= n ==> r == x
  {
    if x < 0 then 0 else if x > n then n else x
  }

  /** The rows `lo..hi` (exclusive) of an ordered result of `n` rows that the query
      returns. A range sets both the offset and the row count, overriding an earlier
      limit; a limit alone takes the first rows. */
  function Window(q: PostsQuery, n: nat): (r: (nat, nat))
    ensures r.0 <= r.1 <= n
  {
    if q.range.Some? then
      var lo := Clamp(q.range.value.from, n);
      var hi := Clamp(q.range.value.to + 1, n);
      if hi < lo then (lo, lo) else (lo, hi)
    else if q.limit.Some? then (0, Clamp(q.limit.value, n))
    else (0, n)
  }

  function Min(a: int, b: int): int {
    if a <= b then a else b
  }

  /** Paging with `offset = page * size` and `limit = size` returns consecutive
      windows of `size` rows, the first page included although its offset 0 is falsy
      and sets no range. */
  lemma PagesTile(size: int, page: nat, n: nat, rest: PostFilters)
    requires size > 0
    ensures var q := PostsQueryOf(Some(rest.(limit := Some(size), offset := Some(page * size))));
            Window(q, n) == (Min(page * size, n), Min(page * size + size, n))
  {
  }

  /** An empty category or keyword means the same as an omitted one. */
  lemma EmptyTextOptionsAreOmitted(o: PostFilters)
    ensures PostsQueryOf(Some(o.(category := Some("")))) == PostsQueryOf(Some(o.(category := None)))
    ensures PostsQueryOf(Some(o.(searchKeyword := Some("")))) == PostsQueryOf(Some(o.(searchKeyword := None)))
  {
  }

  /** A zero limit or offset means the same as an omitted one, and omitting every
      option asks for all published posts, newest first. */
  lemma ZeroNumberOptionsAreOmitted(o: PostFilters)
    ensures PostsQueryOf(Some(o.(limit := Some(0)))) == PostsQueryOf(Some(o.(limit := None)))
    ensures PostsQueryOf(Some(o.(offset := Some(0)))) == PostsQueryOf(Some(o.(offset := None)))
    ensures PostsQueryOf(None) == PostsQuery([IsPublished], Ordering(CreatedAt, false), None, None)
  {
    assert FiltersOf(o.(limit := Some(0)), false) == FiltersOf(o.(limit := None), false) == FiltersOf(o, false);
    assert FiltersOf(o.(offset := Some(0)), false) == FiltersOf(o.(offset := None), false) == FiltersOf(o, false);
    assert FiltersOf(NoFilters, false) == [IsPublished];
  }

  // ---------------------------------------------------------------------------
  // Gateway calls
  // ---------------------------------------------------------------------------

  const LoginRequiredMessage: string := "로그인이 필요합니다."

  /** The operations whose failure messages name them. */
  datatype Operation = CreateOp | ListOp | ReadOp | UpdateOp | DeleteOp | LikeOp

  function FailurePrefix(op: Operation): string {
    match op
    case CreateOp => "글 작성 실패: "
    case ListOp => "글 목록 조회 실패: "
    case ReadOp => "글 조회 실패: "
    case UpdateOp => "글 수정 실패: "
    case DeleteOp => "글 삭제 실패: "
    case LikeOp => "좋아요 처리 실패: "
  }

  function FailureMessage(op: Operation, backendMessage: string): (r: string)
    ensures |r| >= |FailurePrefix(op)| && r[..|FailurePrefix(op)|] == FailurePrefix(op)
    ensures r[|FailurePrefix(op)|..] == backendMessage
  {
    FailurePrefix(op) + backendMessage
  }

  /** A failure message tells which operation failed and with what backend message. */
  lemma FailureMessageIdentifiesOperation(op1: Operation, m1: string, op2: Operation, m2: string)
    requires FailureMessage(op1, m1) == FailureMessage(op2, m2)
    ensures op1 == op2 && m1 == m2
  {
    var r := FailureMessage(op1, m1);
    assert r[0] == FailurePrefix(op1)[0] == FailurePrefix(op2)[0];
    assert r[2] == FailurePrefix(op1)[2] == FailurePrefix(op2)[2];
  }

  /** The data call a gateway function made, if any. */
  datatype DataCall =
    | InsertPost(row: PostRow)
    | ToggleLikeRpc(postId: string, userId: string)
    | CheckLikeRpc(postId: string, userId: string)
    | IncrementViewRpc(postId: string)

  /** The row `createPost` inserts. */
  datatype PostRow = PostRow(title: string, content: string, category: string, isAnonymous: bool, authorId: string)

  /** What a gateway function did: the data call it made and what it returned or threw. */
  datatype Call<T> = Call(dataCall: Option<DataCall>, result: Result<T>)

  /** `supabase.auth.getUser()` answered with a user and no error. */
  predicate HasUser(auth: Response<Identity>) {
    auth.error.None? && auth.data.Some?
  }

  /** `createPost`: needs a signed-in user; inserts the post under that user's id. */
  function CreatePost(data: CreatePostData, auth: Response<Identity>, insert: Response<Post>): (r: Call<Option<Post>>)
    ensures !HasUser(auth) ==> r == Call(None, Err(LoginRequiredMessage))
    ensures HasUser(auth) ==>
              r.dataCall == Some(InsertPost(PostRow(data.title, data.content, data.category,
                                                    data.isAnonymous, auth.data.value.id)))
    ensures HasUser(auth) && insert.error.Some? ==> r.result == Err(FailureMessage(CreateOp, insert.error.value.message))
    ensures r.result.Ok? <==> HasUser(auth) && insert.error.None?
    ensures r.result.Ok? ==> r.result.value == insert.data
  {
    if !HasUser(auth) then Call(None, Err(LoginRequiredMessage))
    else
      var row := PostRow(data.title, data.content, data.category, data.isAnonymous, auth.data.value.id);
      if insert.error.Some? then Call(Some(InsertPost(row)), Err(FailureMessage(CreateOp, insert.error.value.message)))
      else Call(Some(InsertPost(row)), Ok(insert.data))
  }

  /** The answer row of the `toggle_post_like` procedure. */
  datatype LikeResult = LikeResult(isLiked: bool, newLikeCount: int)

  /** `togglePostLike`: needs a signed-in user; toggles that user's like and returns the
      first answer row. */
  function TogglePostLike(postId: string, auth: Response<Identity>, rpc: Response<seq<LikeResult>>): (r: Call<Option<LikeResult>>)
    ensures !HasUser(auth) ==> r == Call(None, Err(LoginRequiredMessage))
    ensures HasUser(auth) ==> r.dataCall == Some(ToggleLikeRpc(postId, auth.data.value.id))
    ensures HasUser(auth) && rpc.error.Some? ==> r.result == Err(FailureMessage(LikeOp, rpc.error.value.message))
    ensures r.result.Ok? <==> HasUser(auth) && rpc.error.None?
    ensures r.result.Ok? && r.result.value.Some? ==>
              rpc.data.Some? && |rpc.data.value| > 0 && r.result.value.value == rpc.data.value[0]
  {
    if !HasUser(auth) then Call(None, Err(LoginRequiredMessage))
    else
      var call := Some(ToggleLikeRpc(postId, auth.data.value.id));
      if rpc.error.Some? then Call(call, Err(FailureMessage(LikeOp, rpc.error.value.message)))
      else if rpc.data.Some? && |rpc.data.value| > 0 then Call(call, Ok(Some(rpc.data.value[0])))
      else Call(call, Ok(None))
  }

  /** `checkPostLike`: never throws; false without a user or when the procedure fails. */
  function CheckPostLike(postId: string, auth: Response<Identity>, rpc: Response<bool>): (r: Call<bool>)
    ensures r.result.Ok?
    ensures !HasUser(auth) ==> r == Call(None, Ok(false))
    ensures HasUser(auth) ==> r.dataCall == Some(CheckLikeRpc(postId, auth.data.value.id))
    ensures HasUser(auth) && rpc.error.Some? ==> r.result == Ok(false)
    ensures r.result.value ==> HasUser(auth) && rpc.error.None? && rpc.data == Some(true)
  {
    if !HasUser(auth) then Call(None, Ok(false))
    else
      var call := Some(CheckLikeRpc(postId, auth.data.value.id));
      if rpc.error.Some? then Call(call, Ok(false))
      else Call(call, Ok(rpc.data == Some(true)))
  }

  /** `incrementViewCount`: calls the procedure and never throws; a failure is only
      logged. */
  function IncrementViewCount(id: string, rpcError: Option<BackendError>): (r: Call<()>)
    ensures r.result.Ok?
    ensures r.dataCall == Some(IncrementViewRpc(id))
  {
    Call(Some(IncrementViewRpc(id)), Ok(()))
  }

  /** The answer of `getPosts` once its query ran. */
  function GetPostsResult(response: Response<seq<Post>>): (r: Result<seq<Post>>)
    ensures r.Err? <==> response.error.Some?
    ensures response.error.Some? ==> r == Err(FailureMessage(ListOp, response.error.value.message))
    ensures r.Ok? ==> r.value == response.data.GetOr([])
  {
    if response.error.Some? then Err(FailureMessage(ListOp, response.error.value.message))
    else Ok(response.data.GetOr([]))
  }

  /** The answer of `getPost` once its query ran. */
  function GetPostResult(response: Response<Post>): (r: Result<Option<Post>>)
    ensures r.Err? <==> response.error.Some?
    ensures response.error.Some? ==> r == Err(FailureMessage(ReadOp, response.error.value.message))
    ensures r.Ok? ==> r.value == response.data
  {
    if response.error.Some? then Err(FailureMessage(ReadOp, response.error.value.message))
    else Ok(response.data)
  }

  /** The fields `updatePost` may change; omitted ones are not sent. */
  datatype PostPatch = PostPatch(title: Option<string>, content: Option<string>, category: Option<string>, isAnonymous: Option<bool>)

  /** A post after an update that applied `patch` to it. */
  function Patched(p: Post, patch: PostPatch): (r: Post)
    ensures r.id == p.id && r.authorId == p.authorId && r.likeCount == p.likeCount
    ensures r.title == patch.title.GetOr(p.title) && r.content == patch.content.GetOr(p.content)
    ensures r.category == patch.category.GetOr(p.category)
    ensures r.isAnonymous == patch.isAnonymous.GetOr(p.isAnonymous)
  {
    p.(title := patch.title.GetOr(p.title), content := patch.content.GetOr(p.content),
       category := patch.category.GetOr(p.category), isAnonymous := patch.isAnonymous.GetOr(p.isAnonymous))
  }

  /** Omitted fields are kept: an empty patch changes nothing and applying a patch
      twice is applying it once. */
  lemma PatchKeepsOmittedFields(p: Post, patch: PostPatch)
    ensures Patched(p, PostPatch(None, None, None, None)) == p
    ensures Patched(Patched(p, patch), patch) == Patched(p, patch)
  {
  }

  /** The answer of `updatePost` once its update ran. */
  function UpdatePostResult(response: Response<Post>): (r: Result<Option<Post>>)
    ensures r.Err? <==> response.error.Some?
    ensures response.error.Some? ==> r == Err(FailureMessage(UpdateOp, response.error.value.message))
    ensures r.Ok? ==> r.value == response.data
  {
    if response.error.Some? then Err(FailureMessage(UpdateOp, response.error.value.message))
    else Ok(response.data)
  }

  /** The answer of `deletePost` once its delete ran. */
  function DeletePostResult(error: Option<BackendError>): (r: Result<()>)
    ensures r.Err? <==> error.Some?
    ensures error.Some? ==> r == Err(FailureMessage(DeleteOp, error.value.message))
  {
    if error.Some? then Err(FailureMessage(DeleteOp, error.value.message)) else Ok(())
  }
}
