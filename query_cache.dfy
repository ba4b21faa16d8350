/** The client-side query cache the hooks share: a map from query keys to the data last
    fetched or written, each with its `invalidated` (stale) flag. Only what the hooks use
    is modelled: invalidation by key prefix, and writing data into one entry or into every
    entry under a prefix. An entry exists here once its query holds data; a query still
    waiting for its first answer has no data and is not an entry. */
module QueryCache {
  import opened Wrappers
  import PostsApi

  /** A comment row as the comment list shows it. */
  datatype Comment = Comment(
    id: string,
    postId: string,
    authorId: string,
    content: string,
    isAnonymous: bool,
    createdAt: string)

  /** The keys the hooks use: `['posts', filters]`, `['post', id]`,
      `['comments', postId]` and `['post-like', postId]`. */
  datatype QueryKey =
    | PostsKey(filters: Option<PostsApi.PostFilters>)
    | PostKey(id: string)
    | CommentsKey(postId: string)
    | PostLikeKey(postId: string)

  /** The first segment of a key. */
  function Family(k: QueryKey): string {
    match k
    case PostsKey(_) => "posts"
    case PostKey(_) => "post"
    case CommentsKey(_) => "comments"
    case PostLikeKey(_) => "post-like"
  }

  /** A key filter: a one-segment prefix such as `['posts']`, or a whole key. A whole
      key matches only itself, since no key here has more segments than two. */
  datatype KeyPrefix = FamilyOf(name: string) | WholeKey(key: QueryKey)

  predicate Matches(p: KeyPrefix, k: QueryKey) {
    match p
    case FamilyOf(name) => Family(k) == name
    case WholeKey(key) => k == key
  }

  /** Matching compares whole segments: `['posts']` matches every list key and nothing
      else, although "post" is a prefix of the text "posts". */
  lemma PostsPrefixMatchesOnlyLists(k: QueryKey)
    ensures Matches(FamilyOf("posts"), k) <==> k.PostsKey?
    ensures Matches(FamilyOf("post"), k) <==> k.PostKey?
  {
  }

  datatype CacheValue =
    | PostList(posts: seq<PostsApi.Post>)
    | PostDetail(post: PostsApi.Post)
    | CommentList(comments: seq<Comment>)
    | LikeStatus(liked: bool)

  datatype Entry = Entry(value: CacheValue, invalidated: bool)

  type Cache = map<QueryKey, Entry>

  /** The kind of data the query under key `k` fetches. */
  predicate FitsKey(k: QueryKey, v: CacheValue) {
    match k
    case PostsKey(_) => v.PostList?
    case PostKey(_) => v.PostDetail?
    case CommentsKey(_) => v.CommentList?
    case PostLikeKey(_) => v.LikeStatus?
  }

  /** Every entry holds the kind of data its key's query fetches. */
  predicate WellTyped(c: Cache) {
    forall k :: k in c ==> FitsKey(k, c[k].value)
  }

  // ---------------------------------------------------------------------------
  // Cache operations
  // ---------------------------------------------------------------------------

  /** `invalidateQueries({ queryKey })`: every matching entry becomes stale; data and
      the other entries are untouched. */
  function Invalidate(c: Cache, p: KeyPrefix): (r: Cache)
    ensures r.Keys == c.Keys
    ensures forall k :: k in r ==> r[k].value == c[k].value
    ensures forall k :: k in r ==> (r[k].invalidated <==> c[k].invalidated || Matches(p, k))
  {
    map k | k in c :: if Matches(p, k) then c[k].(invalidated := true) else c[k]
  }

  /** `setQueryData(key, value)`: the entry holds `value` and is fresh, created if it
      was absent. */
  function SetData(c: Cache, key: QueryKey, v: CacheValue): (r: Cache)
    ensures r.Keys == c.Keys + {key}
    ensures r[key] == Entry(v, false)
    ensures forall k :: k in c && k != key ==> r[k] == c[k]
  {
    c[key := Entry(v, false)]
  }

  /** `setQueryData(key, updater)` where the updater hands absent data back unchanged:
      an absent entry stays absent, a present one holds `f` of its data and is fresh. */
  function UpdateData(c: Cache, key: QueryKey, f: CacheValue -> CacheValue): (r: Cache)
    ensures r.Keys == c.Keys
    ensures key in c ==> r[key] == Entry(f(c[key].value), false)
    ensures forall k :: k in c && k != key ==> r[k] == c[k]
  {
    if key in c then c[key := Entry(f(c[key].value), false)] else c
  }

  /** `setQueriesData({ queryKey }, updater)`: every matching entry holds `f` of its data
      and is fresh; nothing is created. */
  function UpdateMatching(c: Cache, p: KeyPrefix, f: CacheValue -> CacheValue): (r: Cache)
    ensures r.Keys == c.Keys
    ensures forall k :: k in c && Matches(p, k) ==> r[k] == Entry(f(c[k].value), false)
    ensures forall k :: k in c && !Matches(p, k) ==> r[k] == c[k]
  {
    map k | k in c :: if Matches(p, k) then Entry(f(c[k].value), false) else c[k]
  }

  /** Invalidation keeps the cache well typed. */
  lemma InvalidateKeepsWellTyped(c: Cache, p: KeyPrefix)
    requires WellTyped(c)
    ensures WellTyped(Invalidate(c, p))
  {
    var r := Invalidate(c, p);
    forall k | k in r ensures FitsKey(k, r[k].value) {
      assert FitsKey(k, c[k].value);
    }
  }

  /** Invalidating twice is invalidating once, and the order of two invalidations does
      not matter. */
  lemma InvalidateIdempotentAndCommutative(c: Cache, p: KeyPrefix, q: KeyPrefix)
    ensures Invalidate(Invalidate(c, p), p) == Invalidate(c, p)
    ensures Invalidate(Invalidate(c, p), q) == Invalidate(Invalidate(c, q), p)
  {
  }

  // ---------------------------------------------------------------------------
  // Freshness
  // ---------------------------------------------------------------------------

  /** Settings of one `useQuery`: its key, its stale window in milliseconds (`None`:
      the client's default, which is not part of this model) and whether it runs. */
  datatype QueryOptions = QueryOptions(key: QueryKey, staleTime: Option<nat>, enabled: bool)

  /** An entry is served without refetching while it is not invalidated and younger
      than the query's stale window. */
  predicate Fresh(e: Entry, ageMs: nat, staleTime: nat) {
    !e.invalidated && ageMs < staleTime
  }

  /** An invalidated entry is stale at any age; the freshness of an entry the prefix
      does not match is unchanged. */
  lemma InvalidatedIsStale(c: Cache, p: KeyPrefix, k: QueryKey, ageMs: nat, staleTime: nat)
    requires k in c
    ensures Matches(p, k) ==> !Fresh(Invalidate(c, p)[k], ageMs, staleTime)
    ensures !Matches(p, k) ==> Fresh(Invalidate(c, p)[k], ageMs, staleTime) == Fresh(c[k], ageMs, staleTime)
  {
  }

  // ---------------------------------------------------------------------------
  // The shared client
  // ---------------------------------------------------------------------------

  /** The query client every hook shares. */
  class QueryClient {
    var entries: Cache

    constructor ()
      ensures entries == map[]
    {
      entries := map[];
    }

    method InvalidateQueries(p: KeyPrefix)
      modifies this
      ensures entries == Invalidate(old(entries), p)
    {
      entries := map k | k in entries :: if Matches(p, k) then entries[k].(invalidated := true) else entries[k];
    }

    method SetQueryData(key: QueryKey, v: CacheValue)
      modifies this
      ensures entries == SetData(old(entries), key, v)
    {
      entries := entries[key := Entry(v, false)];
    }

    method UpdateQueryData(key: QueryKey, f: CacheValue -> CacheValue)
      modifies this
      ensures entries == UpdateData(old(entries), key, f)
    {
      if key in entries {
        entries := entries[key := Entry(f(entries[key].value), false)];
      }
    }

    method SetQueriesData(p: KeyPrefix, f: CacheValue -> CacheValue)
      modifies this
      ensures entries == UpdateMatching(old(entries), p, f)
    {
      entries := map k | k in entries :: if Matches(p, k) then Entry(f(entries[k].value), false) else entries[k];
    }
  }
}
