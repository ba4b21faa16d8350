/** The like hooks of src/features/posts/hooks/usePostLike.ts: the like-status query and
    the toggle mutation, whose success handler writes the toggle's answer into the cache
    in place instead of invalidating anything. */
module PostLikeHooks {
  import opened Wrappers
  import opened QueryCache
  import AuthApi
  import PostsApi

  /** The like status is considered fresh for one minute. */
  const LikeStaleTime: nat := 1000 * 60

  /** `usePostLike(postId)`'s query settings. */
  function PostLikeQuery(postId: string): (r: QueryOptions)
    ensures r.key == PostLikeKey(postId) && Family(r.key) == "post-like"
    ensures r.staleTime == Some(60000) && r.enabled
  {
    QueryOptions(PostLikeKey(postId), Some(LikeStaleTime), true)
  }

  /** The list with `like_count` rewritten on every post whose id is `postId`. */
  function SetLikeCount(posts: seq<PostsApi.Post>, postId: string, count: int): (r: seq<PostsApi.Post>)
    ensures |r| == |posts|
    ensures forall i :: 0 <= i < |r| ==> r[i].id == posts[i].id
    ensures forall i :: 0 <= i < |r| ==> r[i] == posts[i].(likeCount := r[i].likeCount)
    ensures forall i :: 0 <= i < |r| ==> r[i].likeCount == if posts[i].id == postId then count else posts[i].likeCount
  {
    if posts == [] then []
    else
      var head := if posts[0].id == postId then posts[0].(likeCount := count) else posts[0];
      var rest := SetLikeCount(posts[1..], postId, count);
      var r := [head] + rest;
      assert forall i :: 1 <= i < |r| ==> r[i] == rest[i - 1] && posts[i] == posts[1..][i - 1];
      r
  }

  /** Rewriting the same count twice is rewriting it once. */
  lemma {:induction false} SetLikeCountIdempotent(posts: seq<PostsApi.Post>, postId: string, count: int)
    ensures SetLikeCount(SetLikeCount(posts, postId, count), postId, count) == SetLikeCount(posts, postId, count)
  {
    var once := SetLikeCount(posts, postId, count);
    var twice := SetLikeCount(once, postId, count);
    forall i | 0 <= i < |twice| ensures twice[i] == once[i] {
    }
  }

  /** A list without the post is left as it is. */
  lemma SetLikeCountOfOtherPosts(posts: seq<PostsApi.Post>, postId: string, count: int)
    requires forall i :: 0 <= i < |posts| ==> posts[i].id != postId
    ensures SetLikeCount(posts, postId, count) == posts
  {
    var r := SetLikeCount(posts, postId, count);
    forall i | 0 <= i < |r| ensures r[i] == posts[i] {
    }
  }

  /** The detail updater: the post with its new like count. */
  function DetailUpdater(count: int): CacheValue -> CacheValue {
    (v: CacheValue) => if v.PostDetail? then PostDetail(v.post.(likeCount := count)) else v
  }

  /** The list updater: every copy of the post in the list gets its new like count. */
  function ListUpdater(postId: string, count: int): CacheValue -> CacheValue {
    (v: CacheValue) => if v.PostList? then PostList(SetLikeCount(v.posts, postId, count)) else v
  }

  /** The cache after a toggle of `postId` answered `result`: the status entry holds the
      new status, the detail entry (when cached) and every cached list hold the new like
      count for that post, all of them fresh; every other entry is untouched and nothing
      is invalidated. */
  function AfterToggle(c: Cache, postId: string, result: PostsApi.LikeResult): (r: Cache)
    ensures r.Keys == c.Keys + {PostLikeKey(postId)}
    ensures r[PostLikeKey(postId)] == Entry(LikeStatus(result.isLiked), false)
    ensures PostKey(postId) in c && c[PostKey(postId)].value.PostDetail? ==>
              r[PostKey(postId)] == Entry(PostDetail(c[PostKey(postId)].value.post.(likeCount := result.newLikeCount)), false)
    ensures forall k :: k in c && k.PostsKey? && c[k].value.PostList? ==>
              r[k] == Entry(PostList(SetLikeCount(c[k].value.posts, postId, result.newLikeCount)), false)
    ensures forall k :: k in c && !k.PostsKey? && k != PostKey(postId) && k != PostLikeKey(postId) ==> r[k] == c[k]
    ensures forall k :: k in r && r[k].invalidated ==> k in c && c[k].invalidated
  {
    var withStatus := SetData(c, PostLikeKey(postId), LikeStatus(result.isLiked));
    var withDetail := UpdateData(withStatus, PostKey(postId), DetailUpdater(result.newLikeCount));
    UpdateMatching(withDetail, FamilyOf("posts"), ListUpdater(postId, result.newLikeCount))
  }

  /** The toggle's write keeps the cache well typed. */
  lemma AfterToggleKeepsWellTyped(c: Cache, postId: string, result: PostsApi.LikeResult)
    requires WellTyped(c)
    ensures WellTyped(AfterToggle(c, postId, result))
  {
    var r := AfterToggle(c, postId, result);
    forall k | k in r ensures FitsKey(k, r[k].value) {
      if k != PostLikeKey(postId) {
        assert FitsKey(k, c[k].value);
      }
    }
  }

  /** Writing the same answer twice is writing it once. */
  lemma AfterToggleIdempotent(c: Cache, postId: string, result: PostsApi.LikeResult)
    requires WellTyped(c)
    ensures AfterToggle(AfterToggle(c, postId, result), postId, result) == AfterToggle(c, postId, result)
  {
    var once := AfterToggle(c, postId, result);
    var twice := AfterToggle(once, postId, result);
    forall k | k in twice ensures twice[k] == once[k] {
      if k.PostsKey? {
        assert FitsKey(k, c[k].value);
        SetLikeCountIdempotent(c[k].value.posts, postId, result.newLikeCount);
      } else if k == PostKey(postId) {
        assert FitsKey(k, c[k].value);
      }
    }
  }

  /** An absent detail entry stays absent and no list entry is created. */
  lemma AfterToggleCreatesOnlyTheStatus(c: Cache, postId: string, result: PostsApi.LikeResult, k: QueryKey)
    requires k !in c && k != PostLikeKey(postId)
    ensures k !in AfterToggle(c, postId, result)
  {
  }

  /** `useTogglePostLike(postId)`: runs `togglePostLike`, then on success sets the status,
      patches the detail entry and patches every list entry, in that order. When the
      answer has no row, reading `is_liked` throws before anything is written. */
  method ToggleLike(client: QueryClient, postId: string, auth: AuthApi.Response<AuthApi.Identity>,
                    rpc: AuthApi.Response<seq<PostsApi.LikeResult>>)
    returns (r: Result<Option<PostsApi.LikeResult>>)
    modifies client
    ensures r == PostsApi.TogglePostLike(postId, auth, rpc).result
    ensures r.Ok? && r.value.Some? ==> client.entries == AfterToggle(old(client.entries), postId, r.value.value)
    ensures !(r.Ok? && r.value.Some?) ==> client.entries == old(client.entries)
  {
    r := PostsApi.TogglePostLike(postId, auth, rpc).result;
    if r.Ok? && r.value.Some? {
      var data := r.value.value;
      client.SetQueryData(PostLikeKey(postId), LikeStatus(data.isLiked));
      client.UpdateQueryData(PostKey(postId), DetailUpdater(data.newLikeCount));
      client.SetQueriesData(FamilyOf("posts"), ListUpdater(postId, data.newLikeCount));
    }
  }
}
