/** The post hooks of src/features/posts/hooks/usePosts.ts: the list and detail query
    settings, and the create, update, delete and view-count mutations with the cache
    entries their success handlers invalidate. */
module PostsHooks {
  import opened Wrappers
  import opened QueryCache
  import AuthApi
  import PostsApi

  /** Lists and details are considered fresh for five minutes. */
  const PostStaleTime: nat := 5 * 60 * 1000

  /** `usePosts(filters)`'s query settings. */
  function PostsQuery(filters: Option<PostsApi.PostFilters>): (r: QueryOptions)
    ensures r.key == PostsKey(filters) && Matches(FamilyOf("posts"), r.key)
    ensures r.staleTime == Some(300000) && r.enabled
  {
    QueryOptions(PostsKey(filters), Some(PostStaleTime), true)
  }

  /** `usePost(id)`'s query settings: it runs only for a non-empty id. */
  function PostQuery(id: string): (r: QueryOptions)
    ensures r.key == PostKey(id) && !Matches(FamilyOf("posts"), r.key)
    ensures r.staleTime == Some(300000)
    ensures r.enabled <==> id != ""
  {
    QueryOptions(PostKey(id), Some(PostStaleTime), id != "")
  }

  /** After a post is created: every list is stale, nothing else is. */
  function AfterCreatePost(c: Cache): (r: Cache)
    ensures r.Keys == c.Keys
    ensures forall k :: k in r ==> r[k].value == c[k].value
    ensures forall k :: k in r ==> (r[k].invalidated <==> c[k].invalidated || k.PostsKey?)
  {
    Invalidate(c, FamilyOf("posts"))
  }

  /** After post `id` is updated: its detail and every list are stale, nothing else is. */
  function AfterUpdatePost(c: Cache, id: string): (r: Cache)
    ensures r.Keys == c.Keys
    ensures forall k :: k in r ==> r[k].value == c[k].value
    ensures forall k :: k in r ==> (r[k].invalidated <==> c[k].invalidated || k.PostsKey? || k == PostKey(id))
  {
    Invalidate(Invalidate(c, WholeKey(PostKey(id))), FamilyOf("posts"))
  }

  /** After a post is deleted: every list is stale; the deleted post's detail entry is
      not touched. */
  function AfterDeletePost(c: Cache): (r: Cache)
    ensures r.Keys == c.Keys
    ensures forall k :: k in r ==> r[k].value == c[k].value
    ensures forall k :: k in r ==> (r[k].invalidated <==> c[k].invalidated || k.PostsKey?)
  {
    Invalidate(c, FamilyOf("posts"))
  }

  /** An update marks no other post's detail stale, and a create or delete marks no
      detail stale at all; a deleted post's cached detail stays as fresh as it was. */
  lemma DetailsOutsideTheMutationStayAsTheyWere(c: Cache, id: string, other: string)
    requires other != id
    ensures PostKey(other) in c ==> AfterUpdatePost(c, id)[PostKey(other)] == c[PostKey(other)]
    ensures PostKey(id) in c ==> AfterCreatePost(c)[PostKey(id)] == c[PostKey(id)]
    ensures PostKey(id) in c ==> AfterDeletePost(c)[PostKey(id)] == c[PostKey(id)]
  {
  }

  /** Every list shown after a successful create, update or delete is refetched on its
      next use, whatever its age. */
  lemma ListsAreStaleAfterPostMutations(c: Cache, id: string, k: QueryKey, ageMs: nat)
    requires k in c && k.PostsKey?
    ensures !Fresh(AfterCreatePost(c)[k], ageMs, PostStaleTime)
    ensures !Fresh(AfterUpdatePost(c, id)[k], ageMs, PostStaleTime)
    ensures !Fresh(AfterDeletePost(c)[k], ageMs, PostStaleTime)
  {
  }

  /** `useCreatePost`: runs `createPost`; on success invalidates `['posts']`. */
  method CreatePost(client: QueryClient, data: PostsApi.CreatePostData,
                    auth: AuthApi.Response<AuthApi.Identity>, insert: AuthApi.Response<PostsApi.Post>)
    returns (r: Result<Option<PostsApi.Post>>)
    modifies client
    ensures r == PostsApi.CreatePost(data, auth, insert).result
    ensures client.entries == if r.Ok? then AfterCreatePost(old(client.entries)) else old(client.entries)
  {
    r := PostsApi.CreatePost(data, auth, insert).result;
    if r.Ok? {
      client.InvalidateQueries(FamilyOf("posts"));
    }
  }

  /** `useUpdatePost`: runs `updatePost`; on success invalidates `['post', id]`, then
      `['posts']`. */
  method UpdatePost(client: QueryClient, id: string, patch: PostsApi.PostPatch,
                    response: AuthApi.Response<PostsApi.Post>)
    returns (r: Result<Option<PostsApi.Post>>)
    modifies client
    ensures r == PostsApi.UpdatePostResult(response)
    ensures client.entries == if r.Ok? then AfterUpdatePost(old(client.entries), id) else old(client.entries)
  {
    r := PostsApi.UpdatePostResult(response);
    if r.Ok? {
      client.InvalidateQueries(WholeKey(PostKey(id)));
      client.InvalidateQueries(FamilyOf("posts"));
    }
  }

  /** `useDeletePost`: runs `deletePost`; on success invalidates `['posts']`. */
  method DeletePost(client: QueryClient, id: string, error: Option<AuthApi.BackendError>)
    returns (r: Result<()>)
    modifies client
    ensures r == PostsApi.DeletePostResult(error)
    ensures client.entries == if r.Ok? then AfterDeletePost(old(client.entries)) else old(client.entries)
  {
    r := PostsApi.DeletePostResult(error);
    if r.Ok? {
      client.InvalidateQueries(FamilyOf("posts"));
    }
  }

  /** `useIncrementViewCount`: runs `incrementViewCount` and has no success handler, so
      it never fails and never touches the cache (the method may not modify the client). */
  method IncrementViewCount(client: QueryClient, id: string, rpcError: Option<AuthApi.BackendError>)
    returns (r: Result<()>)
    ensures r.Ok?
  {
    r := PostsApi.IncrementViewCount(id, rpcError).result;
  }
}
