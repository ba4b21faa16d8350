/** The comment hooks of src/features/comments/hooks/useComments.ts: the comment-list
    query settings, and the create and delete mutations with the two cache entries their
    success handlers invalidate. The comment gateway itself is not part of this model:
    its answers are inputs. */
module CommentsHooks {
  import opened Wrappers
  import opened QueryCache

  /** `useComments(postId)`'s query settings: no stale window of its own, and it runs
      only for a non-empty post id. */
  function CommentsQuery(postId: string): (r: QueryOptions)
    ensures r.key == CommentsKey(postId) && Family(r.key) == "comments"
    ensures r.staleTime.None?
    ensures r.enabled <==> postId != ""
  {
    QueryOptions(CommentsKey(postId), None, postId != "")
  }

  /** What the comment form submits. */
  datatype CommentInput = CommentInput(content: string, isAnonymous: Option<bool>)

  /** What `createComment` receives. */
  datatype CreateCommentData = CreateCommentData(postId: string, content: string, isAnonymous: Option<bool>)

  /** The hook adds its own post id to the form's input. */
  function CreateCommentRequest(postId: string, input: CommentInput): (r: CreateCommentData)
    ensures r.postId == postId
    ensures r.content == input.content && r.isAnonymous == input.isAnonymous
  {
    CreateCommentData(postId, input.content, input.isAnonymous)
  }

  /** After a comment of `postId` is created or deleted: that post's comment list and
      its detail are stale, nothing else is. */
  function AfterCommentChange(c: Cache, postId: string): (r: Cache)
    ensures r.Keys == c.Keys
    ensures forall k :: k in r ==> r[k].value == c[k].value
    ensures forall k :: k in r ==>
              (r[k].invalidated <==> c[k].invalidated || k == CommentsKey(postId) || k == PostKey(postId))
  {
    Invalidate(Invalidate(c, WholeKey(CommentsKey(postId))), WholeKey(PostKey(postId)))
  }

  /** Comment changes leave every list entry as it was, so a list can keep showing an
      out-of-date comment count for as long as it stays fresh. */
  lemma CommentChangesLeaveListsAlone(c: Cache, postId: string, k: QueryKey, ageMs: nat, staleTime: nat)
    requires k in c && k.PostsKey?
    ensures AfterCommentChange(c, postId)[k] == c[k]
    ensures Fresh(AfterCommentChange(c, postId)[k], ageMs, staleTime) == Fresh(c[k], ageMs, staleTime)
  {
  }

  /** Creating and deleting have the same effect, and repeating it changes nothing. */
  lemma CommentChangeIdempotent(c: Cache, postId: string)
    ensures AfterCommentChange(AfterCommentChange(c, postId), postId) == AfterCommentChange(c, postId)
  {
  }

  /** `useCreateComment(postId)`: sends the input with the hook's post id; on success
      invalidates `['comments', postId]`, then `['post', postId]`. */
  method CreateComment(client: QueryClient, postId: string, input: CommentInput, outcome: Result<Comment>)
    returns (request: CreateCommentData, r: Result<Comment>)
    modifies client
    ensures request == CreateCommentRequest(postId, input) && request.postId == postId
    ensures r == outcome
    ensures client.entries == if r.Ok? then AfterCommentChange(old(client.entries), postId) else old(client.entries)
  {
    request := CreateCommentRequest(postId, input);
    r := outcome;
    if r.Ok? {
      client.InvalidateQueries(WholeKey(CommentsKey(postId)));
      client.InvalidateQueries(WholeKey(PostKey(postId)));
    }
  }

  /** `useDeleteComment(postId)`: deletes by comment id; on success invalidates the same
      two entries. */
  method DeleteComment(client: QueryClient, postId: string, commentId: string, outcome: Result<()>)
    returns (r: Result<()>)
    modifies client
    ensures r == outcome
    ensures client.entries == if r.Ok? then AfterCommentChange(old(client.entries), postId) else old(client.entries)
  {
    r := outcome;
    if r.Ok? {
      client.InvalidateQueries(WholeKey(CommentsKey(postId)));
      client.InvalidateQueries(WholeKey(PostKey(postId)));
    }
  }
}
