# Seller community: a Dafny model of the client core

This project models the client-side core of a small community site for online
sellers. Users sign up and sign in, then write posts in four categories. Readers
search and page through the published posts, like them and comment on them.

The model covers the parts of the web client that decide things:

- the auth gateway (`signUp`, `signIn`, `signOut`, `getCurrentUser`,
  `getUserProfile`) and how it translates backend errors into user messages;
- the auth provider's state machine, which debounces auth notifications;
- the route guard in `middleware.ts`;
- the sign-up and reset-password form rules, the password-strength meter and
  the platform toggle;
- nickname masking in the comment list;
- the posts gateway: the list query it builds from its filters, the detail
  query, and the create, update, delete, like and view-count calls;
- the query cache the hooks share, and what each hook's success handler
  does to it.

The backend, the network and the auth service are not modelled. Every answer
they give is an input to the function or method that receives it: a
`Response` (data or error), or an `Attempt` (threw, or completed with a
`Response`). What each gateway function returns, or the message of the error
it throws, is a `Result`.

## Layout

| file | module | what it holds |
|---|---|---|
| `wrappers.dfy` | `Wrappers` | `Option`, `Result` |
| `masking.dfy` | `Masking` | `maskNickname` and the comment author label |
| `reset_password.dfy` | `ResetPassword` | password strength meter and the reset form's rules |
| `signup_form.dfy` | `SignUpForm` | sign-up form rules and the platform toggle (class `SignUpFormState`) |
| `auth_api.dfy` | `AuthApi` | auth gateway and its error messages |
| `auth_provider.dfy` | `AuthProvider` | auth state machine (class `AuthProviderState`) |
| `middleware.dfy` | `Middleware` | route guard |
| `search_filter.dfy` | `SearchFilter` | how PostgREST reads an `or=(…)` filter, and the search filter text |
| `posts_api.dfy` | `PostsApi` | posts gateway: query building, row selection, paging, failure messages |
| `query_cache.dfy` | `QueryCache` | shared query cache (class `QueryClient`) |
| `posts_hooks.dfy` | `PostsHooks` | post list/detail queries and mutations |
| `post_like_hooks.dfy` | `PostLikeHooks` | like status query and the like toggle's in-place cache write |
| `comments_hooks.dfy` | `CommentsHooks` | comment list query and mutations |

State that the source changes in place is a class: the sign-up form's
selected platforms, the auth provider's `user`/`loading`/timer, and the
query client's entries. Each method's `ensures` ties its new state to a
function of its old state (`Step`, `TogglePlatform`, `Invalidate`,
`SetData`, …). The properties are proved as lemmas about those functions.

## Where the code and the design notes differ

The model follows the code in each case.

- Deleting a post invalidates only the `['posts']` lists
  (src/features/posts/hooks/usePosts.ts:55). The design notes also list the
  post's own `['post', id]` entry. `PostsHooks.AfterDeletePost` leaves that
  entry as it was, and `PostsHooks.DetailsOutsideTheMutationStayAsTheyWere`
  states it.
- The design notes say that deleting a comment which removed no row should
  fail. The hook does not check this, so its outcome is an input to
  `CommentsHooks.DeleteComment`.
- The design notes describe an invalidated entry as missing. The query
  library keeps the data and marks the entry stale, and `QueryCache.Entry`
  models exactly that.
- `getPosts` pastes the search keyword into the filter text unquoted
  (src/features/posts/api.ts:85), so a search means what the design notes
  say only for keywords without comma, double quote or backslash. See
  "## Findings". `PostsApi.PostsQueryOf` sends the text as written;
  `PostsApi.QuotedPostsQueryOf` is the corrected query.

## Model

| member | source | states |
|---|---|---|
| Masking.MaskNickname | src/lib/utils.ts:18-31 | the result has the nickname's length and its first character, and every later character is `*`; an empty or one-character nickname comes back unchanged |
| Masking.MaskIdempotent | src/lib/utils.ts:27-30 | masking a masked nickname changes nothing |
| Masking.MaskRevealsOnlyLengthAndFirst | src/lib/utils.ts:27-30 | two nicknames mask alike exactly when they have the same length and the same first character |
| Masking.MaskDocExamples | src/lib/utils.ts:14-16 | the documented examples: "이한솔" → "이**", "홍길동" → "홍**", "김" → "김" (and "" → "") |
| Masking.CommentDisplayName | src/features/comments/components/comment-list.tsx:73-75 | an anonymous comment shows "익명"; otherwise the masked profile nickname, or the masked "알 수 없음" when the nickname is missing or empty |
| ResetPassword.Score | src/features/auth/components/reset-password-form.tsx:33-50 | the raw score counts the seven criteria that hold, so it is at most 7 |
| ResetPassword.Band | src/features/auth/components/reset-password-form.tsx:52-60 | levels run 1..4; level 1 exactly for score ≤ 2, level 4 exactly for score ≥ 6 |
| ResetPassword.StrengthOf | src/features/auth/components/reset-password-form.tsx:28-61 | level 0 (empty label and colour) exactly for the empty password |
| ResetPassword.GetPasswordStrength | src/features/auth/components/reset-password-form.tsx:28-61 | the step-by-step count returns `StrengthOf(password)`, and a non-empty password gets level 1..4 |
| ResetPassword.StrengthBands | src/features/auth/components/reset-password-form.tsx:52-60 | a non-empty password's level is the band of its score: ≤2 weak, ≤4 fair, 5 strong, otherwise very strong |
| ResetPassword.StrengthMonotone | src/features/auth/components/reset-password-form.tsx:33-50 | typing more characters never lowers the meter |
| ResetPassword.ContainsClassAppend | src/features/auth/components/reset-password-form.tsx:41-50 | a character class found in a password is still found after characters are appended |
| ResetPassword.ResetPasswordIssues | src/features/auth/components/reset-password-form.tsx:14-24 | no issue exactly when the schema accepts; a mismatch is reported under `confirmPassword`; password issues carry only the three password messages |
| ResetPassword.FirstError | src/features/auth/components/reset-password-form.tsx:117-118 | a field shows nothing exactly when no issue has its path, and otherwise the message of the first issue with its path |
| ResetPassword.FirstErrorSkips | src/features/auth/components/reset-password-form.tsx:117-118 | issues of other fields in front do not change what a field shows |
| ResetPassword.FirstBrokenRuleIsShown | src/features/auth/components/reset-password-form.tsx:14-20 | a password breaking several rules shows the first: too short before no digit; an empty confirmation shows its own message |
| ResetPassword.MismatchShownUnderConfirmation | src/features/auth/components/reset-password-form.tsx:21-24 | a valid password with a different confirmation gives exactly one issue, the mismatch, shown under the confirmation field and not under the password field |
| ResetPassword.AcceptedPasswordIsAtLeastFair | src/features/auth/components/reset-password-form.tsx:14-24 | every password the form accepts shows at least "보통" (level 2) on the meter |
| SignUpForm.IssueIf | src/features/auth/components/signup-form.tsx:15-35 | one issue with the given field and message when the check fails, none otherwise |
| SignUpForm.FieldIssues | src/features/auth/components/signup-form.tsx:15-35 | no field issue exactly when every field rule holds; none of them is a confirmation issue |
| SignUpForm.SignUpIssues | src/features/auth/components/signup-form.tsx:15-39 | no issue exactly when the schema accepts; a mismatch issue under `passwordConfirm` exactly when the passwords differ, and that is the only message under that path |
| SignUpForm.RemoveAll | src/features/auth/components/signup-form.tsx:85 | removes every copy of the platform and nothing else (as multisets); a list without it is unchanged |
| SignUpForm.RemoveAllKeepsNoDuplicates | src/features/auth/components/signup-form.tsx:85 | filtering keeps a duplicate-free list duplicate-free |
| SignUpForm.RemoveAllOfAppended | src/features/auth/components/signup-form.tsx:85-86 | removing a just-appended platform gives the list back |
| SignUpForm.RemoveAllAppend | src/features/auth/components/signup-form.tsx:85 | filtering a concatenation filters each part, so the kept platforms stay in their order |
| SignUpForm.RemoveAllAt | src/features/auth/components/signup-form.tsx:85 | in a duplicate-free list, removing the platform at `i` leaves exactly the platforms before and after it, in order |
| SignUpForm.RemoveAllInPlace | src/features/auth/components/signup-form.tsx:85 | a platform of a duplicate-free list is removed where it stands |
| SignUpForm.TogglePlatform | src/features/auth/components/signup-form.tsx:83-86 | an absent platform is appended at the end; a present one is removed (as multisets every copy and nothing else), and in a duplicate-free list the others keep their order |
| SignUpForm.ToggleKeepsNoDuplicates | src/features/auth/components/signup-form.tsx:83-86 | the selection never holds a platform twice |
| SignUpForm.ToggleTwiceFromAbsentRestores | src/features/auth/components/signup-form.tsx:83-86 | toggling an unselected platform twice restores the selection |
| SignUpForm.ToggleTwiceFromPresentMovesToEnd | src/features/auth/components/signup-form.tsx:83-86 | toggling a selected platform twice keeps the same platforms but moves it to the end |
| SignUpForm.ToggleTwiceCanReorder | src/features/auth/components/signup-form.tsx:83-86 | a concrete case: ["쿠팡", "11번가"] toggled twice on "쿠팡" becomes ["11번가", "쿠팡"] |
| SignUpForm.SignUpFormState.constructor | src/features/auth/components/signup-form.tsx:47 | both copies start empty, so equal and duplicate-free |
| SignUpForm.SignUpFormState.HandlePlatformChange | src/features/auth/components/signup-form.tsx:83-90 | the selection and the form's `online_platforms` value both become the toggled list; `Valid()` (equal copies, no platform twice) is kept |
| AuthApi.SuffixAfterPrefix | src/features/auth/api.ts:41 | the backend message can be read back after the fixed prefix of a composed message |
| AuthApi.SignUpErrorMessage | src/features/auth/api.ts:22-42 | known backend messages get their Korean translation; any other message is appended to "회원가입에 실패했습니다: " |
| AuthApi.SignUpErrorMessageInjective | src/features/auth/api.ts:24-42 | different backend messages give different user messages |
| AuthApi.SignInErrorMessage | src/features/auth/api.ts:92-120 | known messages are translated; an unknown message that mentions 이메일 or 비밀번호 is shown as it is; any other is appended to "로그인에 실패했습니다: " |
| AuthApi.SignInKeepsUntranslatedText | src/features/auth/api.ts:113-120 | an unknown backend message is always contained in the message shown |
| AuthApi.ProfileErrorMessage | src/features/auth/api.ts:64-71 | code 42703 → schema outdated, 23505 → user already exists, otherwise "프로필 생성 실패: " + message |
| AuthApi.ProfileFailureDistinctFromIdentityFailure | src/features/auth/api.ts:22-71 | a profile failure can never be mistaken for an identity failure |
| AuthApi.SignUp | src/features/auth/api.ts:4-80 | sends email, password and nickname; inserts the profile exactly when the identity call succeeded with a user; succeeds exactly when that insert did too, returning the identity answer; each failure has its message |
| AuthApi.SignOut | src/features/auth/api.ts:128-136 | fails exactly when the backend reports an error, with the backend's message |
| AuthApi.DegradedUser | src/features/auth/api.ts:179-191 | without a profile the user keeps id and email, uses the metadata nickname or "Unknown", and has no profile fields |
| AuthApi.MergedUser | src/features/auth/api.ts:197-205 | id and email come from the identity, every other field from the profile |
| AuthApi.GetCurrentUser | src/features/auth/api.ts:138-210 | a user exactly when the session and the user were delivered; id and email from the identity; degraded when the profile read failed, merged when it was delivered; null on any throw |
| AuthApi.GetUserProfile | src/features/auth/api.ts:212-226 | the profile exactly when the read reported no error and returned a row |
| AuthProvider.HandleNotification | src/features/auth/components/auth-provider.tsx:54-68 | SIGNED_OUT or a session without a user clears the user; SIGNED_IN, TOKEN_REFRESHED and INITIAL_SESSION with a session user refetch (an exception clears the user); any other event keeps the user |
| AuthProvider.Step | src/features/auth/components/auth-provider.tsx:43-94 | a notification replaces the pending one; the timer applies it and ends loading; the first fetch sets the user; a successful sign-out clears the user; unmount drops the pending notification |
| AuthProvider.Notifies | src/features/auth/components/auth-provider.tsx:43-52 | one notification input per auth event, in order |
| AuthProvider.RunAppend | src/features/auth/components/auth-provider.tsx:43-94 | running two input sequences in a row is running their concatenation |
| AuthProvider.BurstKeepsOnlyLast | src/features/auth/components/auth-provider.tsx:46-52 | a burst of notifications leaves only the last one pending |
| AuthProvider.OnlyLastNotificationApplies | src/features/auth/components/auth-provider.tsx:46-68 | when the timer fires after a burst, the result is that of the last notification alone |
| AuthProvider.LoadingNeverReturns | src/features/auth/components/auth-provider.tsx:69-74 | once loading has ended, no input brings it back |
| AuthProvider.NotificationStormCollapses | src/features/auth/components/auth-provider.tsx:46-68 | SIGNED_IN, SIGNED_OUT, SIGNED_IN within one debounce window keeps loading on until the timer fires, then leaves the refetched user signed in |
| AuthProvider.SignOutThenSignedOutClearsUser | src/features/auth/components/auth-provider.tsx:86-94 | a successful sign-out followed by its SIGNED_OUT event leaves no user, no pending notification and loading off, from any state |
| AuthProvider.AuthProviderState.constructor | src/features/auth/components/auth-provider.tsx:18-20 | no user, loading, no timer |
| AuthProvider.AuthProviderState.IsAuthenticated | src/features/auth/components/auth-provider.tsx:96 | authenticated exactly when there is a user |
| AuthProvider.AuthProviderState.InitialFetchDone | src/features/auth/components/auth-provider.tsx:25-36 | the first fetch sets the user (null on failure) and ends loading |
| AuthProvider.AuthProviderState.Notify | src/features/auth/components/auth-provider.tsx:43-52 | a notification cancels the pending timer and schedules a new one; user and loading are unchanged |
| AuthProvider.AuthProviderState.TimerFire | src/features/auth/components/auth-provider.tsx:46-74 | a pending notification is applied, the timer is cleared and loading ends |
| AuthProvider.AuthProviderState.SignOut | src/features/auth/components/auth-provider.tsx:86-94 | returns the gateway's result; on success there is no user, on failure the user is kept |
| AuthProvider.AuthProviderState.Unmount | src/features/auth/components/auth-provider.tsx:78-83 | unmounting cancels the pending timer |
| Middleware.Decide | middleware.ts:36-50 | redirect to `/` exactly for a signed-in user on an `/auth` page; to `/auth/login` exactly for a signed-out user on a `/write` or `/profile` page; otherwise pass through |
| Middleware.AuthAndProtectedDisjoint | middleware.ts:36-38 | no path is both an auth page and a protected page |
| Middleware.RedirectsMatchTheUser | middleware.ts:41-48 | a signed-in user is never sent to login, a signed-out user never sent home |
| Middleware.NoRedirectLoop | middleware.ts:41-48 | the target of a redirect passes through for the same user |
| Middleware.PrefixExamples | middleware.ts:36-38 | plain prefix tests: "/writer" is protected and "/authority" is an auth page |
| SearchFilter.SplitAt | src/features/posts/api.ts:85 | the conditions an `or` filter text splits into, at commas outside double quotes |
| SearchFilter.SplitJoin | src/features/posts/api.ts:85 | joining segments with commas and splitting gives the segments back |
| SearchFilter.ParseAll | src/features/posts/api.ts:85 | one parse result per condition, in order |
| SearchFilter.AsWrittenReadsBackForPlainKeywords | src/features/posts/api.ts:84-86 | for a keyword without `,` `"` `\`, the filter as written reads back as title-or-content `ilike %keyword%` |
| SearchFilter.CommaKeywordBreaksSearch | src/features/posts/api.ts:85 | a keyword with a comma splits the filter into four conditions, one of which does not parse, so the search is not the intended one |
| SearchFilter.UnescapeEscape | src/features/posts/api.ts:85 | unescaping an escaped text gives the text back |
| SearchFilter.SearchFilterReadsBack | src/features/posts/api.ts:84-86 | with the keyword quoted and escaped, the filter reads back as the two intended conditions for every keyword |
| PostsApi.PostsQueryOf | src/features/posts/api.ts:59-102 | published only; a category filter exactly for a truthy category; a search filter exactly for a truthy keyword, whose text is the keyword pasted in unquoted; default order newest first, ascending only when asked; a limit exactly for a truthy limit; a range exactly for a truthy offset, `limit || 10` rows wide |
| PostsApi.FiltersOf | src/features/posts/api.ts:78-86 | the published filter comes first; a category filter, carrying the given category, exactly for a truthy category; a search filter exactly for a truthy keyword, the source's unquoted one or the corrected one as asked; never an id filter |
| PostsApi.QuotedPostsQueryOf | src/features/posts/api.ts:59-102 | the corrected query: the same ordering, rows and filters, except that the keyword filter quotes and escapes the keyword |
| PostsApi.BuildPostsQuery | src/features/posts/api.ts:69-102 | the query built step by step is `PostsQueryOf(options)` |
| PostsApi.SelectsAppend | src/features/posts/api.ts:78-86 | adding filters selects the rows both sets of filters select |
| PostsApi.KeywordFilterReadsBack | src/features/posts/api.ts:85 | the keyword filter is read as the title and content conditions: the corrected one always, the source's for keywords without comma, double quote or backslash |
| PostsApi.SearchSelects | src/features/posts/api.ts:85 | for those keywords the keyword filter admits a post exactly when the keyword is like its title or content |
| PostsApi.FiltersReadable | src/features/posts/api.ts:78-86 | for those keywords the server can read every filter |
| PostsApi.FiltersSelect | src/features/posts/api.ts:78-86 | for those keywords a post is selected exactly when published, in the category when one is given, and with the keyword in its title or content when one is given |
| PostsApi.PostsQuerySelects | src/features/posts/api.ts:78-86 | for a keyword without comma, double quote or backslash, the query as written is readable and selects exactly the published posts, in the category when one is given, with the keyword in the title or content when one is given |
| PostsApi.QuotedPostsQuerySelects | src/features/posts/api.ts:78-86 | the corrected query is readable and selects exactly those posts for every keyword |
| PostsApi.CommaKeywordQueryIsRejected | src/features/posts/api.ts:85 | as written, a keyword `before,after` makes a query with a condition the server cannot read, so the search fails; the corrected query is readable |
| PostsApi.CommaKeywordExample | src/features/posts/api.ts:85 | searching for "쿠팡,네이버" sends a filter the server cannot read |
| PostsApi.PostQueryOf | src/features/posts/api.ts:125-126 | the detail query filters on the id, then on `is_published` |
| PostsApi.OnlyPublishedPostsAreRead | src/features/posts/api.ts:78 | any post a list or detail query returns is published |
| PostsApi.Clamp | src/features/posts/api.ts:96-102 | a row bound clamped to 0..n |
| PostsApi.Window | src/features/posts/api.ts:96-102 | the returned rows form a window inside the result, from the range when there is one, else the first `limit` rows |
| PostsApi.PagesTile | src/features/posts/api.ts:96-102 | paging with `offset = page * size` and `limit = size` returns consecutive windows of `size` rows, page 0 included |
| PostsApi.EmptyTextOptionsAreOmitted | src/features/posts/api.ts:80-86 | an empty category or keyword builds the same query as an omitted one |
| PostsApi.ZeroNumberOptionsAreOmitted | src/features/posts/api.ts:88-102 | a zero limit or offset builds the same query as an omitted one; no options at all ask for every published post, newest first |
| PostsApi.FailureMessage | src/features/posts/api.ts:52-54 | the operation's prefix followed by the backend message |
| PostsApi.FailureMessageIdentifiesOperation | src/features/posts/api.ts:53 | equal failure messages mean the same operation and the same backend message |
| PostsApi.CreatePost | src/features/posts/api.ts:30-57 | login required; inserts the form's fields under the signed-in user's id; succeeds exactly when there is a user and the insert reports no error; returns the inserted row |
| PostsApi.TogglePostLike | src/features/posts/api.ts:184-204 | login required; calls the procedure with the post and the user; fails exactly on an error, with the like prefix; returns the first answer row |
| PostsApi.CheckPostLike | src/features/posts/api.ts:207-228 | never fails; false without a user or on a procedure error; true only when the procedure answered true |
| PostsApi.IncrementViewCount | src/features/posts/api.ts:171-181 | always calls the procedure with the id and never fails |
| PostsApi.GetPostsResult | src/features/posts/api.ts:104-110 | fails exactly on an error, with the list prefix; otherwise the rows |
| PostsApi.GetPostResult | src/features/posts/api.ts:129-133 | fails exactly on an error, with the read prefix; otherwise the row |
| PostsApi.Patched | src/features/posts/api.ts:139-149 | fields the patch gives are replaced, omitted ones kept; id, author and like count never change |
| PostsApi.PatchKeepsOmittedFields | src/features/posts/api.ts:136-149 | an empty patch changes nothing, and applying a patch twice is applying it once |
| PostsApi.UpdatePostResult | src/features/posts/api.ts:151-155 | fails exactly on an error, with the update prefix; otherwise the updated row |
| PostsApi.DeletePostResult | src/features/posts/api.ts:158-169 | fails exactly on an error, with the delete prefix |
| QueryCache.PostsPrefixMatchesOnlyLists | src/features/posts/hooks/usePosts.ts:29 | `['posts']` matches every list key and nothing else; `['post']` matches every detail key and nothing else |
| QueryCache.Invalidate | src/features/posts/hooks/usePosts.ts:29 | same keys and data; an entry is stale exactly when it was already stale or the prefix matches it |
| QueryCache.SetData | src/features/posts/hooks/usePostLike.ts:25 | the key holds the value, fresh, created if absent; no other entry changes |
| QueryCache.UpdateData | src/features/posts/hooks/usePostLike.ts:28-34 | an absent entry stays absent; a present one holds the updated data, fresh; no other entry changes |
| QueryCache.UpdateMatching | src/features/posts/hooks/usePostLike.ts:37-44 | every matching entry holds its updated data, fresh; the others are unchanged; nothing is created |
| QueryCache.InvalidateKeepsWellTyped | src/features/posts/hooks/usePosts.ts:29 | invalidation keeps every entry holding its query's kind of data |
| QueryCache.InvalidateIdempotentAndCommutative | src/features/posts/hooks/usePosts.ts:42-43 | invalidating twice is invalidating once, and two invalidations commute |
| QueryCache.InvalidatedIsStale | src/features/posts/hooks/usePosts.ts:9 | an invalidated entry is refetched whatever its age; entries the prefix misses keep their freshness |
| QueryCache.QueryClient.constructor | src/features/posts/hooks/usePosts.ts:23 | the shared client starts empty |
| QueryCache.QueryClient.InvalidateQueries | src/features/posts/hooks/usePosts.ts:29 | the entries become `Invalidate(old entries, prefix)` |
| QueryCache.QueryClient.SetQueryData | src/features/posts/hooks/usePostLike.ts:25 | the entries become `SetData(old entries, key, value)` |
| QueryCache.QueryClient.UpdateQueryData | src/features/posts/hooks/usePostLike.ts:28-34 | the entries become `UpdateData(old entries, key, updater)` |
| QueryCache.QueryClient.SetQueriesData | src/features/posts/hooks/usePostLike.ts:37-44 | the entries become `UpdateMatching(old entries, prefix, updater)` |
| PostsHooks.PostsQuery | src/features/posts/hooks/usePosts.ts:5-11 | key `['posts', filters]`, fresh for five minutes, always enabled |
| PostsHooks.PostQuery | src/features/posts/hooks/usePosts.ts:13-20 | key `['post', id]`, outside the `['posts']` prefix, fresh for five minutes, enabled exactly for a non-empty id |
| PostsHooks.AfterCreatePost | src/features/posts/hooks/usePosts.ts:27-30 | exactly the lists become stale |
| PostsHooks.AfterUpdatePost | src/features/posts/hooks/usePosts.ts:40-44 | exactly the lists and the updated post's detail become stale |
| PostsHooks.AfterDeletePost | src/features/posts/hooks/usePosts.ts:53-56 | exactly the lists become stale |
| PostsHooks.DetailsOutsideTheMutationStayAsTheyWere | src/features/posts/hooks/usePosts.ts:27-56 | an update leaves other posts' details as they were; a create or delete leaves every detail, including the deleted post's, as it was |
| PostsHooks.ListsAreStaleAfterPostMutations | src/features/posts/hooks/usePosts.ts:27-56 | after a successful create, update or delete every cached list is refetched on its next use |
| PostsHooks.CreatePost | src/features/posts/hooks/usePosts.ts:22-31 | returns `createPost`'s result; the cache becomes `AfterCreatePost` on success and is unchanged on failure |
| PostsHooks.UpdatePost | src/features/posts/hooks/usePosts.ts:33-45 | returns `updatePost`'s result; the cache becomes `AfterUpdatePost` on success and is unchanged on failure |
| PostsHooks.DeletePost | src/features/posts/hooks/usePosts.ts:47-57 | returns `deletePost`'s result; the cache becomes `AfterDeletePost` on success and is unchanged on failure |
| PostsHooks.IncrementViewCount | src/features/posts/hooks/usePosts.ts:59-64 | always succeeds and does not touch the cache |
| PostLikeHooks.PostLikeQuery | src/features/posts/hooks/usePostLike.ts:8-14 | key `['post-like', postId]`, fresh for one minute |
| PostLikeHooks.SetLikeCount | src/features/posts/hooks/usePostLike.ts:39-43 | same length and ids; only `like_count` changes, and only on posts with the id |
| PostLikeHooks.SetLikeCountIdempotent | src/features/posts/hooks/usePostLike.ts:39-43 | writing the same count twice is writing it once |
| PostLikeHooks.SetLikeCountOfOtherPosts | src/features/posts/hooks/usePostLike.ts:39-43 | a list without the post is unchanged |
| PostLikeHooks.AfterToggle | src/features/posts/hooks/usePostLike.ts:23-44 | the status entry holds the new status; the cached detail and every cached list hold the new count; all three are fresh; other entries are untouched and nothing becomes stale |
| PostLikeHooks.AfterToggleKeepsWellTyped | src/features/posts/hooks/usePostLike.ts:25-44 | the write keeps every entry holding its query's kind of data |
| PostLikeHooks.AfterToggleIdempotent | src/features/posts/hooks/usePostLike.ts:25-44 | writing the same answer twice is writing it once |
| PostLikeHooks.AfterToggleCreatesOnlyTheStatus | src/features/posts/hooks/usePostLike.ts:28-44 | the only entry the write can create is the status entry |
| PostLikeHooks.ToggleLike | src/features/posts/hooks/usePostLike.ts:17-60 | returns `togglePostLike`'s result; the cache becomes `AfterToggle` when there is an answer row and is unchanged otherwise |
| CommentsHooks.CommentsQuery | src/features/comments/hooks/useComments.ts:7-13 | key `['comments', postId]`, the client's default stale window, enabled exactly for a non-empty post id |
| CommentsHooks.CreateCommentRequest | src/features/comments/hooks/useComments.ts:19-23 | the request carries the hook's post id and the form's content and anonymity |
| CommentsHooks.AfterCommentChange | src/features/comments/hooks/useComments.ts:24-27 | exactly that post's comment list and its detail become stale |
| CommentsHooks.CommentChangesLeaveListsAlone | src/features/comments/hooks/useComments.ts:24-27 | post lists stay as they were, so a list can show an old comment count while it is fresh |
| CommentsHooks.CommentChangeIdempotent | src/features/comments/hooks/useComments.ts:36-39 | repeating the change's invalidation changes nothing |
| CommentsHooks.CreateComment | src/features/comments/hooks/useComments.ts:15-29 | sends the request with the hook's post id; the cache becomes `AfterCommentChange` on success and is unchanged on failure |
| CommentsHooks.DeleteComment | src/features/comments/hooks/useComments.ts:31-41 | the cache becomes `AfterCommentChange` on success and is unchanged on failure |

## Left out

- Network, cookies, timers and rendering. Backend, auth-service and procedure answers are inputs; the cookie `setAll` callback of `middleware.ts` is not modelled.
- The 100 ms debounce and the 300 ms redirect delays: only the order of notifications and timer firings is modelled, not their timing or any async interleaving.
- Query library internals: refetching, request deduplication, key hashing, garbage collection (`gcTime`) and retries. A query still waiting for its first answer is not a cache entry.
- The client's default stale window, which the comment list uses; it is not in the modelled files.
- The exact e-mail syntax zod accepts: the sign-up form takes it as a parameter `isEmail`.
- Relative dates (date-fns), the Open Graph image route, page components and toast texts.
- `src/features/posts/hooks/usePost.ts`: it duplicates `usePost` in `usePosts.ts`, which is modelled.
- `updatePassword` and `requestPasswordReset` are called by the reset and forgot-password forms but are not part of the given auth gateway; they are not part of this model.
- `src/features/comments/api.ts` and `src/features/posts/server-api.ts` are not part of this model. Comment gateway answers are inputs to the comment hooks.
- JavaScript strings are UTF-16 code units, while the model uses Dafny characters. They differ only for characters outside the Basic Multilingual Plane, where `length` and `[0]` would count surrogates.
- Numbers are unbounded integers: no NaN, no fractions, no float rounding. `best_score` is ordered on as a column but never computed here.
- Backend procedures (`toggle_post_like`, `check_post_like`, `increment_view_count`) and row-level security: only their answers are modelled.
- The post category is a plain string: the four-value category type is not enforced by the gateway.
- Parentheses in a search keyword, which PostgREST also treats specially in `or=(…)`: only commas, quotes and backslashes are modelled.
- PostsApi.Window: a negative offset or limit is clamped to 0; PostgREST would reject the request.
- PostsApi.GetPostsResult: a null data array with no error is read as an empty list; the source would return null.
- PostsApi.TogglePostLike: a null data array is read as no row (`Ok(None)`); JavaScript would throw a TypeError on `data[0]`.
- PostsApi.CheckPostLike: a null answer without an error is read as false; the source returns null, which callers treat as false.
- PostLikeHooks.ToggleLike: when the answer has no row, `onSuccess` throws reading `is_liked` and the mutation reports that error; here the result stays `Ok(None)`, and as in the source nothing is written to the cache.

## Findings

| source | as written | input that shows it | evidently intended | confidence | as-written member | corrected member |
|---|---|---|---|---|---|---|
| src/features/posts/api.ts:85 | the search keyword is pasted unquoted into the PostgREST `or` filter text | a keyword with a comma, such as "쿠팡,네이버": the text splits into four conditions, and "네이버%" is not a condition at all | posts whose title or content contains the keyword, for every keyword | not executed | PostsApi.CommaKeywordQueryIsRejected | PostsApi.QuotedPostsQuerySelects |

`SearchFilter.AsWrittenSearchText` is the text as written, and
`SearchFilter.CommaKeywordBreaksSearch` proves the breakage for every keyword
`before,after` in which `after` has no dot. `SearchFilter.SearchFilterText`
wraps each pattern in double quotes and escapes `"` and `\`.
`SearchFilter.SearchFilterReadsBack` proves that it always reads back as the
two intended conditions. `PostsApi.PostsQueryOf` sends the text as written,
and `PostsApi.CommaKeywordQueryIsRejected` carries the breakage up to the list
query: its search fails. `PostsApi.QuotedPostsQueryOf` is the corrected query,
and `PostsApi.QuotedPostsQuerySelects` proves it selects as intended for every
keyword.
