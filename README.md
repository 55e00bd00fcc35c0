# pygram-front state containers in Dafny

This project models the two Redux slices of the pygram-front social-network
client. Their behaviour does not depend on React, HTTP or the browser.

- **Feed state** (`postSlice`, module `PostSlice` in `post_slice.dfy`). It
  holds the post-request loading flag, the new-post composer flag, and the
  mirrored post and comment lists. Its extra reducers apply the server's
  responses: replace a list when it is fetched, append a created post or
  comment, and replace the posts whose id matches a like response. The file
  also holds the request that the like-toggle thunk `fetchAsyncPatchLiked`
  builds before its HTTP call. The thunk scans the post's current likers and
  drops the acting account if it is present, or appends it if it is not. It
  then chooses a full update (PUT, which also carries the title) or a partial
  update (PATCH).
- **Session state** (`authSlice`, module `AuthSlice` in `auth_slice.dfy`). It
  holds three independent modal flags (sign-in, sign-up, profile editor), the
  auth loading flag, the caller's own profile and the profile roster.
  `editNickname` overwrites one field of the own profile.

Each slice is a class whose fields the reducers assign in place.
`Value()` turns the fields into a datatype snapshot. Each reducer method
states its new snapshot in terms of the old one. The flag reducers also state
that they are idempotent: when the flag already has the target value, the
state does not change. The extra reducers of the feed return a fresh state
object in the source, so they are pure functions on `FeedState`.
`PostStore.Fulfil` installs what they return. The like-toggle builder exists
twice. `ToggleLike` is a pure specification. `BuildLikeRequest` is the loop
with the `isOverlapped` flag, as the thunk runs it, and it is proved equal to
`ToggleLike`.

The full update is guarded by `currentLiked.length === 1`
(`postSlice.ts:76`), not by the rebuilt list being empty.
`PutIffEmptyWhenNoDup` proves that the two agree when the current likers have
no duplicates. That precondition is an assumption about the lists the client
receives; the client itself never removes duplicates, and `ToggleKeepsNoDup`
shows only that its own request keeps a duplicate-free list duplicate-free.
`DuplicateLikerPatchesEmpty` shows that with likers `[7, 7]` and account 7 the
list empties but PATCH is still sent.

## Model

| member | source | states |
|---|---|---|
| `PostSlice.BuildLikeRequest` | src/features/post/postSlice.ts:56-94 | The scan with the `isOverlapped` flag and the verb choice build exactly the request `ToggleLike` specifies, for every list of likers |
| `PostSlice.Without` | src/features/post/postSlice.ts:63-70 | The entries copied by the scan never include the acting account, are no more than the input, and all come from the input |
| `PostSlice.WithoutAbsent` | src/features/post/postSlice.ts:63-70 | When the acting account is absent, the scan copies the current likers unchanged |
| `PostSlice.WithoutAppend` | src/features/post/postSlice.ts:63-70 | The scan distributes over concatenation, so the kept likers stay in their original order |
| `PostSlice.WithoutMultiset` | src/features/post/postSlice.ts:63-70 | Every other liker keeps its multiplicity, and every occurrence of the acting account is removed |
| `PostSlice.WithoutNoDupLength` | src/features/post/postSlice.ts:63-70 | In a duplicate-free list that contains the acting account, the scan drops exactly one entry |
| `PostSlice.WithoutNoDup` | src/features/post/postSlice.ts:63-70 | The scan keeps a duplicate-free list duplicate-free |
| `PostSlice.ToggleLike` | src/features/post/postSlice.ts:63-93 | Not yet liked: PATCH with the current likers followed by the acting account, and no title. Already liked: the outgoing list is the current list with every occurrence of the account removed. PUT is chosen if and only if the account is present and the list has length 1; PUT always sends an empty list and the title; PATCH never sends a title |
| `PostSlice.LikeRemoves` | src/features/post/postSlice.ts:64-70 | Already liked: the account is gone from the outgoing list and every other liker keeps its count |
| `PostSlice.PutIffEmptyWhenNoDup` | src/features/post/postSlice.ts:63-86 | For a duplicate-free list, PUT is chosen exactly when the outgoing list is empty |
| `PostSlice.DuplicateLikerPatchesEmpty` | src/features/post/postSlice.ts:63-93 | With likers `[7, 7]` and account 7 the outgoing list is empty, but PATCH is sent, because the guard is on the input length |
| `PostSlice.ToggleKeepsNoDup` | src/features/post/postSlice.ts:63-75 | Toggling keeps a duplicate-free liker list duplicate-free |
| `PostSlice.LikeThenUnlike` | src/features/post/postSlice.ts:63-86 | Liking and then toggling again on the result gives back the original likers |
| `PostSlice.UnlikeThenLike` | src/features/post/postSlice.ts:63-75 | Unliking and then liking gives back the same likers as a multiset, with the acting account last |
| `PostSlice.ReplaceById` | src/features/post/postSlice.ts:209-211 | The mapped list has the same length; entries with the response's id become the response, and all others are unchanged |
| `PostSlice.PostsFetched` | src/features/post/postSlice.ts:178-183 | A posts fetch sets the post list to the payload and leaves the comments and both flags unchanged |
| `PostSlice.PostCreated` | src/features/post/postSlice.ts:185-190 | A created post is appended: the length grows by one, the old list is a prefix, and the last entry is the payload; all else is unchanged |
| `PostSlice.CommentsFetched` | src/features/post/postSlice.ts:192-197 | A comments fetch sets the comment list to the payload and leaves the posts and both flags unchanged |
| `PostSlice.CommentCreated` | src/features/post/postSlice.ts:199-204 | A created comment is appended: the length grows by one, the old list is a prefix, and the last entry is the payload; all else is unchanged |
| `PostSlice.LikeUpdated` | src/features/post/postSlice.ts:206-213 | A like response keeps the post list's length and id order, replaces every post with a matching id, and leaves other posts, the comments and the flags unchanged |
| `PostSlice.LikeUpdatedAbsent` | src/features/post/postSlice.ts:206-213 | A like response whose id matches no post leaves the state unchanged; nothing is appended |
| `PostSlice.LikeUpdatedIdempotent` | src/features/post/postSlice.ts:206-213 | Applying the same like response twice equals applying it once |
| `PostSlice.ExtraReducer` | src/features/post/postSlice.ts:176-214 | No response case touches the loading or composer flag; the post cases keep the comments and the comment cases keep the posts |
| `PostSlice.PostStore.constructor` | src/features/post/postSlice.ts:130-155 | Initial feed: both flags are false, and each list holds one placeholder entry (the post placeholder is liked by account 0) |
| `PostSlice.PostStore.FetchPostStart` | src/features/post/postSlice.ts:159-161 | Sets `isLoadingPost` to true and changes nothing else; a no-op when it is already true |
| `PostSlice.PostStore.FetchPostEnd` | src/features/post/postSlice.ts:163-165 | Sets `isLoadingPost` to false and changes nothing else; a no-op when it is already false |
| `PostSlice.PostStore.SetOpenNewPost` | src/features/post/postSlice.ts:167-169 | Sets `openNewPost` to true and changes nothing else; a no-op when it is already true |
| `PostSlice.PostStore.ResetOpenNewPost` | src/features/post/postSlice.ts:171-173 | Sets `openNewPost` to false and changes nothing else; a no-op when it is already false |
| `PostSlice.PostStore.Fulfil` | src/features/post/postSlice.ts:176-214 | When a response arrives, the store becomes what the extra reducer returns for it |
| `AuthSlice.AuthStore.constructor` | src/features/auth/authSlice.ts:13-40 | Initial session: sign-in open; sign-up, profile and loading false; own profile and the single roster entry are the empty sentinel |
| `AuthSlice.AuthStore.FetchCredStart` | src/features/auth/authSlice.ts:44-46 | Sets `isLoadingAuth` to true and changes nothing else; a no-op when it is already true |
| `AuthSlice.AuthStore.FetchCredEnd` | src/features/auth/authSlice.ts:48-50 | Sets `isLoadingAuth` to false and changes nothing else; a no-op when it is already false |
| `AuthSlice.AuthStore.SetOpenSignIn` | src/features/auth/authSlice.ts:52-54 | Sets `openSignIn` to true and leaves the other flags, the own profile and the roster unchanged; idempotent |
| `AuthSlice.AuthStore.ResetOpenSignIn` | src/features/auth/authSlice.ts:56-58 | Sets `openSignIn` to false and changes nothing else; idempotent |
| `AuthSlice.AuthStore.SetOpenSignUp` | src/features/auth/authSlice.ts:60-62 | Sets `openSignUp` to true and changes nothing else; idempotent |
| `AuthSlice.AuthStore.ResetOpenSignUp` | src/features/auth/authSlice.ts:64-66 | Sets `openSignUp` to false and changes nothing else; idempotent |
| `AuthSlice.AuthStore.SetOpenProfile` | src/features/auth/authSlice.ts:68-70 | Sets `openProfile` to true and changes nothing else; idempotent |
| `AuthSlice.AuthStore.ResetOpenProfile` | src/features/auth/authSlice.ts:72-74 | Sets `openProfile` to false and changes nothing else; idempotent |
| `AuthSlice.WithNickname` | src/features/auth/authSlice.ts:76-78 | After the nickname edit, the own profile's nickname is the payload; its id, owner, creation date and image, the flags and the roster are unchanged |
| `AuthSlice.AuthStore.EditNickname` | src/features/auth/authSlice.ts:76-78 | The store's new snapshot is `WithNickname` of the old snapshot and the payload |
| `AuthSlice.BothModalsOpen` | src/features/auth/authSlice.ts:52-66 | The flags are independent: opening sign-up from the initial state leaves sign-in open, so a state with both open is reachable |
| `AuthSlice.NicknameLastWriterWins` | src/features/auth/authSlice.ts:76-78 | For every snapshot, editing the nickname to `a` and then `b` gives the same snapshot as editing it to `b` alone |

## Left out

- HTTP and storage: the axios calls, the `Authorization` header, the stored JWT and the multipart form encoding. A thunk is modelled either as the request it builds (`BuildLikeRequest`) or as the response that reaches the reducer (`Fulfilled`).
- The form carries each liker id as a string (`String(current)`). The model keeps the ids as integers; the string encoding is part of the transport.
- The post id in the like request's URL is only passed through to the HTTP call, so it is not part of `LikeRequest`.
- Fetch failures: a rejected thunk has no reducer case in either slice, so a failed request leaves the lists unchanged; nothing is modelled for it.
- The profile thunks (own profile, roster, create, update) and their reducers are imported by the views but are not defined in `authSlice.ts`, so they are not part of this model. Neither is the dangling `selectCount` selector.
- The selectors only read one field, and the React components (`Auth.tsx`, `Core.tsx`, `Post.tsx`, `EditProfile.tsx`, `NewPost.tsx`) are view code. Their dispatch sequences and derived values (comment filtering, the `checked` test, the reversed render order) are not modelled. Nor is the form validation they use.
- Redux Toolkit machinery: action creators and Immer drafts. Reducers are modelled directly as updates to the store's fields.
- Concurrency: overlapping like requests whose responses land in either order. The model covers sequential dispatch only.
