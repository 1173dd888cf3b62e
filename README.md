# Swipe feed, profile set-up and post actions of a photo-sharing app

This project models, in Dafny, the client and server logic at the centre of a
small social photo-sharing web app:

- **The swipe-card session** (`components/card/SwipeCards.tsx`). Each feed tab
  ("recommend" and the following tab) keeps its card index and its pane
  (scroll) index in its own pair of shared atoms. Each `SwipeCards` component
  also holds a `noMoreCards` flag and the posts it loaded. Like, super-like and
  nope send a like request. They then reset the pane to 0 and move to the next
  card. Passing the last card goes back to card 0 and raises `noMoreCards`.
  An effect turns that flag into one refetch and lowers it again. Reload
  refetches and goes back to card 0. The component throws the message of an
  error body, or renders a skeleton, a "no card" view or the current card. In the model, `TabAtoms` and
  `SwipeCards` are classes whose methods change their fields. Like requests
  are recorded as a list of `(postId, likeType)` pairs, and refetches as a
  counter.
- **The profile set-up form** (`app/set-up-profile/form.tsx`). The schema
  asks for a name of at least two characters. Where the runtime has a `File`
  class, it also asks for a picked file within the size limit and of an
  accepted MIME type. A valid submit builds FormData, calls `updateUser`, then
  navigates to `/home`. The size limit and the type list come from a constants
  module that is not part of this model, so they are parameters (`Limits`).
- **`updateUser`** (`features/actions/user.ts`). It uploads the file entry
  only when it is truthy and not the string `"undefined"`. It builds the
  update record field by field. It sends the PUT only when the record has a
  field. It then revalidates `/users/{id}` and `/current_user`, unless the
  PUT rejected, which throws out of the action first. The method
  `UpdateUser` follows those steps and is proved equal to the function
  `UpdateUserRun`, which is built on `UpdateUserEffects` (the calls when
  every request resolves).
- **`createPost` and `deletePost`** (`features/actions/post.ts`). The
  hashtag field is split on single spaces (`Split`, with `Join` as its
  inverse). Then come the upload, the create request and the redirect, in
  that order; a rejected create request throws before the redirect.
  Deleting sends the delete request, then revalidates the owner's post list,
  unless the delete request rejected.

I/O is never performed. Like requests, refetches, uploads, API calls, cache
revalidations and navigations are returned or recorded as effects, in order.
The S3 upload's result is a parameter (`uploadKey`). Whether an awaited like
request resolved or rejected is a parameter (`RequestOutcome`), and so is
whether an awaited API request of a server action did (`Outcome`). A server
action that throws is a `Threw` run that lists the calls made before the
throw. The effect kinds of all three server actions share one type and one
order (`Web.Stage`).

Files: `web.dfy` (FormData, `formData.get`, JavaScript truthiness),
`swipe_session.dfy`, `profile_form.dfy`, `user_actions.dfy`,
`post_actions.dfy`.

## Model

| member | source | states |
|---|---|---|
| `SwipeSession.EqualLengthBranchUnreachable` | components/card/SwipeCards.tsx:555-563 | the `nextIndex === posts.length` branch never decides the outcome: the rule is "next if next < length, else 0 with `noMoreCards` raised" |
| `SwipeSession.AdvanceFromCard` | components/card/SwipeCards.tsx:554-564 | from a card that is not the last, the index moves up by exactly 1; from the last card it goes to 0 and raises `noMoreCards`; the result is always inside the list |
| `SwipeSession.DownThenUpRestores` | components/card/SwipeCards.tsx:548-553 | scrolling down then up restores the pane index (the handler does not clamp) |
| `SwipeSession.ButtonsKeepPaneInRange` | components/card/SwipeCards.tsx:142-178 | with the wide-screen buttons (up hidden on pane 0, down hidden on pane 2), any run of presses that starts in 0..2 stays in 0..2 |
| `SwipeSession.Render` | components/card/SwipeCards.tsx:475-502 | the error is thrown iff the fetch returned an error body, with its message; otherwise: skeleton iff loading or posts are null; "no card" iff loaded and no post at the index, which includes the empty list (so the `posts.length === 0` branch at lines 567-568 never fires); otherwise the card at the index, with the super-like badge iff `superLikeCount > 0` (line 580) |
| `SwipeSession.TabAtoms.SetIndex` | components/card/SwipeCards.tsx:453-457 | `setCurrentIndex` writes only this tab's index atom |
| `SwipeSession.TabAtoms.SetScroll` | components/card/SwipeCards.tsx:458-462 | `setCurrentScrollIndex` writes only this tab's pane atom |
| `SwipeSession.SwipeCards.constructor` | components/card/SwipeCards.tsx:452-473 | the component uses the recommend atoms iff its tab value is "recommend" (lines 453-462), the following atoms otherwise; on mount: `noMoreCards` false, no posts yet, loading, nothing requested, skeleton shown |
| `SwipeSession.SwipeCards.ReceivePosts` | components/card/SwipeCards.tsx:466-479 | a fetch that resolves with a list replaces the posts, clears any error and ends loading, so a card or the "no card" view replaces the skeleton; the indices are not adjusted to the new list |
| `SwipeSession.SwipeCards.ReceiveErrorBody` | components/card/SwipeCards.tsx:475-479 | a fetch that resolves with an error body `{ message }` leaves no posts, and the component throws that message instead of rendering |
| `SwipeSession.SwipeCards.NoMoreCardsEffect` | components/card/SwipeCards.tsx:481-486 | when `noMoreCards` is raised, exactly one refetch is requested and the flag is lowered; otherwise nothing happens |
| `SwipeSession.SwipeCards.HandleSetCurrentIndex` | components/card/SwipeCards.tsx:554-565 | the new index and `noMoreCards` are exactly those of the three-branch rule `IndexRule`; the panes and the other tab are untouched |
| `SwipeSession.SwipeCards.React` | components/card/SwipeCards.tsx:513-522 | no post at the index, or a post whose id is "" (falsy, lines 514-515): no request, no change. Otherwise one request `(id, likeType)` is recorded. If the request rejects, nothing else changes. If it completes, the pane is 0 and the index moves up by 1, or from the last card goes to 0 with `noMoreCards` raised. The other tab is untouched |
| `SwipeSession.SwipeCards.HandleLike` | components/card/SwipeCards.tsx:513-522 | the reaction of `React`, sent as "like" |
| `SwipeSession.SwipeCards.HandleSuperLike` | components/card/SwipeCards.tsx:523-532 | the same reaction, sent as "super_like" |
| `SwipeSession.SwipeCards.HandleNope` | components/card/SwipeCards.tsx:533-542 | the same reaction, sent as "unlike" |
| `SwipeSession.SwipeCards.HandleReload` | components/card/SwipeCards.tsx:543-547 | one refetch, index 0, pane unchanged; `noMoreCards` is raised only for an empty list, so it is unchanged whenever a card was shown (the only time the reload button exists) |
| `SwipeSession.SwipeCards.HandleScroll` | components/card/SwipeCards.tsx:548-553 | the pane index moves by exactly -1 (up) or +1 (down), without clamping; the card index and the other tab are untouched |
| `ProfileForm.Validate` | app/set-up-profile/form.tsx:27-43 | each issue is reported iff its check fails: name shorter than 2; no File where `File` exists; size over the limit; type not accepted. The values are accepted iff the name has at least 2 characters and, where `File` exists, a file is picked that passes both refinements. Where `File` does not exist, any file value (or none) is accepted |
| `ProfileForm.OnSubmit` | app/set-up-profile/form.tsx:64-73 | nothing is called unless validation passes; then `updateUser(formData, userId)`, whose FormData gives back the picked File, or the string "undefined" when none was picked (lines 66-68), and the userName; then navigation to `/home` |
| `ProfileForm.DefaultsNeverSubmit` | app/set-up-profile/form.tsx:52-58 | the default values (`userName: ""`) fail the name check, so submitting the untouched form calls nothing |
| `ProfileForm.AcceptedSubmitUploadsAndRenames` | app/set-up-profile/form.tsx:66-70 | where `File` exists, an accepted submit makes `updateUser` upload the picked file first and send the typed name in its PUT |
| `ProfileForm.UnpickedFileIsNotUploaded` | features/actions/user.ts:44-47 | where `File` does not exist and nothing was picked, the FormData holds the string "undefined"; `updateUser` does not upload it, and its PUT carries only the name |
| `Web.Get` | features/actions/user.ts:40-41 | `formData.get` is null iff no entry has that name; otherwise it is the entry of the first pair appended under that name |
| `UserActions.UpdateRecord` | features/actions/user.ts:50-56 | the record has only the keys `name` and `imageS3Key`. `name` is present iff the userName entry is truthy, and then holds it. `imageS3Key` is present iff the upload key is truthy, and then holds it. The record is non-empty iff one of the two holds |
| `UserActions.UpdateUserEffects` | features/actions/user.ts:39-81 | the calls when every request resolves, pinned down position by position: an upload of the file entry comes first iff that entry is truthy and not "undefined"; a PUT comes right before the revalidations iff the userName is truthy or a truthy key was uploaded, with `id = userId` and exactly the update record; the last two calls revalidate `/users/{userId}` and `/current_user`; nothing else is called, and the order is upload, PUT, revalidations |
| `UserActions.RevalidatesLast` | features/actions/user.ts:79-80 | no revalidation comes before the last two calls |
| `UserActions.UpdateUserRun` | features/actions/user.ts:59-80 | the action throws iff a PUT is sent and rejects; it has then made every call up to the PUT, the PUT last and neither revalidation; otherwise it makes the calls of `UpdateUserEffects` |
| `UserActions.UpdateUser` | features/actions/user.ts:39-81 | the step-by-step action (the key set by the upload, `updateData` filled field by field, the PUT gated on its key count, a rejected PUT ending the action) ends exactly as `UpdateUserRun` says |
| `PostActions.Split` | features/actions/post.ts:16 | `hashTag.split(" ")` yields one more tag than there are spaces; no tag contains a space; joining the tags with " " gives back the input exactly |
| `PostActions.SplitJoin` | features/actions/post.ts:15-16 | the other half of the round trip: a non-empty list of space-free tags, joined and split, comes back unchanged |
| `PostActions.SplitKeepsEmptyTags` | features/actions/post.ts:16 | an empty input gives `[""]`; leading, trailing and repeated spaces give empty tags, which are kept |
| `PostActions.CreatePost` | features/actions/post.ts:8-53 | throws before any call iff the hashTag entry is missing or not a string. With no file entry, the upload (which reads the file's name) throws, so the upload is the only call. Otherwise the upload of the file entry, then the create request; if that request rejects, the action throws there, without redirecting; if not, the third and last call is the redirect to `/{userId}/home`, and the order is upload, create, redirect. The payload passes imageName, imageAge and prompt on unchanged. Its hashTags number one more than the spaces in the hashTag field, join back to that field and contain no space, so they are exactly its split list. Its imageS3Key is the upload result |
| `PostActions.EmptyHashTagSendsOneEmptyTag` | features/actions/post.ts:15-16 | an empty hashTag field is sent as the one-element list `[""]`, not as an empty list |
| `PostActions.DeletePost` | features/actions/post.ts:55-71 | the delete request for `postId` is the first call; if it rejects, the action throws with no revalidation; if not, exactly one revalidation follows, of `/users/{userId}/posts` |

## Left out

- The like API, the feed selection and the follow logic live in the API routes, which are not part of this model. So are the likes and follows tables. Their schema declares no uniqueness on (user, post) or (follower, followee), and the model assumes none.
- `features/atoms/swipeCards` (the atoms' definitions) is not part of this model. `TabAtoms.constructor` assumes each atom starts at 0.
- Data fetching machinery: the SWR cache, the `cacheDeleted` one-shot refetch, and the fetcher, which sends the recommended request twice and keeps the second. A refetch is only a counted event. `ReceivePosts` and `ReceiveErrorBody` stand for a fetch resolving; a fetch that itself fails (an SWR error) is not modelled. Stale fetch responses and stale handler closures (handlers that run against an older render's state) are not modelled. The handlers' precondition that posts are loaded reflects that they only exist once a list has arrived.
- Rendering beyond the decision among the thrown error, skeleton, "no card" and card: layout, classes and the mobile layout. The mobile layout has no scroll buttons, so only `ButtonsKeepPaneInRange` concerns the wide-screen buttons.
- Number conversions: `Number(imageAge)` is not modelled; `superLikeCount` is an integer.
- SwipeSession.SwipeCards.React: a rejected like request is modelled as "request recorded, no state change". The unhandled rejection itself is not modelled.
- ProfileForm.Validate: `z.string().min(2)` counts UTF-16 code units; the model counts characters of a `string`. The order and wording of the validation messages are not modelled, only which checks fail. The model assumes a failed `instanceof` check stops the field, while a failed refinement does not stop the next one.
- ProfileForm.OnSubmit: navigation follows `updateUser` only if that call resolves. A call that throws (a rejected PUT, see `UpdateUserRun`) is not modelled on the form's side.
- The upload (`features/s3/index.ts`) is a stub in the app that returns the file's name (line 32). The model assumes an upload of a present entry resolves, and its result is the parameter `uploadKey`. Bucket naming is not modelled.
- UserActions.UpdateUserEffects: the upload's result is `uploadKey` whatever the file entry is. For a truthy text entry the stub would read `name` of a string and return undefined, so no `imageS3Key` would be sent; that case is not modelled.
- The server actions do not inspect the status of the API responses, so an error status counts as a resolved request (`Resolves`). Only a request that itself fails (`Rejects`) changes what the actions do.
- `features/fetch/post.ts` and `features/fetch/user.ts` are not part of this model. They only classify API responses. Its `getSuperLikePosts` calls `notFound()` when the list is non-empty, which looks inverted.
- `features/actions/follow.ts` and `features/actions/like.ts` are not part of this model. Each is one API call followed by one revalidation.
- Authentication, layouts, page redirects, the database client and configuration are not modelled.
- The handlers do not clamp the pane index, and the model does not either. Only the wide-screen buttons keep it within 0..2. A refetch does not guard against an older response arriving after a newer one. The model follows the code on both points.
