# Note-sharing web client: session, feed and transport model

This project models the client-side state of a single-page web client for a
note-sharing product. It covers six parts:

- the shared HTTP client (`src/api/index.js`): it attaches the stored token to every request, reduces each response to its body, and turns a 401 answer into a forced logout;
- the content API wrappers (`src/api/note.js`): the two feed requests, which name their paging parameters differently, and the three-shape decoder of the image-upload answer;
- the user API wrappers (`src/api/user.js`): token persistence on login, key removal on logout, and the default page sizes;
- the session store (`src/store/userStore.js`): token and phone in memory and in `localStorage`, and the actions `sendCode`, `login`, `register`, `fetchUserInfo`, `logout` and `updateUserInfo`;
- the note-feed store (`src/store/noteStore.js`): two feed lists selected by a tab, one pagination cursor shared by both tabs, the `isLoading` gate, the detail note and the comment list; the like and comment actions, which patch every copy of a note; and the unlike action, which as written changes nothing (see "## Findings");
- the router (`src/router/index.js`): the route table with its `requiresAuth` flags and the `beforeEach` guard.

Every remote call is opaque. An action receives the call's outcome as a
`Transport.Reply` value: `Resolved(body)` or `Rejected(error)`. The browser's
`localStorage`, `window.location` and `document.title` are the fields of a
`Host.Window` object. A 401 answer sets `location` to `/login`, which reloads the
page; the model shows that reload as a new `UserStore` built from storage
(`UserStore.ForcedLogout`).

JavaScript values are the `Js.Value` datatype. A note or a comment is a plain
object, `map<string, Value>`. So `{ ...old, ...patch }` is map union
(`Js.Spread`), and "fields not in the patch are unchanged" is a property of that
union.

Points where the code behaves differently from what one might expect, each modelled as the code has it:

- The pagination cursor (`currentPage`, `totalPages`) is one pair shared by both tabs, not one per tab. `setTabType` resets `currentPage` but keeps `totalPages`.
- A login succeeds only when the answer is a non-empty string, not merely a string.
- Nothing keeps `currentPage <= totalPages`: `totalPages` is stored exactly as the backend sends it.
- The two logouts remove different keys. The store's `logout` removes `token` and `phone`. The API's `logout` removes `token` and `userInfo`.
- A 401 clears the token in storage only. The in-memory token lasts until the page is reloaded.
- `unlikeNote` never reaches the server and never changes a note: see "## Findings".

Modules: `Js` (JavaScript values), `Host` (browser services), `Transport`,
`NoteApi`, `UserApi`, `UserStore`, `NoteStore`, `Router`, one `.dfy` file each.

## Model

| member | source | states |
|---|---|---|
| `Js.Spread` | src/store/noteStore.js:198-201 | `{...a, ...b}` has the keys of both objects; `b`'s values win, and `a`'s values stay under keys `b` lacks |
| `Js.CountOr` | src/store/noteStore.js:148 | `c \|\| d` on a counter is `c` when `c` is a non-zero number, and `d` when `c` is falsy |
| `Host.StoredText` | src/store/userStore.js:8-9 | `getItem(key) \|\| ''` is the stored text when it is non-empty, and `''` when the key is absent or empty |
| `Transport.CheckToken` | src/api/index.js:45-47 | true exactly when a non-empty `token` is stored |
| `Transport.AttachToken` | src/api/index.js:14-20 | `Authorization` is set to the stored token exactly when that token is non-empty; every other header is kept; with no token the headers are untouched |
| `Transport.Receive` | src/api/index.js:27-42 | a response is reduced to its `data`; every error rejects with the same error; only a 401 also removes `token` and sets the location to `/login`; any other error leaves storage and location alone |
| `Transport.UnauthorizedClearsToken` | src/api/index.js:35-40 | once a 401 has removed `token`, `checkToken()` is false and requests carry no `Authorization` header |
| `Transport.AuthorizedIffCheckToken` | src/api/index.js:16-20 | a request gets `Authorization` exactly when `checkToken()` holds |
| `NoteApi.GetRecommendNotes` | src/api/note.js:6-14 | requests `/notes/recommend` with exactly `{page, limit}`, defaulting to 1 and 10 |
| `NoteApi.GetFollowingNotes` | src/api/note.js:17-25 | requests `/content/getSelfFollowerFeed` with exactly `{current, size}`, defaulting to 1 and 10 |
| `NoteApi.FeedRequestsAgree` | src/api/note.js:6-25 | both feeds ask for the same page and size under disjoint parameter names, and both default to page 1 of size 10 |
| `NoteApi.UploadImage` | src/api/note.js:56-82 | a failed request is re-thrown unchanged; a success is always truthy and is the response, its `url` or its `data.url`; a non-empty string is returned as is; otherwise a truthy `url` wins; failing both, a truthy `data.url` is returned; on a resolved answer the only error is "无法获取图片URL", raised exactly when none of the three shapes is truthy |
| `NoteApi.UnlikeIsNotCallable` | src/api/note.js:4-263 | the exported API object has a `likeNote` and no `unlikeNote`, so calling the latter throws |
| `NoteApi.UploadAcceptsEachShape` | src/api/note.js:68-73 | `"u"`, `{url: "u"}` and `{data: {url: "u"}}` all yield `"u"` |
| `NoteApi.UploadPrefersTopLevelUrl` | src/api/note.js:70-73 | a truthy top-level `url` takes precedence over `data.url` |
| `NoteApi.UploadRejectsShapeMismatch` | src/api/note.js:74-77 | `null`, `{}`, `""`, and an object whose `url` and `data.url` are both falsy, all raise the no-URL error |
| `UserApi.Login` | src/api/user.js:6-17 | the answer is returned whatever its shape; storage `token` is written exactly when the answer is a non-empty string; a failure is re-thrown with storage untouched |
| `UserApi.Logout` | src/api/user.js:98-101 | removes `token` and `userInfo`; every other key, `phone` included, keeps its value |
| `UserApi.GetUserFeeds` | src/api/user.js:47-55 | requests `/user/{id}/feeds` with `{page, limit}`, defaulting to 1 and 10 |
| `UserApi.GetFollowings` | src/api/user.js:76-84 | requests `/user/{id}/followings` with `{page, limit}`, defaulting to 1 and 20 |
| `UserApi.GetFollowers` | src/api/user.js:87-95 | requests `/user/{id}/followers` with `{page, limit}`, defaulting to 1 and 20 |
| `UserApi.PagingDefaults` | src/api/user.js:47-95 | the defaults are page 1 with 10 feed items, 20 followings and 20 followers |
| `UserStore.UserStore.constructor` | src/store/userStore.js:7-11 | token and phone start as the stored values, or `''` when absent; the store starts idle and in sync with storage |
| `UserStore.UserStore.IsLoggedIn` | src/store/userStore.js:14 | holds exactly when the token is non-empty |
| `UserStore.UserStore.LoggedInMatchesCheckToken` | src/store/userStore.js:8-14 | while memory and storage agree, `isLoggedIn` equals `checkToken()` |
| `UserStore.UserStore.SendCode` | src/store/userStore.js:20-40 | a truthy answer is returned and records the phone in memory and in storage; anything else returns null and keeps the phone; the token is never touched; the store ends idle |
| `UserStore.UserStore.Login` | src/store/userStore.js:43-63 | true exactly when the answer is a non-empty string; then that string is the token both in memory and in storage, and the phone is recorded; otherwise (including a failed request) the state and storage are unchanged; the store ends idle |
| `UserStore.UserStore.Register` | src/store/userStore.js:66-83 | true exactly on code 0; the session is untouched; the store ends idle |
| `UserStore.UserStore.FetchUserInfo` | src/store/userStore.js:86-102 | with an empty token, nothing changes; otherwise a code-0 answer becomes `userInfo` and is stored serialised, any other outcome keeps both, and the store ends idle |
| `UserStore.UserStore.Logout` | src/store/userStore.js:105-111 | always empties token and phone and removes their two storage keys; the store is logged out and in sync |
| `UserStore.UserStore.UpdateUserInfo` | src/store/userStore.js:114-117 | the given fields override, every other `userInfo` field stays, and the result is stored serialised |
| `UserStore.LogoutIdempotent` | src/store/userStore.js:105-111 | removing the session keys twice leaves what removing them once leaves, with no token |
| `UserStore.LogoutTwice` | src/store/userStore.js:105-111 | a store logged out twice has no token, no phone, and exactly the storage one logout leaves; it stays in sync |
| `UserStore.ForcedLogout` | src/api/index.js:35-40 | after a 401 the location is `/login`, `checkToken()` is false, and the store rebuilt from storage is logged out |
| `UserStore.SessionLifecycle` | src/store/userStore.js:43-63 | sendCode, then login with a token, then logout: in between, the token is held in memory and in storage; afterwards it is in neither, and neither is the phone |
| `NoteStore.FindIndex` | src/store/noteStore.js:196 | `findIndex` gives the first index holding the id, or -1 exactly when no element holds it |
| `NoteStore.Find` | src/store/noteStore.js:187-191 | gives the first match in the recommend list; failing that, the first match in the following list; failing both, the detail note if its id matches; else null; any result holds the id |
| `NoteStore.PatchFirst` | src/store/noteStore.js:196-211 | the length is kept; `d` is spread over the first element with the id and only over it; every other element is unchanged; a list without the id is returned as is |
| `NoteStore.Update` | src/store/noteStore.js:194-217 | list lengths are kept; in each list, exactly the first note with the id gets `d` spread over it; the detail slot is patched exactly when its id matches, an empty slot counting as id `undefined` |
| `NoteStore.Count` | src/store/noteStore.js:148-174 | `findNote(id)?.[key] \|\| d` is `d` for a note not found or a falsy field, and the field's value when it is a non-zero number |
| `NoteStore.PatchCurrent` | src/store/noteStore.js:214-216 | a matching detail note gets `d` spread over it; a non-matching one is kept; an empty slot stays empty unless the id is `undefined`, in which case it becomes `d` |
| `NoteStore.LikePatch` | src/store/noteStore.js:148 | sets `isLiked` to true and `likeCount` to `(c \|\| 0) + 1`: 1 for a note not found, at least 1 when `c >= 0` |
| `NoteStore.UnlikePatch` | src/store/noteStore.js:159 | sets `isLiked` to false and `likeCount` to `Math.max((c \|\| 1) - 1, 0)`, which is never negative and is 0 for a note not found |
| `NoteStore.CommentPatch` | src/store/noteStore.js:174 | sets only `commentCount`, to `(c \|\| 0) + 1` |
| `NoteStore.Paginated` | src/store/noteStore.js:50-54 | page 1 is exactly the new list; any other page is the old list followed by the new one |
| `NoteStore.PatchFirstKeepsIndex` | src/store/noteStore.js:196-211 | a patch that does not set `id` leaves the first match at the same index |
| `NoteStore.FindAfterUpdate` | src/store/noteStore.js:187-217 | after such a patch, `findNote` returns the patched version of the copy it found before |
| `NoteStore.UpdateKeepsShape` | src/store/noteStore.js:194-217 | list lengths are kept; a holder without the id is left unchanged |
| `NoteStore.LikeThenUnlikeRestoresCount` | src/store/noteStore.js:144-163 | for the intended `unlikeNote` (see "## Findings"): a successful like, then a successful unlike, of a found note with count `c >= 0` leaves `findNote` showing count `c` with `isLiked` false, and every other field as before |
| `NoteStore.LikeThenUnlikeAsWritten` | src/store/noteStore.js:144-163 | a successful like leaves `findNote` showing count `c + 1` with `isLiked` true; since `unlikeNote` as written changes nothing, that is also the state after a following unlike |
| `NoteStore.NoteStore.constructor` | src/store/noteStore.js:7-17 | both lists and the comments start empty, there is no detail note, the store is idle, page 1 of 1, page size 10, tab recommend |
| `NoteStore.NoteStore.DisplayNotes` | src/store/noteStore.js:20-22 | the list of the active tab |
| `NoteStore.NoteStore.HasMoreNotes` | src/store/noteStore.js:25 | holds exactly when `currentPage < totalPages` |
| `NoteStore.NoteStore.FeedRequest` | src/store/noteStore.js:40-44 | the recommend tab uses `/notes/recommend` and the following tab `/content/getSelfFollowerFeed`; both ask for the given page with `pageSize` entries |
| `NoteStore.NoteStore.BeginFetchNotes` | src/store/noteStore.js:37-44 | raises `isLoading` and sends the active tab's request for the page, with `pageSize`; nothing else changes |
| `NoteStore.NoteStore.CompleteFetchNotes` | src/store/noteStore.js:46-66 | on code 0, the active list is replaced (page 1) or appended to (other pages), the other tab's list is untouched, and the cursor becomes the page and the answer's `totalPages`; on a non-zero code or a failure, lists and cursor are unchanged; `isLoading` is false either way |
| `NoteStore.NoteStore.FetchNotes` | src/store/noteStore.js:37-67 | the awaited call does the same as both halves above, with page 1 by default |
| `NoteStore.NoteStore.LoadMoreNotes` | src/store/noteStore.js:70-74 | sends a request for page `currentPage + 1` exactly when `currentPage < totalPages` and no fetch is in flight; otherwise nothing changes |
| `NoteStore.NoteStore.SetTabType` | src/store/noteStore.js:30-34 | sets the tab, resets the page to 1, keeps `totalPages`, and starts fetching page 1 of the new tab |
| `NoteStore.NoteStore.FetchNoteDetail` | src/store/noteStore.js:77-98 | a truthy answer becomes the detail note, with `like` copied to `isLiked` and `likeCount` copied to `likes`; a falsy answer keeps the slot; a failure empties it; the store ends idle |
| `NoteStore.NoteStore.FetchNoteComments` | src/store/noteStore.js:101-120 | on code 0, page 1 replaces the comments and later pages append; anything else keeps them; the store ends idle |
| `NoteStore.NoteStore.PublishNote` | src/store/noteStore.js:123-141 | returns the created note exactly on code 0, else null; the store ends idle |
| `NoteStore.NoteStore.UpdateNoteInList` | src/store/noteStore.js:194-217 | the three holders become `Update` of the old ones: the first match in each list, and a matching detail note, get `d`; nothing else changes |
| `NoteStore.NoteStore.LikeNote` | src/store/noteStore.js:144-152 | on success, every copy gets the like patch computed from the copy `findNote` saw; a failure changes nothing |
| `NoteStore.NoteStore.UnlikeNote` | src/store/noteStore.js:155-163 | as written: the call of the undefined `noteApi.unlikeNote` throws, the `catch` block only shows a toast, and the store is unchanged |
| `NoteStore.NoteStore.UnlikeNoteIntended` | src/store/noteStore.js:155-163 | as evidently intended: on success every copy gets the unlike patch computed from the copy `findNote` saw; a failure changes nothing |
| `NoteStore.NoteStore.CommentNote` | src/store/noteStore.js:166-184 | true exactly on code 0; then the new comment is put first and every copy's `commentCount` becomes the found count plus one; otherwise false and nothing changes |
| `NoteStore.LikeThenUnlikeScenario` | src/store/noteStore.js:144-163 | on a store, a successful `likeNote` followed by `unlikeNote` leaves the note liked, with the found count plus one |
| `NoteStore.PaginationScenario` | src/store/noteStore.js:50-74 | page 1 (ten notes, three pages), then `loadMoreNotes` with its answer, gives twenty notes on page 2; a second `loadMoreNotes` while loading is ignored |
| `Router.Title` | src/router/index.js:246 | the title is the route's non-empty `meta.title`, else `'小红书'`; it is never empty |
| `Router.Decide` | src/router/index.js:249-256 | redirects to `Login` with `redirect = to.fullPath` exactly when the route requires auth and no token is stored; otherwise calls `next()` |
| `Router.BeforeEach` | src/router/index.js:244-257 | sets the title, then issues the one decision `Decide` gives for the stored token; storage and location are untouched |
| `Router.PublicRoutesAlwaysProceed` | src/router/index.js:17-236 | in the route table, a route has no `requiresAuth` exactly when it is Login, CodeVerify, Register or NotFound, and these proceed with or without a token |
| `Router.RedirectTargetIsOpen` | src/router/index.js:22-27 | the table has a `Login` route, and it lets every visitor through, so the guard never redirects twice |
| `Router.ProtectedRoutesNeedToken` | src/router/index.js:41-229 | every other route proceeds with a token and redirects to `Login` without one |

## Findings

| source | as written | input that shows it | evidently intended | confidence | as-written member | corrected member |
|---|---|---|---|---|---|---|
| src/store/noteStore.js:157 | `unlikeNote` awaits `noteApi.unlikeNote(noteId)`, but the API object in src/api/note.js has no such key; the `TypeError` is caught at :160-162 and `updateNoteInList` is never reached | any note found with `likeCount` `c >= 0`: `likeNote` then `unlikeNote` leaves `likeCount` at `c + 1` and `isLiked` true | an unlike request, then every copy patched to `isLiked: false` with `likeCount` `Math.max((c \|\| 1) - 1, 0)`, so that like then unlike restores `c` | not executed; high: the key list of the API object is short and has no `unlikeNote` | `NoteStore.NoteStore.UnlikeNote`, `NoteStore.LikeThenUnlikeAsWritten` | `NoteStore.NoteStore.UnlikeNoteIntended`, `NoteStore.LikeThenUnlikeRestoresCount` |

## Left out

- Networking: axios itself, the base URL, the timeout, the multipart `FormData` body of an upload, and the URL paths that embed a note id. Each remote call is replaced by its outcome.
- Toasts (`ElMessage`) and `console` logging. They do not affect state.
- Interleaving of asynchronous actions, and stale answers arriving late. Only `fetchNotes` is split into a start and a completion, so that the `isLoading` gate of `loadMoreNotes` has a meaning. Every other action runs as one step with its answer.
- `setTabType` with a string other than the two tab names. The source would then write to an unrelated `${type}Notes` property.
- Malformed payloads, such as a missing `data` or a `list` that is not an array. Answers are typed records, so the `TypeError` the source would catch and report as a network error does not arise.
- Js.CountOr: a truthy counter that is not a number (such as the string `"5"` or `true`) is treated as absent, so the default is used. JavaScript keeps the value itself, and the arithmetic after `c || d` then coerces it.
- NoteStore.Count: `findNote(id)?.[key] || d` gives `d` when the field is a truthy value that is not a number (such as `"5"` or `true`); JavaScript gives the field itself, and only the arithmetic that follows coerces it.
- NoteStore.LikePatch: a truthy non-number `likeCount` is treated as absent, giving 1. In JavaScript `(c || 0) + 1` uses the value itself: it concatenates onto a string (`"5"` gives `"51"`) and counts `true` as 1 (giving 2).
- NoteStore.UnlikePatch: a truthy non-number `likeCount` is treated as absent, giving 0. In JavaScript `(c || 1) - 1` converts the value to a number: `"5"` gives 4, `true` gives 0, and `"x"` gives `NaN`.
- NoteStore.CommentPatch: a truthy non-number `commentCount` is treated as absent, giving 1. In JavaScript `(c || 0) + 1` concatenates onto a string (`"5"` gives `"51"`) and counts `true` as 1 (giving 2).
- Js.StrictEquals: two objects or two arrays never compare equal. JavaScript compares them by reference, and the model has no references. Note ids are primitives.
- Js.OwnProps: spreading a string or an array copies its indexed entries in JavaScript; the model copies none. This matters for `fetchNoteDetail` and `updateUserInfo` only when the answer or `userInfo` is a string or an array.
- Numbers are unbounded integers: no floating point and no `NaN`.
- `JSON.stringify` is the host function `Window.stringify`, and its text is not fixed.
- vue-router's path matching and history, lazy component loading, the `/` redirect record, route `props` and the `showCategoryNav` flag. `document.title` and `window.location` are recorded as fields.
- The pass-through wrappers (question bank, collect, follow, delete, detail, comments and so on) and `src/main.js`. They only forward to HTTP.
- The `code` argument of `login`, the `userData` of `register`, and the `content` of `commentNote` only travel in request bodies, so they are not parameters of the model.
