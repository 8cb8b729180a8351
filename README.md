# Photo sharing app: the controller workflows, the page parser and the auth store

A model of the logic in a small Laravel + Vue photo-sharing application.

- **Photos** (`photos.dfy`), from `PhotoController`. It covers photo creation, the like and
  unlike toggles, the 404 guards of `show`, `like`, `unlike` and `download`, the download's
  `Content-Disposition` header, and `addComment`. It works over abstract stores: the cloud
  disk as a map from file name to bytes, the photos table as a map keyed by id, and the
  likes join table as a multiset of (photo, user) rows. It also has the comments table with
  its auto-increment counter, and the users table, which it only reads. The controller is a
  class whose methods update these fields.
  - `Valid()` is the invariant every workflow keeps:
    - every photo row has its blob;
    - its file name starts with its id;
    - there is at most one like per pair;
    - likes and comments point at existing photos.
  - The photo id, which the Photo model draws at random, is a parameter. So is the
    authenticated user's id, and so is the database's answer to the insert (`SaveResult`).
- **Auth** (`auth_store.dfy`), from the `auth` module of the Vuex store. It has the state
  record, the `check` and `username` getters, and the four mutations as methods of a class
  that each assign one field. Each action (`register`, `login`, `logout`, `currentUser`) is
  a method that makes its commits in order.
  - Each action is specified by the sequence of commits it makes (`RegisterCommits`, …) and
    by `Run`, which applies a sequence of commits to the state. The `…Transition`
    functions state the net effect for each class of response status.
  - The HTTP response the action awaits is a parameter.
  - Commits to the root `error/setCode` mutation are recorded in the `errorCodes` field.
- **Router** (`router.dfy`), from `router.js`. It has the `props` function of the `/` route,
  which turns `?page=` into a page number, and the `beforeEnter` guard of `/login`, which
  reads the auth store's `check`.
  - The query value is coerced to a string the way `RegExp.prototype.test` coerces it.
    It is matched against `^[1-9][0-9]*$` and read as a decimal number. The model proves
    that matching strings and numbers n ≥ 1 are in one-to-one correspondence.
- `common.dfy` holds the `Option` type shared by the three modules.

Points where the model and the code need a word:

- The code ignores what `putFileAs` returns (PhotoController.php:73-74). If the upload
  fails and returns false, the insert at line 81 still runs, and it leaves a photo row
  without its blob. The model does not follow the code on that path: it assumes the upload
  succeeds (see "## Left out"). The clause of `Valid()` that says every photo row has its
  blob holds only under that assumption.
- No uniqueness constraint on likes is visible. The model proves that `like` and `unlike`
  keep at most one like per (photo, user), one request at a time (`Valid()`).
- The comment that `addComment` sends back comes from a re-query (`first()`), which may be
  null. The model returns an `Option` and proves that it is the comment just saved, with
  its author.

## Model

| member | source | states |
|---|---|---|
| `Photos.FileName` | myapp/app/Http/Controllers/PhotoController.php:68 | the stored file name is exactly the photo id, then `.`, then the upload's extension |
| `Photos.FileNameRoundTrip` | myapp/app/Http/Controllers/PhotoController.php:63-68 | the file name `id + "." + extension` gives back exactly the id (before the first dot) and the extension (after it), for an id without a dot |
| `Photos.FileNamesDistinguishIds` | myapp/app/Http/Controllers/PhotoController.php:67-68 | two photos whose ids have no dot get the same file name only if they have the same id and extension |
| `Photos.Disposition` | myapp/app/Http/Controllers/PhotoController.php:109 | the header value is `attachment; filename="`, then the file name unescaped, then `"` |
| `Photos.QuotedContentOfPlainName` | myapp/app/Http/Controllers/PhotoController.php:109 | a name made only of qdtext (section 3.2.6 of RFC 7230: HTAB, SP and visible or obs-text characters other than `"` and `\`), closed by a quote, reads back unchanged as a quoted-string, whatever follows the quote |
| `Photos.DispositionRoundTrip` | myapp/app/Http/Controllers/PhotoController.php:106-113 | a recipient reading `filename` as the quoted-string of section 4.1 of RFC 6266 gets the stored file name back, when every character of it is qdtext |
| `Photos.DispositionCutAtQuote` | myapp/app/Http/Controllers/PhotoController.php:109 | because the name is not escaped, the name `a"; size="1` is read back as `a` |
| `Photos.DispositionRefusesLineBreak` | myapp/app/Http/Controllers/PhotoController.php:109 | a name holding CR LF, such as `a\r\nX-Evil: 1`, gives a header value that is no quoted-string, so no file name is read from it |
| `Photos.FileNameQuotable` | myapp/app/Http/Controllers/PhotoController.php:68-109 | an id and an extension made only of qdtext give a file name that the header carries unchanged (the dot between them is qdtext) |
| `Photos.Detached` | myapp/app/Http/Controllers/PhotoController.php:173 | after `detach`, the table holds zero rows of the pair and every other row's count is unchanged |
| `Photos.Liked` | myapp/app/Http/Controllers/PhotoController.php:150-155 | after `detach` then `attach`, the table holds exactly one row of the pair, whatever its count before, and every other row's count is unchanged |
| `Photos.LikeIdempotent` | myapp/app/Http/Controllers/PhotoController.php:150-155 | liking twice leaves the same table as liking once |
| `Photos.UnlikeIdempotent` | myapp/app/Http/Controllers/PhotoController.php:173 | unliking twice leaves the same table as unliking once |
| `Photos.UnlikeWithoutLikeIsNoop` | myapp/app/Http/Controllers/PhotoController.php:173-175 | unliking a pair with no like changes nothing, and is not an error |
| `Photos.LikeUnlikeLike` | myapp/app/Http/Controllers/PhotoController.php:154-155 | like, unlike, like leaves the table as a single like does, with exactly one row of the pair |
| `Photos.InsertPhotoKeepsValid` | myapp/app/Http/Controllers/PhotoController.php:73-82 | storing a new photo's blob and then its row, under an unused id that its file name starts with, keeps every row paired with its blob |
| `Photos.DeleteUnusedBlobKeepsValid` | myapp/app/Http/Controllers/PhotoController.php:84-86 | the name that the compensating delete removes belongs to no photo row, for a fresh id without a dot, so the delete orphans no row |
| `Photos.PhotoController.Show` | myapp/app/Http/Controllers/PhotoController.php:47-53 | returns the photo with that id with 200, or aborts with 404 when there is none |
| `Photos.PhotoController.Create` | myapp/app/Http/Controllers/PhotoController.php:60-92 | on a successful insert: the blob is under `id.ext`, the row is owned by the user, the response is 201 with the photo. On a thrown insert: the same exception comes back, the photos table is as before (rolled back), the blob under that name is gone, and no row has that name. The invariant is kept either way |
| `Photos.PhotoController.Download` | myapp/app/Http/Controllers/PhotoController.php:99-116 | 404 when the photo or its blob is missing; otherwise 200 with the blob, `Content-Type: application/octet-stream` and `Content-Disposition: attachment; filename="<name>"`, from which a name made only of qdtext reads back |
| `Photos.PhotoController.FindComment` | myapp/app/Http/Controllers/PhotoController.php:132-133 | the re-query finds the comment with that id, with its author from the users table and its content, or nothing |
| `Photos.PhotoController.AddComment` | myapp/app/Http/Controllers/PhotoController.php:125-136 | 404 without the photo, with the comments table and its counter unchanged; otherwise exactly one new comment row under a fresh id, the counter advanced by one, and a 201 response carrying that comment's content and author. The invariant is kept |
| `Photos.PhotoController.Like` | myapp/app/Http/Controllers/PhotoController.php:143-158 | no photo: 404 and the likes table unchanged; otherwise the table is `Liked` (exactly one row for the pair, nothing else changed) and the response is `{"photo_id": id}`. The invariant is kept |
| `Photos.PhotoController.Unlike` | myapp/app/Http/Controllers/PhotoController.php:165-176 | no photo: 404 and the likes table unchanged; otherwise the table is `Detached` (no row for the pair, nothing else changed) and the response is `{"photo_id": id}`. The invariant is kept |
| `Auth.Check` | myapp/resources/js/store/auth.js:15 | `check` holds exactly when the user is not a falsy value |
| `Auth.Username` | myapp/resources/js/store/auth.js:16 | `username` is the user's name when `check` holds and `''` otherwise |
| `Auth.Mutate` | myapp/resources/js/store/auth.js:22-33 | each commit changes only the field its mutation names; a commit to `error/setCode` changes none of this module's state |
| `Auth.GettersAfterSignIn` | myapp/resources/js/store/auth.js:15-16 | after `register` 201 or `login` 200 with a user object, `check` holds and `username` is that user's name |
| `Auth.GettersAfterLogout` | myapp/resources/js/store/auth.js:15-16 | after `logout` 200, `check` is false and `username` is `''` |
| `Auth.GettersAfterCurrentUser` | myapp/resources/js/store/auth.js:15-16 | after `currentUser` 200, `check` holds exactly when the body is a user object, and `username` is its name, or `''` |
| `Auth.GettersUnchangedOnFailure` | myapp/resources/js/store/auth.js:15-16 | a 422 or any other failing status leaves `check` and `username` as they were, for all four actions |
| `Auth.RegisterCommits` | myapp/resources/js/store/auth.js:39-55 | `register` makes three commits, the first setting the status to null |
| `Auth.LoginCommits` | myapp/resources/js/store/auth.js:57-77 | `login` makes three commits, the first setting the status to null |
| `Auth.LogoutCommits` | myapp/resources/js/store/auth.js:79-91 | `logout` makes three commits, the first setting the status to null |
| `Auth.CurrentUserCommits` | myapp/resources/js/store/auth.js:93-106 | `currentUser` makes three commits, the first setting the status to null |
| `Auth.ActionsStartPending` | myapp/resources/js/store/auth.js:39-106 | while any action's request is pending, the state is the old one with the status null |
| `Auth.RegisterTransition` | myapp/resources/js/store/auth.js:39-55 | 201: status true, user is the response body, returns false. 422: status false, register messages are the body's errors, user unchanged, no error code. Anything else: status false, the status code goes to `error/setCode`. The status never stays null |
| `Auth.LoginTransition` | myapp/resources/js/store/auth.js:57-77 | 200: status true, user is the response body, returns false. 422: status false, login messages are the body's errors, user unchanged, no error code. Anything else: status false, the code goes to `error/setCode`. The status never stays null |
| `Auth.LogoutTransition` | myapp/resources/js/store/auth.js:79-91 | 200: status true, user null, returns false. Anything else: status false, the user kept, the code goes to `error/setCode` |
| `Auth.CurrentUserTransition` | myapp/resources/js/store/auth.js:93-106 | 200: status true, the user is the body, or null (logged out) when the body is falsy. Anything else: status false, the code goes to `error/setCode` |
| `Auth.AuthStore.constructor` | myapp/resources/js/store/auth.js:4-12 | every field of the state starts null and no error code has been sent |
| `Auth.AuthStore.SetUser` | myapp/resources/js/store/auth.js:22-24 | `setUser` changes `user` and no other field, and records its own commit |
| `Auth.AuthStore.SetApiStatus` | myapp/resources/js/store/auth.js:25-27 | `setApiStatus` changes `apiStatus` and no other field, and records its own commit |
| `Auth.AuthStore.SetLoginErrorMessages` | myapp/resources/js/store/auth.js:28-30 | `setLoginErrorMessages` changes `loginErrorMessages` and no other field, and records its own commit |
| `Auth.AuthStore.SetRegisterErrorMessages` | myapp/resources/js/store/auth.js:31-33 | `setRegisterErrorMessages` changes `registerErrorMessages` and no other field, and records its own commit |
| `Auth.AuthStore.SetErrorCode` | myapp/resources/js/store/auth.js:53 | a commit to `error/setCode` appends the code, records its own commit and leaves this module's state alone |
| `Auth.AuthStore.Register` | myapp/resources/js/store/auth.js:39-55 | the commits `register` makes leave the store in `RegisterTransition`'s state, with its error codes and return value, and its commit trace is exactly `RegisterCommits` |
| `Auth.AuthStore.Login` | myapp/resources/js/store/auth.js:57-77 | the commits `login` makes leave the store in `LoginTransition`'s state, with its error codes and return value, and its commit trace is exactly `LoginCommits` |
| `Auth.AuthStore.Logout` | myapp/resources/js/store/auth.js:79-91 | the commits `logout` makes leave the store in `LogoutTransition`'s state, with its error codes and return value, and its commit trace is exactly `LogoutCommits` |
| `Auth.AuthStore.CurrentUser` | myapp/resources/js/store/auth.js:93-106 | the commits `currentUser` makes (the user being `response.data \|\| null`) leave the store in `CurrentUserTransition`'s state, and its commit trace is exactly `CurrentUserCommits` |
| `Router.NumberValue` | myapp/resources/js/router.js:29 | the number a digit string denotes is at least 1 when its first digit is not `0` |
| `Router.ToJsString` | myapp/resources/js/router.js:28-29 | the query value as the regular expression sees it: a string as is, a one-item list as its item, a longer list with a comma after its first item, and missing or null as a word that does not start with a digit |
| `Router.MatchesPagePattern` | myapp/resources/js/router.js:29 | `^[1-9][0-9]*$` holds exactly for non-empty digit strings that do not start with `0` |
| `Router.PageProp` | myapp/resources/js/router.js:27-30 | the page is the number the query string denotes when it matches `^[1-9][0-9]*$`, and 1 otherwise; it is always at least 1 |
| `Router.DecimalRoundTrip` | myapp/resources/js/router.js:29 | for every n ≥ 1, the decimal string of n without leading zeros matches the pattern and reads back as n |
| `Router.PatternIsCanonical` | myapp/resources/js/router.js:29 | every string the pattern accepts is the decimal string of the number it denotes, so accepted strings and page numbers correspond one to one |
| `Router.PagePropRoundTrip` | myapp/resources/js/router.js:27-30 | `?page=` followed by the decimal string of n ≥ 1 shows page n |
| `Router.PageOneExactly` | myapp/resources/js/router.js:29 | a query string gives page 1 exactly when it is `"1"` or fails the pattern |
| `Router.RejectedQueriesGivePageOne` | myapp/resources/js/router.js:29 | a missing or null, empty, `0`-led, signed or non-digit query string gives page 1 |
| `Router.SingletonListIsText` | myapp/resources/js/router.js:28-29 | a parameter in list form with one item gives the same page as the plain string |
| `Router.RepeatedParameterGivesPageOne` | myapp/resources/js/router.js:28-29 | a repeated parameter (joined with a comma) gives page 1 |
| `Router.LoginGuard` | myapp/resources/js/router.js:42-48 | the `/login` guard sends the navigation to `/` exactly when `check` holds, and lets it proceed otherwise |
| `Router.LoginGuardUnchangedByFailedActions` | myapp/resources/js/router.js:42-48 | a failed `register`, `login`, `logout` or `currentUser` leaves the guard's decision as it was |
| `Router.LoginGuardAfterLogin` | myapp/resources/js/router.js:42-48 | after a successful login whose body is a user, the login page is skipped |
| `Router.LoginGuardAfterLogout` | myapp/resources/js/router.js:42-48 | after a successful logout, the login page is shown |

## Left out

- `Photos.PhotoController.Create`: requires that the photo id is unused and contains no dot. The id comes from the Photo model's random generator, which is not part of this model, and the model relies on it for both properties. Under them a failed insert can never delete the blob of another photo.
- The upload itself is not modelled as something that can fail: `putFileAs` is assumed to succeed. The code ignores its result, so a failed upload would still insert the row and leave it without a blob; the model does not capture that path. The blob `delete` in the compensation step is also assumed to succeed. No other storage or network failure is modelled.
- `index` is not modelled. It consists of Eloquent eager loading (`with`), `orderBy` and `paginate`, all framework behaviour. Eager loading in `show`, `like` and `unlike` is not modelled either.
- The following framework behaviour is not modelled:
  - the `auth` middleware: the user id is a parameter;
  - `StorePhoto`/`StoreComment` request validation;
  - the upload's `extension()`: the extension is a parameter;
  - the `public` visibility flag;
  - route model binding: `download` and `addComment` look the photo up and answer 404 when it is missing.
- The database transaction is modelled as a snapshot of the photos table. A rollback restores the snapshot. Isolation from other requests is not modelled.
- Concurrent requests are not modelled, for example two `like` calls interleaving their detach and attach. Every operation runs alone.
- The timestamps, the comment's other JSON attributes, and the Photo model's JSON shape are not modelled.
- The `axios` calls in the auth store are not modelled. They are asynchronous network requests, so each action takes the response it would await as a parameter. Whether a non-2xx response reaches the action or rejects the promise depends on an HTTP client setup that is not part of this model. The model assumes every response reaches the action.
- The `error` store module is not part of this model. Its `setCode` commits are only recorded.
- The values `OK`, `CREATED` and `UNPROCESSABLE_ENTITY` are imported from a `util` module that is not part of this model. They are taken as the HTTP statuses they name: 200, 201 and 422.
- JavaScript values are reduced to `Payload`: either falsy (null, undefined, `""`) or an object with optional `name` and `errors` properties.
  - On this reduction, `response.data || null` is the identity.
  - A 422 response with a null body would make `.errors` throw in JavaScript. The model reads its errors as undefined.
  - `null` and `undefined` are not told apart in the error-message fields.
- `page * 1` gives a floating-point number in JavaScript. For very long digit strings that number is not exact. The page is an unbounded natural number here.
- A repeated query parameter with a value-less item (`?page&page=2`) is not modelled. Query values are a missing value, null (a bare `?page`), one string, or a list of strings.
- `Photos.DispositionRoundTrip`: holds only for file names made of qdtext (section 3.2.6 of RFC 7230), so neither `"`, `\`, control characters such as CR or LF, nor characters above U+00FF. The header is built without escaping (PhotoController.php:109): a name holding a quote is read back cut short (`Photos.DispositionCutAtQuote`) and one holding a line break is refused (`Photos.DispositionRefusesLineBreak`). The model does not promise that such names reach the recipient intact. The extension comes from the upload's `extension()`, which is not part of this model, so nothing here rules such names out.
- The following client and server parts are not modelled: Vue and VueRouter rendering, `scrollBehavior`, the history mode and the component imports. Also the bootstrap in `app.js` and the server route table in `web.php`. `Comment.php` is used only for which comment fields are visible.
