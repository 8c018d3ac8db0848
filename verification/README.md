# User accounts and sessions of a video-platform backend, in Dafny

This project models the user controller of a social-video backend
(`src/controllers/user.controller.js`). It covers two pieces of logic.

**Session and account state.** The `Accounts.UserStore` class holds the user
collection as a `map<UserId, User>`. The only server-side session state is each
record's optional `refreshToken`. The handlers are methods on the class:
`IssueTokenPair`, `Register`, `Login`, `Logout`, `Refresh`, `ChangePassword`,
`UpdateAccountDetails`, `UpdateAvatar` and `UpdateCoverImage`. Each one runs the
source's checks in the source's order and reports the same status codes. No
failing check changes the store.

- Token minting is a counter, so every new token is fresh.
- Verifying a refresh token with the refresh secret is the map `signed`. It
  sends every refresh token ever minted to the user it was minted for.
- The store keeps an invariant (`StoreInv`): a stored refresh token is signed
  for the record that holds it, and every stored username is lower case.
- From that invariant the model proves that the stored token is the only one
  a refresh accepts (`ValidateRefresh`, `StoredTokenAccepted`).
- Once a token has been replaced or removed it is *retired*, and it stays
  refused for good. Every handler keeps the set of retired tokens growing
  (`Retired`, `RetiredTokenRejected`).
- The decisions are pure functions that the methods call and that lemmas talk
  about: `CheckRegistration`, `CheckLogin`, `ValidateRefresh` and `FindOne`.

**Channel profile.** `Channels.GetChannelProfile` is a pure function over the
user map and the sequence of subscription documents `(subscriber, channel)`.
`Lookup` models the aggregation's `$lookup` stages. The model proves:

- each count is the number of subscription documents on that side;
- `isSubscribed` holds exactly when the edge (viewer, channel) exists;
- adding or removing an edge shows up in the very next query.

The lookup of a profile lower-cases the requested name. Several records can
match a query (`findOne`, `aggregate()[0]`); the model returns the one with
the smallest id, which is the earliest created, since ids come from a counter.

Inputs from outside the process are parameters:

- **Request fields** are `Option<string>`. JavaScript falsiness is `Truthy`:
  a field is falsy when it is absent or `""`.
- **Password verification** is the store's `passwordMatches` function, given
  when the store is built. Password hashing is folded into that function.
- **Object-storage uploads** are an `Option<Url>` per upload.
- **Saving the token** may fail; `saveSucceeds` says whether it did.

## Behaviour as written

The model follows the code as written, also where it departs from what the
handler evidently intends:

- `Refresh` rotates the stored token, but its response carries no refresh
  token (`refreshToken == None`). The handler reads `newRefreshToken`, a name
  the token helper does not return (lines 21 and 259-269).
- Every refresh failure is a 401. That includes the token helper's 500,
  which is re-raised with its message kept (lines 273-275).
- The duplicate check at registration and the login lookup compare the
  username as typed. Stored usernames are lower case. So "Alice" does not
  collide with a stored "alice" and is stored as a second "alice"
  (`DuplicateCheckIsCaseSensitive`). A login as "Alice" finds nothing
  (`LoginIsCaseSensitive`).
- The blank-field check only rejects fields that are present and trim to
  `""` (`SomePresentBlank`).
- The update handlers strip only the password from the document they return
  (`.select("-password")`), so that document still holds the stored refresh
  token (`ViewWithoutPassword`).
- After logout, presenting the old token is refused as "expired or used",
  not as a missing token. Only a client that drops the cleared cookie gets
  the missing-token 401.

## Model

| member | source | states |
|---|---|---|
| `Text.Trim` | src/controllers/user.controller.js:53-57 | `trim()` yields a stretch of the string with only white space before and after it; that stretch is `""` exactly when the string is blank, and otherwise starts and ends with a character that is not white space |
| `Text.SomePresentBlank` | src/controllers/user.controller.js:53-57 | the `.some(field => field?.trim() === "")` test holds iff some field is present and blank; absent fields never count |
| `Text.SomePresentBlankIsTrimTest` | src/controllers/user.controller.js:53-57 | the blank-field test holds iff the `field?.trim() === ""` callback is true for some present field |
| `Text.ToLower` | src/controllers/user.controller.js:102 | `toLowerCase()` keeps the length, leaves no upper-case letter, and returns a lower-case string as it is |
| `Accounts.PublicView` | src/controllers/user.controller.js:107-109 | `.select("-password -refreshToken")` carries no refresh token and is the password-stripped document with its token removed |
| `Accounts.ViewWithoutPassword` | src/controllers/user.controller.js:355-358 | `.select("-password")` keeps every field of the record but the password, the refresh token included |
| `Accounts.CoverImageUrl` | src/controllers/user.controller.js:99 | the cover URL, falling back to `""`, is `""` exactly when there is no cover path or its upload gave nothing or an empty URL; otherwise it is the uploaded URL |
| `Accounts.FindOne` | src/controllers/user.controller.js:147-154 | the `$or` lookup finds nothing iff no record has the given username or email; otherwise it finds a matching record, the earliest one |
| `Accounts.CheckRegistration` | src/controllers/user.controller.js:49-103 | 400 "all fields are required" iff a present field is blank; otherwise 409 iff some record matches the raw username or email; otherwise 400 "avatar file is required" iff the avatar path is falsy or its upload gave nothing; success iff all these checks pass and the four fields are present, storing the lower-cased username, the uploaded avatar URL, the cover URL or `""`, and no refresh token |
| `Accounts.CheckLogin` | src/controllers/user.controller.js:134-163 | 400 iff neither username nor email is truthy; 404 iff no record matches; 401 iff the first match's password check fails; success iff a username or email is given and the first match's password checks, and it names that first match |
| `Accounts.ValidateRefresh` | src/controllers/user.controller.js:232-254 | no token gives 401 "unauthorized request"; every failure is a 401; an accepted token is the one stored on the user it names |
| `Accounts.StoredTokenAccepted` | src/controllers/user.controller.js:245-254 | in a consistent store, the token stored on a record is accepted for that record |
| `Accounts.RetiredTokenRejected` | src/controllers/user.controller.js:252-254 | a token that was minted and is no longer stored anywhere is refused with 401 "expired or used" |
| `Accounts.DuplicateCheckIsCaseSensitive` | src/controllers/user.controller.js:60-103 | a case variant of a stored username, with a new email, passes every registration check and is stored under the same name |
| `Accounts.LoginIsCaseSensitive` | src/controllers/user.controller.js:147-154 | a username with a capital letter, given without an email, finds no record (404), because stored names are lower case |
| `Accounts.UserStore.IssueTokenPair` | src/controllers/user.controller.js:11-28 | a missing user or failed save is a 500 and changes nothing; otherwise the stored refresh token becomes exactly the fresh one returned, the access token is distinct and does not verify as a refresh token, and the previous token is retired |
| `Accounts.UserStore.Register` | src/controllers/user.controller.js:31-120 | a failed check returns its error and changes nothing; success adds the checked record under a fresh id and returns it without password and refresh token |
| `Accounts.UserStore.Login` | src/controllers/user.controller.js:123-196 | a failed check or a failed save changes nothing; success stores and returns the same fresh refresh token, signs it for that user and nothing else, keeps the id counter, and returns the record without secrets; the refresh check then accepts that token |
| `Accounts.UserStore.Logout` | src/controllers/user.controller.js:200-228 | removes the user's stored refresh token and nothing else; that token is retired, and no token is accepted for that user afterwards |
| `Accounts.UserStore.Refresh` | src/controllers/user.controller.js:231-276 | the cookie wins over the body; a failed check changes nothing; every failure is a 401; success rotates the stored token to a fresh one signed for that user (no other token is signed, the id counter is kept), retires the presented token so that presenting it again is "expired or used", and returns no refresh token |
| `Accounts.UserStore.ChangePassword` | src/controllers/user.controller.js:279-297 | an unknown user is a 500 and a wrong old password a 400, both changing nothing; otherwise only the password field changes and the refresh token is untouched |
| `Accounts.UserStore.UpdateAccountDetails` | src/controllers/user.controller.js:307-322 | a falsy `fullName` or `email` is a 400 that changes nothing; an unknown user gives a null document; otherwise exactly those two fields change and the returned document keeps the refresh token |
| `Accounts.UserStore.UpdateAvatar` | src/controllers/user.controller.js:331-365 | no file is a 400, an upload that returned nothing a 500, an empty URL a 400, none changing anything; otherwise only `avatar` changes, and the returned document keeps the refresh token |
| `Accounts.UserStore.UpdateCoverImage` | src/controllers/user.controller.js:368-400 | as for the avatar, for `coverImage` |
| `Channels.Lookup` | src/controllers/user.controller.js:423-440 | the `$lookup` yields exactly the subscription documents whose joined field is the user, each as often as it occurs |
| `Channels.LookupSizeCountsEdges` | src/controllers/user.controller.js:443-449 | `$size` of a lookup equals the number of positions holding a subscription on that side |
| `Channels.SubscribedIffEdge` | src/controllers/user.controller.js:450-456 | the viewer is among the channel's subscribers iff the subscription (viewer, channel) exists |
| `Channels.GetChannelProfile` | src/controllers/user.controller.js:402-482 | 400 iff the name is missing or blank; 404 iff no stored username equals the lower-cased name; success iff the name is non-blank and some stored username equals its lower-cased form, giving the profile of the earliest such record, with the two edge counts and the subscription flag, which is false for an anonymous viewer |
| `Channels.SubscribeShowsAtOnce` | src/controllers/user.controller.js:443-456 | for a registered, non-blank name: after adding the edge (viewer, channel), the next query finds the same channel with one more subscriber and the flag set |
| `Channels.UnsubscribeShowsAtOnce` | src/controllers/user.controller.js:443-456 | for a registered, non-blank name: after removing the edge (viewer, channel), the next query finds the same channel with the flag cleared and the count lowered by the removed copies |
| `Channels.ProfileLookupIgnoresCase` | src/controllers/user.controller.js:419-421 | two non-blank names with the same lower-case form give the same profile result |

## Left out

- `getCurrentUser` only echoes the authenticated user.
- `getWatchedHistory` only returns the stored list of video ids. Its lookup
  writes to a field named `"watchHistory "`, with a trailing space, which the
  response never reads. The `watchHistory` field of the user record is not
  modelled either.
- Token signatures, secrets and expiry are left out. Verification is the map
  `signed`, so an expired token is not told apart from a forged one. Access
  tokens are minted but never checked here.
- Password hashing and the pre-save hook that hashes the password are library
  code. They are folded into the opaque `passwordMatches` check.
- `Accounts.UserStore.ChangePassword`: takes the new password as a string. An
  absent `newPassword` is not modelled; its fate depends on the pre-save hook,
  which is not part of this model.
- Uploads to the object store are I/O. Their results are parameters.
- Cookies, HTTP status objects, `asyncHandler` and the response wrapper are
  left out. The statuses appear as numbers in `ApiError`.
- `Accounts.UserStore.UpdateAccountDetails`: returns the updated document.
  The handler actually returns `json(...)` (Express's body-parser factory)
  after a comma operator, so no response is ever sent.
- The user schema in `src/models/user.model.js` is not part of this model.
  Its unique indexes are not modelled, so a duplicate that slips past the
  case-sensitive check is stored.
- `Accounts.CheckRegistration`: assumes the schema refuses a record without
  `fullName`, `email` or `password`, and reports that as a 500.
- The null check on the re-read record after registration (line 111) can
  never fail in the model, since the record was just added.
- A request that has uploaded files but no avatar file makes
  `req.files?.avatar[0]` throw. That case is not modelled: the avatar path is
  simply present or absent.
- Store failures other than saving the refresh token are not modelled.
- How MongoDB's `$or` treats an `undefined` value is not modelled. Lookups
  are plain equality, so an absent field matches no record.
- Tokens are numbers, so an empty-string token cannot be presented. A
  refresh token that is absent or `""` is the same falsy case in the source.
- `Text.Trim`: strips only ASCII white space, no-break space and the
  byte-order mark, not every Unicode space that JavaScript's `trim` strips.
- `Text.ToLower`: lower-cases only the ASCII letters A to Z.
- `Accounts.CoverImageUrl`: ignores the cover upload when there is no cover
  path. This assumes the upload helper returns nothing when it is given no
  path (line 88); `src/utils/cloudinary.js` is not part of this model.
- Tokens are assumed fresh. The model mints them from a counter, so a new
  refresh token never equals one minted before. The real token generators are
  signed JWTs, which `src/models/user.model.js` produces and which are not
  part of this model. `Accounts.RetiredTokenRejected` and the retirement
  clause of `Accounts.UserStore.Refresh` rest on this freshness.
- Requests are handled one at a time, so races between two refreshes of the
  same user are not modelled.
