# Misato identity and token core, in Dafny

Misato is a Rocket + MongoDB account service. This project models its
identity and token logic and proves properties of it. It covers two account
domains, each kept in its own collection:

- **API users** (`apiusers`). Each holds at most one token, a role (Admin,
  Dev or User) and an optional permission list. `ApiUserManager` upserts
  them by username, overwrites their token with `$set` and removes it with
  `$unset`.
- **Human users** (`users`). Each holds a list of tokens. `UserManager`
  inserts them, appends tokens with `$push` and removes the whole list with
  `$unset`.

Tokens carry a value, an issue time and an expiry, in milliseconds. The
token filters look up a token by value and also require its expiry not to
be before the current time. In the human-user filter the two conditions are
written without `$elemMatch`. One list element can therefore satisfy the
value condition and another the expiry condition. The model keeps exactly
that behaviour (`UserManagement.HoldingToken`).

On top of the managers the model covers:

- the record constructors;
- the two request guards, which resolve a single header value to an API
  user holding it as a live token;
- the mounted route handlers:
  - `/login`, for human users;
  - `/api/…`, for API accounts: `login` and `clear-tokens` take no guard,
    the other routes sit behind the "X-Misato-Token" guard;
  - `/admin/…`, for human accounts administered by an Admin API user;
  - `/user/…`, which cross both domains.

**Structure.**

- `Collection` models a collection as a sequence of records. `find_one`,
  `replace_one` with upsert, `update_one` and `delete_one` act on the first
  record that satisfies a filter. `count_documents` counts every record that
  satisfies it.
- Each manager is a class whose `seq` field the methods reassign. Each
  manager method is proved against these functions.
- A store call can fail. This is modelled by a nondeterministic round trip,
  and a failed call leaves the collection unchanged.
- `Database` holds the two managers.
- Handlers are methods over the `Database`. They take as parameters:
  - `api`, the API user the guard resolved;
  - `now`, one clock reading for the whole handler;
  - `generated`, a 128-character alphanumeric token;
  - `generatedUuid`, a fresh uuid;
  - `hashed`, the hashed password;
  - `isCorrect`, the password check.
- A handler answers `Reply(body)`, `Error(status, reason)` or `Panicked`.
  `Panicked` stands for an `unwrap` on a failed lookup.

**Behaviours of the source that the contracts state:**

- `modified_count` is 1 only when the matched record actually changes.
  Admin `clear_tokens` on a user who holds no token list therefore answers
  400 "Account doesn't exist", even though the user exists.
- `/user/delete` removes the API user that holds the given token as a live
  token. It never removes the human user.
- `/user/clear-tokens` passes the token string as the uuid argument of
  `ApiUserManager::clear_tokens`. Unless an API user's uuid equals that
  string, nothing changes, yet the answer is a success.
- In `/user/…`, a failed store lookup behaves differently depending on the
  caller's role:
  - for an Admin caller, a failed lookup of the caller's own user skips the
    existence check in all three routes;
  - for an Admin caller, a failed token lookup skips the token check in
    `/user/delete` and `/user/clear-tokens`, but `/user/check-token`
    unwraps that result and panics;
  - for any other caller, a failed lookup of the caller's own user is
    unwrapped and panics.
- The non-Admin check in `/user/…` compares token values only. It does not
  look at the expiry.
- Admin `check_token` may answer a token that has already expired. The
  filter admits it as long as the same user holds another live token.

## Model

| member | source | states |
|---|---|---|
| Collection.FirstIndex | crates/misato_database/src/api_manager.rs:57 | the index returned holds a match and no earlier record matches; None only when nothing matches |
| Collection.FirstIndexAt | crates/misato_database/src/api_manager.rs:57 | a matching index preceded by no match is the first index (converse of FirstIndex) |
| Collection.FindOne | crates/misato_database/src/api_manager.rs:57-60 | `find_one` yields a stored matching record; None exactly when no record matches |
| Collection.CountMatching | crates/misato_database/src/api_manager.rs:22-28 | `count_documents` never counts more records than the collection holds |
| Collection.StoreRoundTrip | crates/misato_database/src/api_manager.rs:22-28 | any store call may fail; the callers turn a failure into `Err` and leave the collection unchanged |
| Collection.CountNonZeroIffAny | crates/misato_database/src/api_manager.rs:22-28 | a non-zero `count_documents` is equivalent to some record matching |
| Collection.ReplaceOneUpsert | crates/misato_database/src/api_manager.rs:30-40 | no match appends the record; otherwise the first match is replaced in place, size kept, modified exactly when the record differs |
| Collection.UpdateOne | crates/misato_database/src/api_manager.rs:92-99 | size kept; no match leaves the sequence as it was; otherwise only the first match is rewritten, modified exactly when the update changes it |
| Collection.DeleteOne | crates/misato_database/src/api_manager.rs:78 | at most one record removed, the first match; nothing removed exactly when nothing matches |
| Collection.DeleteOneCount | crates/misato_database/src/api_manager.rs:78 | deleting lowers the number of matching records by exactly the reported deleted count |
| Collection.CountSplit | crates/misato_database/src/api_manager.rs:22-28 | the count over a sequence is the sum of the counts over any split of it |
| Filters.BuildSelector | crates/misato_database/src/api_manager.rs:47-56 | a username always wins over a uuid; the uuid is used only alone; the empty filter exactly when neither is given |
| Tokens.IssueToken | crates/misato_database/src/models/apiuser_model.rs:46-51 | the issued token has the 128-character generated value, is stamped now, expires `seconds * 1000` later and is live now |
| ApiUserModel.DefaultRole | crates/misato_database/src/models/apiuser_model.rs:71-75 | the default role is User |
| ApiUserModel.DefaultPermission | crates/misato_database/src/models/apiuser_model.rs:83-87 | the default permission is None |
| ApiUserModel.DefaultAccess | crates/misato_database/src/models/apiuser_model.rs:57-62 | the derived default access has the default role and no permission list |
| ApiUserModel.CreateDefault | crates/misato_database/src/models/apiuser_model.rs:23-37 | uuid "admin", timestamp 0, role Admin without permissions, a token with the configured value expiring at `i64::MAX` |
| ApiUserModel.CreateApiUser | crates/misato_database/src/models/apiuser_model.rs:38-44 | keeps the given uuid, username and password; stamped now; no token; role User and no permissions |
| ApiUserModel.NewToken | crates/misato_database/src/models/apiuser_model.rs:46-54 | the record afterwards holds exactly the returned token, everything else unchanged; token facts as IssueToken |
| ApiUserModel.DefaultTokenLiveUntilI64Max | crates/misato_database/src/models/apiuser_model.rs:30 | the bootstrap token is live at every instant up to `i64::MAX` |
| UserModel.CreateUser | crates/misato_database/src/models/user_model.rs:21-33 | a supplied uuid is kept, otherwise the generated one is used; username and password kept; no logs and no token list |
| ApiUserManagement.ApiUserManager.UsernameExists | crates/misato_database/src/api_manager.rs:22-28 | true exactly when some stored API user has that username |
| ApiUserManagement.ApiUserManager.CreateApiUser | crates/misato_database/src/api_manager.rs:30-40 | the collection becomes the username-keyed upsert of the record; a failure changes nothing |
| ApiUserManagement.ApiUserManager.GetApiUser | crates/misato_database/src/api_manager.rs:42-61 | neither argument gives `Ok(None)`; a username alone decides the lookup; a uuid is used only without a username |
| ApiUserManagement.ApiUserManager.DeleteApiUser | crates/misato_database/src/api_manager.rs:63-79 | neither argument gives `Ok(None)` and no change; otherwise the first record matched by the selected filter is deleted |
| ApiUserManagement.ApiUserManager.DeleteApiUserFromToken | crates/misato_database/src/api_manager.rs:81-90 | always `Some` on success; deletes the first record holding that live token, nothing else |
| ApiUserManagement.ApiUserManager.SetToken | crates/misato_database/src/api_manager.rs:92-99 | `$set` of the token on the first record with that uuid |
| ApiUserManagement.ApiUserManager.ClearTokens | crates/misato_database/src/api_manager.rs:101-107 | `$unset` of the token on the first record with that uuid |
| ApiUserManagement.ApiUserManager.ClearTokensFromToken | crates/misato_database/src/api_manager.rs:109-115 | `$unset` on the first record holding that live token |
| ApiUserManagement.ApiUserManager.GetApiUserFromToken | crates/misato_database/src/api_manager.rs:117-129 | returns only a stored record whose token has that value and is live; None means no record holds it live |
| ApiUserManagement.HoldingLive | crates/misato_database/src/api_manager.rs:87 | the `token.token` / `token.expiration_timestamp` filter (also lines 113 and 121): a match holds the value, and a record whose token has expired never matches |
| ApiUserManagement.TokenSetter | crates/misato_database/src/api_manager.rs:94 | `$set` (and, with None, the `$unset` of line 102): the token becomes the given one and every other field is kept |
| ApiUserManagement.UpsertThenGet | crates/misato_database/src/api_manager.rs:30-40 | after the upsert, looking its username up yields the record itself |
| ApiUserManagement.UpsertSize | crates/misato_database/src/api_manager.rs:30-40 | size kept when the username exists, record appended otherwise; records under other usernames untouched |
| ApiUserManagement.UpsertLastWriteWins | crates/misato_database/src/api_manager.rs:30-40 | of two upserts under one username the second wins and the first leaves no trace |
| ApiUserManagement.UpsertIdempotent | crates/misato_database/src/api_manager.rs:30-40 | upserting the same record twice equals upserting it once |
| ApiUserManagement.ExpiredTokenNeverResolves | crates/misato_database/src/api_manager.rs:117-129 | a token value held only in expired tokens resolves to nobody |
| ApiUserManagement.SetTokenEffect | crates/misato_database/src/api_manager.rs:92-99 | the first record with that uuid holds exactly the new token; every other record unchanged |
| ApiUserManagement.ReissueInvalidatesPrevious | crates/misato_database/src/api_manager.rs:92-99 | setting a different token on the only holder of a live token makes the old value resolve to nobody |
| ApiUserManagement.SetTokenThenResolves | crates/misato_database/src/api_manager.rs:92-99 | a live token set on an existing uuid resolves afterwards |
| ApiUserManagement.ClearTokenEffect | crates/misato_database/src/api_manager.rs:101-107 | the record loses its token and keeps every other field; it then matches no token filter; other records unchanged |
| ApiUserManagement.SetTokenOnFreshUuid | src/routes/api/account.rs:58-61 | a record just created under a fresh uuid is the one that receives the token |
| UserManagement.UserManager.UsernameExists | crates/misato_database/src/user_manager.rs:21-27 | true exactly when some stored user has that username |
| UserManagement.UserManager.UuidExists | crates/misato_database/src/user_manager.rs:29-35 | true exactly when some stored user has that uuid |
| UserManagement.UserManager.CreateUser | crates/misato_database/src/user_manager.rs:37-40 | plain insert: the collection grows by exactly the record, with no username check |
| UserManagement.UserManager.GetUser | crates/misato_database/src/user_manager.rs:42-61 | neither argument gives `Ok(None)`; username wins over uuid |
| UserManagement.UserManager.DeleteUser | crates/misato_database/src/user_manager.rs:63-79 | neither argument gives `Ok(None)` and no change; otherwise the first match of the selected filter is deleted |
| UserManagement.UserManager.DeleteUserFromToken | crates/misato_database/src/user_manager.rs:81-87 | deletes the first user matched by the two-condition token filter, at most one |
| UserManagement.UserManager.SaveToken | crates/misato_database/src/user_manager.rs:89-96 | `$push` of the token onto the first user with that uuid |
| UserManagement.UserManager.ClearTokens | crates/misato_database/src/user_manager.rs:98-104 | `$unset` of the whole token list of the first user with that uuid |
| UserManagement.UserManager.ClearTokensFromToken | crates/misato_database/src/user_manager.rs:106-112 | `$unset` of the list of the first user matched by the token filter |
| UserManagement.UserManager.GetUserFromToken | crates/misato_database/src/user_manager.rs:114-126 | the returned user has some token with that value and some, possibly different, live token |
| UserManagement.HoldingToken | crates/misato_database/src/user_manager.rs:84 | the `tokens.token` / `tokens.expiration_timestamp` filter (also lines 110 and 118): a match holds a token with the value, and a user whose tokens have all expired never matches |
| UserManagement.Appended | crates/misato_database/src/user_manager.rs:91 | the list after `$push` (built by `TokenPusher`): the new token is last, earlier ones stay in order, a missing list becomes `[t]` |
| UserManagement.ExpiredTokenStillMatches | crates/misato_database/src/user_manager.rs:118 | without `$elemMatch`, any token in a user's list (expired or not) matches as long as the same list holds some live token, at any position |
| UserManagement.ExpiredTokenResolvesExample | crates/misato_database/src/user_manager.rs:114-126 | a user whose token "a" expired at 10 and who holds "b" live until 100 is found by "a" at 50 |
| UserManagement.AllExpiredNeverResolves | crates/misato_database/src/user_manager.rs:114-126 | when every stored token has expired, no token value resolves |
| UserManagement.SaveTokenEffect | crates/misato_database/src/user_manager.rs:89-96 | the token is appended; earlier tokens stay in place and in order; other users unchanged |
| UserManagement.TokensAccumulate | crates/misato_database/src/user_manager.rs:89-96 | two pushes leave both tokens, in order, and each resolves |
| UserManagement.ClearTokensRevokesAll | crates/misato_database/src/user_manager.rs:98-104 | the whole list is removed, so the user matches no token filter; other users unchanged |
| UserManagement.SignupResolveRevoke | crates/misato_database/src/user_manager.rs:89-104 | a new user's pushed token resolves to that user, and after `clear_tokens` it resolves to nobody |
| UserManagement.ClearingNoTokensModifiesNothing | crates/misato_database/src/user_manager.rs:98-104 | clearing a user without a token list reports one match and zero modifications |
| UserManagement.SaveTokenOnFreshUuid | src/routes/admin/account.rs:57-60 | a user just inserted under a fresh uuid ends up holding exactly the pushed token |
| Responses.WithValue | src/routes/admin/account.rs:221-222 | the retained tokens all have the value, come from the list, and are no more numerous than it |
| Responses.WithValueAppend | src/routes/admin/account.rs:222 | retaining over a list extended by one token extends the result by that token exactly when it has the value |
| Responses.WithValueFirst | src/routes/admin/account.rs:221-223 | something is retained exactly when some token has the value; the first retained token is the first stored one with it |
| Responses.Retain | src/routes/admin/account.rs:222 | the in-place `retain` loop leaves exactly the tokens with that value, in order |
| Fairings.HeaderValues | src/fairings/api_authentication.rs:22 | at most as many values as headers |
| Fairings.OwnHeaderRead | src/fairings/api_authentication.rs:22 | a header under the guard's name, in any ASCII case, adds its value at the end where it was added |
| Fairings.OtherHeadersIgnored | src/fairings/api_authentication.rs:22 | a header under another name does not change the values a guard reads |
| Fairings.Authenticate | src/fairings/api_authentication.rs:23-42 | zero values give Missing; two or more give BadCount; one value gives Success with the record the live-token lookup returns, or Invalid |
| Fairings.ApiUserTokenFromRequest | src/fairings/api_authentication.rs:21-43 | the decision is taken on the values of "X-Misato-API-Token" only |
| Fairings.ApiTokenFromRequest | src/fairings/authentication.rs:21-43 | the decision is taken on the values of "X-Misato-Token" only |
| Fairings.SuccessHoldsLiveToken | src/fairings/api_authentication.rs:30-35 | a guard that lets a request through hands over a stored API user holding the single header value as a live token |
| RootAccount.Login | src/routes/root/account.rs:12-50 | success only when the user found by username accepts the password, and accepted credentials succeed unless the store fails; answers that user's username and uuid with the new token; on success one day-long token may be pushed and nothing else; otherwise nothing is written |
| ApiAccount.Signup | src/routes/api/account.rs:14-78 | the 400 "no permission" answer comes exactly when the caller is not an Admin holding a token; an existing username gives 400 and no write; success appends the new record and possibly sets its day-long token |
| ApiAccount.Login | src/routes/api/account.rs:80-122 | success only when the API user found by username accepts the password, and accepted credentials succeed unless the store fails; its single token may be replaced; a failure writes nothing |
| ApiAccount.CheckToken | src/routes/api/account.rs:124-164 | the 400 "no permission" answer comes exactly when the caller is not a Dev holding a token; the answer names the record that token resolves to |
| ApiAccount.Delete | src/routes/api/account.rs:166-201 | the 400 "no permission" answer comes exactly when the caller holds no token; success exactly when one record holding the caller's live token was deleted; otherwise nothing changes |
| ApiAccount.ClearTokens | src/routes/api/account.rs:203-237 | no caller check; success exactly when the unset modified one record; 400 only when no record holds the token live |
| AdminAccount.Signup | src/routes/admin/account.rs:15-78 | the 400 "no permission" answer comes exactly when the caller is not an Admin; an existing username gives 400; success inserts the user under the new uuid, possibly pushes its token, and answers token and uuid |
| AdminAccount.Profile | src/routes/admin/account.rs:80-118 | the 400 "no permission" answer comes exactly when the caller is not an Admin; answers the uuid and username of the first user with that uuid; 400 only when there is none |
| AdminAccount.ProfileFromToken | src/routes/admin/account.rs:120-161 | the 400 "no permission" answer comes exactly when the caller is not an Admin; answers the user the token filter matches; 400 only when none matches |
| AdminAccount.RefreshToken | src/routes/admin/account.rs:163-205 | the 400 "no permission" answer comes exactly when the caller is not an Admin; an existing user by uuid may get one more day-long token, earlier ones kept; 400 only when the uuid is unknown |
| AdminAccount.CheckToken | src/routes/admin/account.rs:207-253 | the 400 "no permission" answer comes exactly when the caller is not an Admin; answers the first stored token with the value, of the user the filter matches, with its uuid; the `unwrap`s never panic |
| AdminAccount.Delete | src/routes/admin/account.rs:255-290 | the 400 "no permission" answer comes exactly when the caller is not an Admin; success exactly when the first user with that uuid was deleted |
| AdminAccount.ClearTokens | src/routes/admin/account.rs:292-325 | the 400 "no permission" answer comes exactly when the caller is not an Admin; success exactly when the unset modified the user; 400 when the uuid is unknown or the user holds no list |
| UserAccount.CheckToken | src/routes/user/account.rs:14-88 | answers only an admitted token (Admin: the token filter; others: their own user's list, value only); the answer is the first stored token with the value; an admitted caller with an existing user gets it or a panic |
| UserAccount.Delete | src/routes/user/account.rs:90-186 | success deletes the API user holding the live token, never the human user; failures change nothing; a non-Admin success or 500 implies admission; an Admin caller never gets a panic |
| UserAccount.ClearTokens | src/routes/user/account.rs:188-276 | success unsets the token of the API user whose uuid equals the token string; failures change nothing; a non-Admin success or 500 implies admission; an Admin caller never gets a panic |
| UserAccount.ClearByTokenString | src/routes/user/account.rs:219 | with no API user whose uuid equals the token string, `/user/clear-tokens` changes nothing; otherwise only that first record loses its token |

## Left out

- Password hashing and verification (argon2) are not modelled. The password
  check is an uninterpreted parameter `isCorrect`, and the hash is a supplied
  `Password` value.
- The random generators are not modelled. `generate_token(128)` is a
  supplied string of 128 alphanumeric characters, and `Uuid::new_v4` is a
  supplied string.
- Every handler reads the clock once, as its `now` parameter. The source
  reads it afresh at each step: twice inside `new_token` (issue time and
  expiry) and again in every token filter of the managers. A token that
  expires between two such readings within one request is out of scope.
- Tokens.IssueToken: does not model u64 wrap-around of `now + seconds * 1000`
  or the `as i64` cast in the token filters, because both are out of reach
  for real clock readings.
- Store failures are not modelled in detail. Any store call may fail, a
  failed call is assumed not to have applied its write, and transport
  details and `println!` logging are out of scope.
- Concurrency is not modelled. Each handler is one sequential step, so races
  such as two signups passing the username check together are out of scope.
- The record shapes follow the managers and routes, not the record files:
  - ApiUser carries `username` and `password`;
  - User carries `tokens`.
- ApiUserModel.CreateDefault: the username is empty and the password is the
  default one. The record file has no such fields, so this choice is the
  model's.
- ApiUserModel.CreateApiUser: takes the username and password that the
  routes pass, in addition to the uuid of the record file's `create(uuid)`.
- `User::new_token` is modelled by `Tokens.IssueToken`: the route uses only
  the returned token and the user's uuid.
- The admin routes other than `signup` are modelled, although src/main.rs
  does not mount them.
- src/routes/api/admin/account.rs and src/routes/api/root/account.rs are not
  part of this model. They are not mounted, and they rely on a manager
  method and a guard that are absent from the source.
- Bootstrap, route registration, settings, MongoDB connection setup and the
  JSON serialisation of error responses are not modelled.
- Error messages are reduced to a `Reason`. The interpolated username, uuid
  or token in the text is not kept.
- UserAccount.CheckToken, UserAccount.Delete, UserAccount.ClearTokens: do not
  say which store call's failure leads to `Panicked` or to the 500 answer,
  because store failure is nondeterministic in the model. They do state the
  role-dependent facts that hold whatever the store does: `Delete` and
  `ClearTokens` never panic for an Admin caller, and for any other caller
  they reach the 500 answer only after the token was admitted.
- UserManagement.Appended, AdminAccount.ClearTokens: assume that a user
  without a token list is stored with the `tokens` field absent, not as
  null. The User record file declares no `tokens` field, so how the list is
  stored is not shown. With a stored null, `$unset` would modify the record,
  and Admin `clear_tokens` would succeed instead of answering 400. `$push`
  would fail instead of creating `[t]`.
