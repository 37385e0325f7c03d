# your-wallet server core in Dafny

This project models the core of the your-wallet personal-finance server. The server is an HTTP backend over four tables: users, accounts, transactions and assets. The model covers three parts:

- **Authentication.** Login checks the email shape and password length, looks the user up, verifies the password and mints an access/refresh token pair. Refresh exchanges a refresh token for a new pair. An optional gate in front of the protected routes checks a bearer token and attaches its claims to the request. The secret each token kind is signed with comes from the environment.
- **The entity store.** It runs create, fetch by id, find by parent, PATCH-style update and delete with rows affected on the four tables. The database is a `Database` object whose four maps the operations change in place. Its invariant `Valid()` carries what the schema enforces on every state: unique usernames and emails, a unique (user, symbol) pair per asset, and foreign keys. The cascading deletes are stated by the delete operations themselves (`Services.Database.DeleteUser`, `Services.Database.DeleteAccount`) and proved to keep the invariant (`Tables.UserCascade`, `Tables.AccountCascade`).
- **The HTTP handlers.** They turn parse results and store results into status codes and bodies: 201, 200, 204, 400, 404, 409 and 500.

Library calls that the model cannot see become parameters:

- **Password hashing** (`Auth.Bcrypt`) and **token signing and verification** (`Auth.Jwt`) are datatypes of functions.
- **Decimal parsing** (`Entities.DecimalParser`) is a function from text to a decimal or an error text.
- **Database faults** are parameters. A driver failure cannot be predicted from the tables, so every store call takes `fault: Option<DbErr>`. `Some(e)` makes the call fail with `e` and change nothing.
- **The clock** is a parameter. It is `now: int` in epoch seconds for tokens, and opaque text for row timestamps.
- **The environment** is a map from variable names to values.

Files:

| file | contents |
|---|---|
| `common.dfy` | `Option`, `Result`, `DbErr`, `byte` |
| `text.dfy` | Rust's `str::trim` (Unicode White_Space), UTF-8 byte length, ASCII case-insensitive equality, `HeaderValue::to_str` |
| `errors.dfy` | the JSON error envelope of `routes/error.rs`, the handlers' plain `(status, text)` errors, and the shared lookup/delete answer mapping |
| `entities.dfy` | row datatypes, PATCH bodies and the merge each update performs |
| `tables.dfy` | schema invariants, lookups by unique key, per-parent filters, and cascade deletes over the maps |
| `services.dfy` | `class Database`: the four `services/*.rs` files |
| `auth.dfy` | `routes/auth.rs`: email check, login, refresh, claims, secrets, and the gate (`class Request`, `RequireAuth`) |
| `user_routes.dfy`, `account_routes.dfy`, `asset_routes.dfy`, `transaction_routes.dfy` | the handlers |

The model follows the code as written, including:

- The resource handlers answer errors with a bare status and text, not with the JSON envelope that the authentication code uses.
- The gate's allowlist does not contain `/health` (`Auth.HealthIsGated`).
- `patch_user` has no friendly email or username conflict check. A clash reaches the unique key and is answered 500 with the database's text.
- `patch_user` writes a new password in its own write. That write is not undone when the following username/email update fails or finds no row (`UserRoutes.PatchUser`).
- The router installs neither the gate nor the refresh route. Here both are standalone operations (`Auth.RequireAuth`, `Auth.AuthRefresh`).

## Model

| member | source | states |
|---|---|---|
| Text.Trim | server/src/routes/auth.rs:70 | The trimmed text is no longer than the input and neither starts nor ends with whitespace |
| Text.TrimStartShape | server/src/routes/auth.rs:70 | Trimming the front removes a whitespace-only prefix, and what is left is empty or starts with a non-whitespace character |
| Text.TrimEndShape | server/src/routes/auth.rs:70 | Trimming the back removes a whitespace-only suffix, and what is left is empty or ends with a non-whitespace character |
| Text.TrimShape | server/src/routes/auth.rs:70 | `trim` returns a contiguous slice of its input; everything cut on either side is whitespace, and the result has non-whitespace ends |
| Text.TrimStartSkipsWhitespace | server/src/routes/auth.rs:70 | Leading whitespace is dropped and the first non-whitespace character stops the front trim |
| Text.TrimEndSkipsWhitespace | server/src/routes/auth.rs:70 | Trailing whitespace is dropped and the last non-whitespace character stops the back trim |
| Text.TrimOfPadded | server/src/routes/auth.rs:70 | Reference characterisation: trimming whitespace + t + whitespace gives t, whenever t is empty or has non-whitespace ends |
| Text.AllWhitespaceConcat | server/src/routes/auth.rs:70 | Joining two whitespace-only texts gives a whitespace-only text |
| Text.TrimIgnoresPadding | server/src/routes/auth.rs:41-42 | Extra whitespace around a text never changes its trim |
| Text.Utf8Len | server/src/routes/auth.rs:44 | The byte length of a text is between its character count and four times that |
| Text.Utf8LenOfAscii | server/src/routes/auth.rs:44 | For ASCII text the byte length is the character count |
| Text.HeaderToStr | server/src/routes/auth.rs:104 | A header value reads as text exactly when every byte is visible ASCII or tab; the text then has the same characters, byte for byte |
| ErrorShape.JsonError | server/src/routes/error.rs:10-12 | The answer carries exactly the given status, and an envelope with message = msg and code = code |
| ErrorShape.InternalJson | server/src/routes/error.rs:14-16 | Whatever the error: status 500, code "internal", message = its display text |
| ErrorShape.BadRequestJson | server/src/routes/error.rs:18-20 | Whatever the error: status 400, code "bad_request", message = its display text |
| ErrorShape.HelpersConform | server/src/routes/error.rs:4-20 | Both generic helpers give a status that agrees with their code, whatever the error |
| ErrorShape.Internal | server/src/routes/users.rs:79-81 | The handlers' `internal` is status 500 with the error's display text as body |
| ErrorShape.BadRequest | server/src/routes/accounts.rs:66-68 | The handlers' `bad_request` is status 400 with the error's display text as body |
| ErrorShape.FromFound | server/src/routes/accounts.rs:34-39 | Success iff the store found a row, and then 200 with that row; no row gives 404 with the handler's text; a store error gives 500 with its text |
| ErrorShape.FromDeleted | server/src/routes/accounts.rs:57-61 | 204 iff at least one row was affected; 0 rows gives 404 with the handler's text; a store error gives 500 with its text |
| Entities.PatchedUser | server/src/services/user.rs:52-57 | A provided username/email overwrites; an absent one keeps the old value; id, password hash and timestamps are kept |
| Entities.PatchedAccount | server/src/services/account.rs:50-56 | Provided name, type, balance and currency overwrite, absent ones are kept; id, owner and creation time never change |
| Entities.PatchedAsset | server/src/services/asset.rs:52-57 | Provided name, quantity, average price and type overwrite, absent ones are kept; owner and symbol never change, so the (user, symbol) key is unaffected |
| Entities.PatchedTransaction | server/src/services/transaction.rs:50-56 | Provided type, amount and description overwrite; a provided category becomes `Some` of it and an absent one keeps the old value, so a set category is never cleared; id, account and creation time are kept |
| Entities.UserPatchMerges | server/src/services/user.rs:52-57 | Applying a user patch twice equals applying it once; a patch that provides nothing changes nothing |
| Entities.AccountPatchMerges | server/src/services/account.rs:50-56 | An account patch is idempotent; the empty patch changes nothing |
| Entities.AssetPatchMerges | server/src/services/asset.rs:52-57 | An asset patch is idempotent; the empty patch changes nothing |
| Entities.TransactionPatchMerges | server/src/services/transaction.rs:50-56 | A transaction patch is idempotent; the empty patch changes nothing |
| Entities.ParseOptional | server/src/routes/accounts.rs:47-50 | An absent decimal stays absent without parsing; a present one succeeds iff it parses and then holds the parsed value; a failure passes on the parser's error text |
| Tables.UserWithUsername | server/src/services/user.rs:26-34 | Found iff some row has that username, and then the row is in the table with that username |
| Tables.UserWithEmail | server/src/services/user.rs:36-44 | Found iff some row has that email, and then the row is in the table with that email |
| Tables.AccountsOfUser | server/src/services/account.rs:31-39 | Exactly the table's accounts whose owner is the user: every member matches, and every matching row is a member |
| Tables.AssetsOfUser | server/src/services/asset.rs:33-41 | Exactly the table's assets whose owner is the user |
| Tables.TransactionsOfAccount | server/src/services/transaction.rs:31-39 | Exactly the table's transactions booked on the account |
| Tables.UserCascade | server/migration/src/m000001_create_tables.rs:75-82 | Deleting a user with the declared cascades removes exactly its accounts, its assets and those accounts' transactions. Every surviving row is untouched and every schema constraint still holds |
| Tables.AbsentUserCascade | server/migration/src/m000001_create_tables.rs:75-82 | Deleting a user that does not exist cascades to nothing |
| Tables.AccountCascade | server/migration/src/m000001_create_tables.rs:120-127 | Deleting an account removes exactly its transactions and keeps every constraint |
| Tables.AbsentAccountCascade | server/migration/src/m000001_create_tables.rs:120-127 | Deleting an account that does not exist cascades to nothing |
| Services.Database.constructor | server/migration/src/m000001_create_tables.rs:9-33 | A fresh database is empty, its id counters start at 1, and it satisfies every schema constraint |
| Services.Database.CreateUser | server/src/services/user.rs:4-17 | Adds exactly one row with the given fields under a fresh id. A held email fails on the email key; otherwise a held username fails on the username key (the database checks the unique index created last first, so a row clashing on both reports the email). A failure changes nothing, and the constraints are kept |
| Services.Database.GetUserById | server/src/services/user.rs:19-24 | `None` iff no row has that id; otherwise that row |
| Services.Database.GetUserByUsername | server/src/services/user.rs:26-34 | A row with that username, `None` iff there is none; by the unique key it is the only one |
| Services.Database.GetUserByEmail | server/src/services/user.rs:36-44 | A row with that email, `None` iff there is none; by the unique key it is the only one |
| Services.Database.UpdateUser | server/src/services/user.rs:46-61 | An absent id gives `None` and no change. Otherwise the merged row, unless its email, or else its username, clashes with another row (that key's unique-key error, no change). Nothing else changes |
| Services.Database.UpdateUserPassword | server/src/services/user.rs:63-76 | Replaces only the password hash of the row, or gives `None` for an absent id with no change |
| Services.Database.DeleteUser | server/src/services/user.rs:78-84 | Gives 1 and removes the user with its cascade when the user exists. Gives 0 and changes nothing otherwise |
| Services.Database.CreateAccount | server/src/services/account.rs:5-22 | Adds exactly one row with the given fields under a fresh id, or fails on the foreign key when the user does not exist |
| Services.Database.GetAccountById | server/src/services/account.rs:24-29 | `None` iff no row has that id; otherwise that row |
| Services.Database.FindAccountsByUser | server/src/services/account.rs:31-39 | Exactly the rows with that owner, order unspecified |
| Services.Database.UpdateAccount | server/src/services/account.rs:41-60 | An absent id gives `None` and no change; otherwise the merged row replaces the old one and nothing else changes |
| Services.Database.DeleteAccount | server/src/services/account.rs:62-68 | Gives 1 and removes the account with its transactions when it exists. Gives 0 and changes nothing otherwise |
| Services.Database.CreateAsset | server/src/services/asset.rs:5-24 | Adds exactly one row under a fresh id. It fails on the unique (user, symbol) index when the user already holds the symbol, and otherwise on the foreign key when the user does not exist |
| Services.Database.GetAssetById | server/src/services/asset.rs:26-31 | `None` iff no row has that id; otherwise that row |
| Services.Database.FindAssetsByUser | server/src/services/asset.rs:33-41 | Exactly the rows with that owner |
| Services.Database.UpdateAsset | server/src/services/asset.rs:43-62 | An absent id gives `None` and no change; otherwise the merged row replaces the old one, and the (user, symbol) key stays unique |
| Services.Database.DeleteAsset | server/src/services/asset.rs:64-70 | 1 and the row removed if present, else 0 and no change |
| Services.Database.CreateTransaction | server/src/services/transaction.rs:5-22 | Adds exactly one row under a fresh id with the category exactly as given, including none. Fails on the foreign key when the account does not exist |
| Services.Database.GetTransactionById | server/src/services/transaction.rs:24-29 | `None` iff no row has that id; otherwise that row |
| Services.Database.FindTransactionsByAccount | server/src/services/transaction.rs:31-39 | Exactly the rows booked on that account |
| Services.Database.UpdateTransaction | server/src/services/transaction.rs:41-61 | An absent id gives `None` and no change; otherwise the merged row replaces the old one |
| Services.Database.DeleteTransaction | server/src/services/transaction.rs:63-69 | 1 and the row removed if present, else 0 and no change |
| Auth.AccessSecret | server/src/routes/auth.rs:76 | `JWT_SECRET` if set, else "your-secret-key" |
| Auth.RefreshSecret | server/src/routes/auth.rs:131 | `JWT_REFRESH_SECRET` if set, else `JWT_SECRET` if set, else "your-secret-key" |
| Auth.SecretSelection | server/src/routes/auth.rs:76 | The access secret does not depend on `JWT_REFRESH_SECRET`. Without that variable both token kinds share one secret. Without `JWT_SECRET` the access secret is the default |
| Auth.AccessClaims | server/src/routes/auth.rs:117-121 | Subject = email, uid = user id, issued now, exp − iat = 3600 |
| Auth.RefreshClaims | server/src/routes/auth.rs:126-130 | Subject = email, uid = user id, issued now, exp − iat = 2592000 |
| Auth.CreateAccessToken | server/src/routes/auth.rs:117-124 | With a sound token library, a signed access token verifies under the access secret as exactly its access claims at every time up to one hour plus the 60-second leeway after issue, and at no later time |
| Auth.CreateRefreshToken | server/src/routes/auth.rs:126-133 | With a sound token library, a signed refresh token is not blank and verifies under the refresh secret as exactly its refresh claims up to thirty days plus the leeway after issue, and at no later time |
| Auth.VerifyToken | server/src/routes/auth.rs:75-79 | With a sound token library, verification at time `now` never yields claims whose expiry plus the leeway is before `now` |
| Auth.VerifyRefresh | server/src/routes/auth.rs:135-139 | With a sound token library, verification at time `now` never yields claims whose expiry plus the leeway is before `now` |
| Auth.MintPair | server/src/routes/auth.rs:63-66 | A pair iff both signings succeed, access first. The first failure is a 500 envelope with its text |
| Auth.MintedPairVerifies | server/src/routes/auth.rs:117-139 | With a sound token library, at any time `t` the minted access token verifies iff an hour plus the leeway has not passed, and then as the access claims; the refresh token likewise with thirty days, as the refresh claims; the refresh token is not blank |
| Auth.IsValidEmail | server/src/routes/auth.rs:69-73 | A valid email is at least two characters once trimmed and ends in neither '.' nor whitespace |
| Auth.IsValidEmailIgnoresPadding | server/src/routes/auth.rs:69-73 | The shape check (trimmed text has '@' and '.', does not end in '.') gives the same answer with any whitespace around the email |
| Auth.BlankEmailIsInvalid | server/src/routes/auth.rs:41 | An email that is blank after trimming never passes the shape check |
| Auth.AuthLogin | server/src/routes/auth.rs:36-67 | Checks run in this order: a bad or blank email gives 400 "invalid email"; then fewer than 6 password bytes gives 400 "password too short"; then the lookup by the untrimmed email; then password verification; then minting. Each error maps as in the source, and every error envelope agrees with its code |
| Auth.CredentialFailuresIndistinguishable | server/src/routes/auth.rs:49-60 | An unknown email and a wrong password give the identical answer (401, "invalid_credentials", "invalid credentials") |
| Auth.PaddedEmailIsNotFound | server/src/routes/auth.rs:41-54 | A valid email sent with a leading space passes the shape check. The lookup is untrimmed, so when no row holds the padded text the answer is invalid credentials |
| Auth.LoginTokensCarryClaims | server/src/routes/auth.rs:49-66 | A successful login means that a row with exactly that email exists and the password verified against its hash. At the login's time the tokens verify as that user's access and refresh claims |
| Auth.AuthRefresh | server/src/routes/auth.rs:141-151 | A blank token gives 400 with no verification. A token that does not verify under the refresh secret at the current time gives 401 "invalid_token". Otherwise a new pair is minted from the claims' uid and subject |
| Auth.RefreshAfterLogin | server/src/routes/auth.rs:141-151 | The refresh token of a successful login, presented within thirty days plus the leeway, is exchanged for a pair minted for the same user id and email |
| Auth.ExpiredRefreshIsRefused | server/src/routes/auth.rs:145-146 | After thirty days plus the leeway, the same refresh token is refused with 401 "invalid or expired refresh token" |
| Text.EqIgnoreAsciiCaseLowers | server/src/routes/auth.rs:88 | Equality ignoring ASCII case holds iff the ASCII lower-case forms are equal |
| Auth.AuthRequired | server/src/routes/auth.rs:87-88 | The gate is on iff `REQUIRE_AUTH` is set and its ASCII lower-case form is "true" or it is "1"; an unset variable disables it |
| Auth.IsPublic | server/src/routes/auth.rs:94-96 | Every public path is an API path, and a public request that is not a POST is to an authentication endpoint |
| Auth.AuthorizationText | server/src/routes/auth.rs:104 | The header reads as the same characters, byte for byte, when every byte is visible ASCII or tab, and as "" otherwise |
| Auth.GateDecide | server/src/routes/auth.rs:86-114 | Gate off or public path: pass. Then, in order: no header gives 401 `missing_authorization`; no exact "Bearer " prefix gives 401 `invalid_authorization`; a token after the prefix that fails verification gives 401 `invalid_token`; otherwise its claims are attached. Every rejection is a 401 whose code agrees. With a sound token library, attached claims are never past their expiry plus the leeway |
| Auth.NonAsciiHeaderIsInvalidAuthorization | server/src/routes/auth.rs:104-107 | A header value with a non-visible byte reads as "" and is refused as `invalid_authorization` |
| Auth.HealthIsGated | server/src/routes/auth.rs:96 | `/health` is not public: with the gate on and no header it is refused as `missing_authorization` |
| Auth.LoginTokenOpensGate | server/src/routes/auth.rs:101-113 | Sending "Bearer " + the access token of a successful login within an hour plus the leeway opens the gate and attaches that user's access claims |
| Auth.ExpiredLoginTokenIsRejected | server/src/routes/auth.rs:109-110 | After an hour plus the leeway the same header is refused as `invalid_token` |
| Auth.Request.constructor | server/src/routes/auth.rs:83 | A request starts with the given path, method and headers and no claims attached |
| Auth.RequireAuth | server/src/routes/auth.rs:81-115 | Forwards or rejects as `GateDecide` decides. It stores the claims in the request exactly when they are attached, and otherwise leaves the request unchanged |
| UserRoutes.ToUserOut | server/src/routes/users.rs:30-40 | The view copies the row's id, username, email and both timestamps |
| UserRoutes.UserOutHidesPasswordHash | server/src/routes/users.rs:21-40 | The public view ignores the password hash: two rows have the same view iff they differ at most in their hash |
| UserRoutes.PostUser | server/src/routes/users.rs:42-53 | A username found by the lookup gives 409 "username already exists". Next, an email found gives 409 "email already exists". Both happen with no hashing and no insert. A failed lookup falls through: a duplicate then meets the unique keys and gives 500 with the key's text, the email's when both are held. A hash or insert failure gives 500. Success gives 201 with the new row's view. A failure changes nothing |
| UserRoutes.GetUser | server/src/routes/users.rs:55-60 | 200 with the user's view iff the row exists; 404 "user not found" otherwise; 500 on a store error |
| UserRoutes.PatchUser | server/src/routes/users.rs:62-71 | A provided password is hashed and stored first; a failure there is 500 and nothing changes. Then the username/email merge: 200 with the merged view; 404 for an absent id; 500 on a clash (the email's key first) or a store error. The password write stays in place in every case. Without a password, or for an absent id, a failure changes nothing |
| UserRoutes.DeleteUserRoute | server/src/routes/users.rs:73-77 | 204 and the user gone with its cascade iff it existed, after which a fetch answers 404. Otherwise 404 and nothing changes; a store error gives 500 |
| AccountRoutes.PostAccount | server/src/routes/accounts.rs:28-32 | A balance that does not parse gives 400 with the parse error, and the store is not called. Otherwise a store error gives 500 with its text, and a success gives 201 with the stored row |
| AccountRoutes.GetAccount | server/src/routes/accounts.rs:34-39 | 200 with the row iff it exists; 404 "account not found" otherwise; 500 on a store error |
| AccountRoutes.ListAccounts | server/src/routes/accounts.rs:41-44 | 200 with exactly the user's accounts, possibly none; 500 on a store error |
| AccountRoutes.PatchAccount | server/src/routes/accounts.rs:46-55 | A malformed balance gives 400 before any update. Otherwise the merged row with 200, 404 for an absent id, or 500 on a store error |
| AccountRoutes.DeleteAccountRoute | server/src/routes/accounts.rs:57-61 | 204 iff the account existed, and it is removed with its transactions; otherwise 404 and no change; 500 on a store error |
| AssetRoutes.PostAsset | server/src/routes/assets.rs:29-34 | The quantity is parsed, then the average price; the first failure gives 400 and nothing is inserted. A held symbol, a missing user or a store error gives 500 with its text. A success gives 201 with the stored row |
| AssetRoutes.GetAsset | server/src/routes/assets.rs:36-41 | 200 with the row iff it exists; 404 "asset not found" otherwise; 500 on a store error |
| AssetRoutes.ListAssets | server/src/routes/assets.rs:43-46 | 200 with exactly the user's assets; 500 on a store error |
| AssetRoutes.PatchAsset | server/src/routes/assets.rs:48-55 | A malformed quantity, then a malformed average price, gives 400 before any update. Otherwise the merged row with 200, 404 for an absent id, or 500 |
| AssetRoutes.DeleteAssetRoute | server/src/routes/assets.rs:57-61 | 204 iff the asset existed and is removed; otherwise 404 and no change; 500 on a store error |
| TransactionRoutes.PostTransaction | server/src/routes/transactions.rs:28-32 | An amount that does not parse gives 400 and the store is not called. Otherwise 201 with the stored row, category passed through as given; or 500 with the store's text |
| TransactionRoutes.GetTransaction | server/src/routes/transactions.rs:34-39 | 200 with the row iff it exists; 404 "transaction not found" otherwise; 500 on a store error |
| TransactionRoutes.ListTransactions | server/src/routes/transactions.rs:41-44 | 200 with exactly the account's transactions; 500 on a store error |
| TransactionRoutes.PatchTransaction | server/src/routes/transactions.rs:46-55 | A malformed amount gives 400 before any update. Otherwise the merged row, with the category option forwarded as is: 200, 404 for an absent id, or 500 |
| TransactionRoutes.DeleteTransactionRoute | server/src/routes/transactions.rs:57-61 | 204 iff the row existed and is removed; otherwise 404 and no change; 500 on a store error |

## Left out

- Password hashing and verification are oracles (`Auth.Bcrypt`): the bcrypt algorithm and its cost factor are not modelled.
- Token signing and verification are oracles (`Auth.Jwt`); HS256 signatures and base64url encoding are not modelled. Properties that need more assume `Auth.JwtSound`: a token signed under a secret decodes under that secret to exactly its claims until 60 seconds (the default validation's leeway) past its expiry and is refused afterwards, and no token is accepted past its own expiry plus the leeway. That a different secret or a tampered token is refused is not part of this assumption.
- Decimal parsing is an oracle (`Entities.DecimalParser`). The decimal(16,8) column precision and rounding on storage are not modelled.
- Time: the model takes one `now` per request. The source reads the clock separately for the access and the refresh token, so their issue times may differ by the time between the two reads. Row timestamps are opaque text; RFC 3339 formatting and database defaults are not modelled.
- Ids and counters are unbounded integers: 32-bit id overflow and the 64-bit rows-affected count are not modelled.
- List results are sets, so the order rows come back in is not modelled.
- Database error texts are modelled as SQLite's core texts ("UNIQUE constraint failed: <columns>", "FOREIGN KEY constraint failed"). The wrapping the database driver adds to those texts is not modelled.
- JSON, path and query extraction, and the framework's answers to malformed requests, are not modelled. A header that appears several times is modelled by its first value only.
- Router wiring, server start-up, configuration reading, the migration runner and the asset-price table are not part of this model.
- Concurrency is not modelled. Every handler runs alone against the database, so a race between the registration pre-check and the insert is not captured.
- The user and transaction entity files are not part of this model. Their rows are taken from the schema and the services, and the model assumes no hook refreshes `updated_at` on update.
