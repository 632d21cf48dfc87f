# go-server core in Dafny

A model of the core of go-server, a small authentication and user-profile
backend written in Go with a TypeScript web client, together with proofs
about that model. The model covers the following parts:

- **Store layer.** The TTL cache (`Cache`) and the cache-through `Store`
  with its user cache and instance-setting cache. The record types are in
  `StoreModel` and the setting conversion is in `InstanceSettings`. The
  database is `Database.Driver`: tables are sequences in rowid order, with
  the SQLite driver's soft deletes and nil-on-no-row lookups, and the MySQL
  driver's settings table.
- **SQL query builders.** These cover SQLite users and refresh tokens,
  PostgreSQL users and MySQL settings. Each builder is an imperative method
  that grows `query` and `args` step by step. It is proved to emit one
  placeholder per argument. A second proof shows that the statement, when
  executed, selects or writes exactly what the store layer promises
  (`UserSql`, `Sql`).
- **Authentication.** The model covers:
  - bearer extraction;
  - the access-token authenticator;
  - the public-method allowlist;
  - request-context claims;
  - the server-to-API role tables;
  - one transport-agnostic admission decision, with its gRPC, Connect and
    gateway bindings.
- **Services.**
  - `AuthService`: login and refresh-token rotation as a state machine over
    the refresh_tokens table, plus ValidateToken and Logout.
  - `UserService`: registration validation (with `Email`, a recognizer for
    the e-mail pattern), profile read and partial update, and password
    change.
  - `InstanceService`: the instance profile.
- **Middleware.** The model covers:
  - the unified response envelope and the Connect code tables (`Response`);
  - the gateway error handler and its buffering response wrapper
    (`GatewayError`, over `HttpWriters`);
  - the CSRF double-submit check;
  - the rate-limiter registry;
  - the metadata interceptor;
  - health aggregation.
- **Configuration.** `Profile.Validate` defaults the data directory and the
  DSN, and normalises the data directory.
- **Web client.** The time-display helpers (`WebTime`), role labels
  (`WebRole`) and the login form's validation (`LoginForm`).

Several things the running system gets from outside become explicit inputs
to the model:

- the clock is a `now` argument;
- the crypto primitives are a `Crypto.Crypto` value, with the laws their
  tests state as `CryptoLaws`. Which passwords a bcrypt hash accepts is
  `Crypto.BcryptLaw`: exactly those whose first 72 UTF-8 bytes match;
- the filesystem, JSON encoding, protojson and the token bucket are
  parameters;
- a database error on a call is a `fault` flag.

## Model

| member | source | states |
|---|---|---|
| StoreModel.RoleString | store/model.go:20-22 | a role prints as its own text, character for character |
| StoreModel.ValidRolesAreExactlyAdminAndUser | store/model.go:9-17 | the two role constants differ, and a role is valid exactly when it is "admin" or "user" |
| StoreModel.IsValidRole | store/model.go:15-17 | a role is valid exactly when its text is "admin" or "user" |
| Cache.TtlCache.constructor | store/cache/cache.go:29-40 | a new cache keeps its Config, holds no items and is not closed |
| Cache.TtlCache.Set | store/cache/cache.go:42-50 | the key now maps to the value with expiry now + DefaultTTL, replacing any earlier entry; no other key changes |
| Cache.TtlCache.Get | store/cache/cache.go:52-67 | answers the value of a present, unexpired entry and nothing otherwise; an expired entry for the key is deleted and nothing else changes |
| Cache.TtlCache.Delete | store/cache/cache.go:69-74 | the key is gone and every other entry is kept |
| Cache.TtlCache.Close | store/cache/cache.go:76-79 | Close may run only once (a second close of stopCh panics) and leaves the cache closed |
| Cache.TtlCache.SweepTick | store/cache/cache.go:85-95 | one cleanup tick, deleting while ranging over the map, leaves exactly the unexpired entries |
| Cache.DeleteAfterGet | store/cache/cache.go:52-74 | a Get followed by a Delete of the same key leaves what the Delete alone leaves |
| Cache.SetThenGet | store/cache/cache.go:42-67 | after Set, Get returns the value up to and including the expiry instant and nothing after it |
| Cache.DeleteThenGet | store/cache/cache.go:52-74 | after Delete, Get finds nothing and changes nothing |
| Cache.GetChangesOnlyItsKey | store/cache/cache.go:52-67 | Get only ever removes its own key, and only when expired; it misses exactly when the key is absent or expired |
| Cache.SweepRemovesExactlyExpired | store/cache/cache.go:88-94 | a key survives the sweep exactly when it was present and unexpired, with its entry unchanged |
| Cache.SetNeverEvicts | store/cache/cache.go:42-50 | inserting a new key grows the map by one and keeps every key: MaxItems is never enforced |
| Cache.OtherOpsUnobservable | store/cache/cache.go:52-101 | Gets, sweeps and writes to other keys at or before time t do not change what a Get of the key answers at t |
| Cache.SetIsReadBackUntilExpiry | store/cache/cache.go:42-67 | after Set(key, v) at now, a Get at any t <= now + TTL returns v, whatever other operations ran meanwhile |
| Database.SelectUsers | store/db/sqlite/user.go:90-129 | ListUsers returns only live rows of the table that match every set filter, at most all rows |
| Database.SelectUsersComplete | store/db/sqlite/user.go:90-129 | every live row matching the filters is returned: the listing misses nothing |
| Database.ApplyUserUpdate | store/db/sqlite/user.go:42-79 | an update keeps the row's id, created_at and deleted_at and always sets updated_at to now |
| Database.NoChangeOnlyBumpsUpdatedAt | store/db/sqlite/user.go:42-79 | an UpdateUser carrying only an ID changes nothing but updated_at |
| Database.SelectTokens | store/db/sqlite/refresh_token.go:58-93 | ListRefreshTokens returns only live rows matching every set filter |
| Database.FirstTokenIsEarliest | store/db/sqlite/refresh_token.go:103-117 | GetRefreshToken answers the earliest live row holding the token |
| Database.SelectSettings | store/db/mysql/instance_setting.go:26-65 | ListInstanceSettings returns table rows, only those with the given name when a name is set |
| Database.IndexOfName | store/db/mysql/instance_setting.go:9-18 | the key lookup of ON DUPLICATE KEY: the row with that name, or none when no row has it |
| Database.UpsertSpec | store/db/mysql/instance_setting.go:9-24 | after an upsert names stay unique, the name selects exactly the new row, rows of other names are kept and nothing else appears |
| Database.UniqueSelect | store/db/mysql/instance_setting.go:26-39 | with unique names, a stored row is the only one its name selects |
| Database.NoneSelected | store/db/mysql/instance_setting.go:26-39 | a name no row holds selects nothing |
| Database.Driver.constructor | store/db/sqlite/sqlite.go:18-31 | a new driver has empty tables and is open |
| Database.Driver.CreateUser | store/db/sqlite/user.go:12-40 | the new row gets the next ID, password_expires = now + 90 days and created_at = updated_at = now, and is returned; a database error changes nothing |
| Database.Driver.UpdateUser | store/db/sqlite/user.go:42-88 | a live row with the ID takes the update; the answer is the re-read row, nil with no error when no live row has the ID; a failed UPDATE changes nothing, while a failed re-read reports "failed to get user by id" with the row already updated |
| Database.Driver.ListUsers | store/db/sqlite/user.go:90-129 | the answer is exactly SelectUsers over the table, or the error |
| Database.Driver.DeleteUser | store/db/sqlite/user.go:131-137 | a soft delete: deleted_at is set on the live row with the ID only, every other row is unchanged |
| Database.Driver.GetUser | store/db/sqlite/user.go:139-185 | GetUserByID/Username/Email answer the first live match, nil with no error when there is none |
| Database.Driver.CreateRefreshToken | store/db/sqlite/refresh_token.go:12-35 | the new row gets the next ID, revoked = false and the input's UserID, Token and ExpiresAt, and is returned |
| Database.Driver.UpdateRefreshToken | store/db/sqlite/refresh_token.go:37-56 | a live row takes updated_at = now and whatever Revoked holds, false included; nil Revoked only bumps updated_at; the answer is the re-read row or nil; a failed UPDATE changes nothing, while a failed re-read reports "failed to get refresh token by id" with the row already updated |
| Database.Driver.ListRefreshTokens | store/db/sqlite/refresh_token.go:58-93 | the answer is exactly SelectTokens over the table, or the error |
| Database.Driver.DeleteRefreshToken | store/db/sqlite/refresh_token.go:95-101 | a soft delete of the live row with the ID, nothing else changes |
| Database.Driver.GetRefreshToken | store/db/sqlite/refresh_token.go:103-117 | the first live row with the token, nil with no error for an unknown or deleted token |
| Database.Driver.UpsertInstanceSetting | store/db/mysql/instance_setting.go:9-24 | success returns the input record unchanged and stores it under its name; an error returns no record and changes nothing |
| Database.Driver.ListInstanceSettings | store/db/mysql/instance_setting.go:26-65 | the answer is SelectSettings over the table, an empty list when nothing matches |
| Database.Driver.DeleteInstanceSetting | store/db/mysql/instance_setting.go:67-71 | every row with the name is removed and the rest kept in order |
| Database.Driver.Ping | store/db/sqlite/sqlite.go:46-48 | Ping reports the database's error or nil |
| Database.Driver.Close | store/db/sqlite/sqlite.go:35 | the driver is closed, and a failure to close the handle is returned as the error |
| Database.RemoveSetting | store/db/mysql/instance_setting.go:67-71 | a row survives the delete exactly when its name differs |
| Database.RemoveKeepsNamesUnique | store/db/mysql/instance_setting.go:67-71 | deleting keeps the primary key unique |
| Database.AtMostOneRowPerName | store/db/mysql/instance_setting.go:26-39 | a lookup by name answers at most one row, and only a row of that name |
| Database.DeletedNameIsGone | store/db/mysql/instance_setting.go:67-71 | after the delete the name selects nothing |
| Database.FindByIdIsRowLookup | store/db/sqlite/user.go:139-153 | with auto-increment IDs, GetUserByID is the row at that position when it is live, nil otherwise |
| Database.FindByIdAt | store/db/sqlite/user.go:139-153 | the same lookup for a table slice whose IDs start at base + 1 |
| Database.TokenByIdIsRowLookup | store/db/sqlite/refresh_token.go:119-133 | GetRefreshTokenByID is the row at that position when it is live, nil otherwise |
| Database.TokenByIdAt | store/db/sqlite/refresh_token.go:119-133 | the same lookup for a slice whose IDs start at base + 1 |
| InstanceSettings.ConvertFromRaw | store/instance_setting.go:115-131 | a row named BASIC becomes a BASIC setting holding the unmarshalled value, or the unmarshal error; any other name is skipped as (nil, nil) |
| InstanceSettings.ConvertRows | store/instance_setting.go:60-72 | the listing loop keeps at most one setting per row, every kept setting is BASIC, and it stops at the first conversion error |
| InstanceSettings.NoBasicRowsListNothing | store/instance_setting.go:60-72 | rows without the BASIC name list nothing and raise no error |
| InstanceSettings.SingleBasicRow | store/instance_setting.go:60-72 | one decodable BASIC row lists exactly that setting |
| Store.StaleEntryAfterFailedReRead | store/store.go:102-109 | as written, an error from the re-read after an UPDATE that went through returns before the cache delete, and the kept entry no longer matches the row |
| Store.StaleEntryExample | store/store.go:102-109 | the concrete input: user 1 cached, an UPDATE at a later time, its re-read failing; the cache was coherent before and is not after |
| Store.UpdateOfMissingUserDereferencesNil | store/store.go:102-109 | as written, UpdateUser reads user.ID from the driver's (nil, nil) for a missing or soft-deleted ID: a nil dereference |
| Store.UpdateOnEmptyTableDereferencesNil | store/store.go:102-109 | the concrete input: updating user 1 of an empty users table dereferences nil |
| Store.CachedReadAgreesWithDriver | store/store.go:80-96 | with a coherent cache, a cached read by ID answers what the database would |
| Store.ResolvedUserIsLive | store/store.go:80-96 | whichever way a lookup by ID succeeds, the user is the live row with that ID |
| Store.CoherenceAfterRowChange | store/store.go:102-117 | dropping the changed user's cache entry keeps every other cached user equal to its row |
| Store.CoherenceAfterAppend | store/store.go:71-78 | caching the created user under its ID keeps the cache coherent with the grown table |
| Store.CoherenceAfterGet | store/store.go:80-87 | the lazy expiry of a cache Get keeps the cache coherent |
| Store.CacheAllKeys | store/instance_setting.go:60-72 | caching a listing keeps every cached key and adds the BASIC key when anything was listed |
| Store.Store.constructor | store/store.go:45-58 | a new store has two empty, open caches over the driver with the 10-minute TTL configuration |
| Store.Store.Close | store/store.go:62-65 | Close closes the user cache (once only) and the driver, and returns the driver's close error unchanged; the setting cache's sweeper is left running |
| Store.Store.Ping | store/store.go:67-69 | the driver's ping outcome |
| Store.Store.CreateUser | store/store.go:71-78 | the created user is returned and cached under its decimal ID, only on success |
| Store.Store.GetUser | store/store.go:80-96 | with an ID an unexpired cached user answers; otherwise the first listed row, or sql.ErrNoRows for none; only lazy expiry touches the cache |
| Store.Store.ListUsers | store/store.go:98-100 | the driver's listing, unchanged |
| Store.Store.UpdateUser | store/store.go:102-109 | corrected: the ID's cache entry is dropped whatever the driver answers, so the cache stays coherent even when the re-read fails after the UPDATE; the row takes the update unless the UPDATE itself fails; a missing user is passed on as nil |
| Store.Store.DeleteUser | store/store.go:111-117 | the soft delete, then the cache entry is dropped, only after the driver succeeds |
| Store.Store.GetUserByUsername | store/store.go:119-121 | the driver's first live match by username, nil for none |
| Store.Store.GetUserByEmail | store/store.go:123-125 | the driver's first live match by email, nil for none |
| Store.Store.CreateRefreshToken | store/store.go:127-129 | passed through to the driver |
| Store.Store.UpdateRefreshToken | store/store.go:131-133 | passed through to the driver, including a failed re-read after the row was updated |
| Store.Store.ListRefreshTokens | store/store.go:135-137 | passed through to the driver |
| Store.Store.DeleteRefreshToken | store/store.go:139-141 | passed through to the driver |
| Store.Store.GetRefreshToken | store/store.go:143-145 | passed through to the driver |
| Store.Store.UpsertInstanceSetting | store/instance_setting.go:26-52 | a non-BASIC key is refused and changes nothing; a marshal failure or a database fault returns its wrapped error with the table unchanged; after a successful upsert the row is stored even when the conversion then fails with "Failed to convert instance setting"; success stores the marshalled value under the key name, caches and returns the converted setting; with a round-tripping codec the input comes back unchanged |
| Store.Store.ListInstanceSettings | store/instance_setting.go:54-73 | the converted listing of the driver's rows, each kept setting cached in turn, stopping at the first conversion error |
| Store.Store.CacheListing | store/instance_setting.go:60-72 | the loop over the driver's rows: its result is the converted listing and the cache holds each kept setting |
| Store.Store.CacheConverted | store/instance_setting.go:62-70 | one iteration: a kept setting is cached under its key, a skipped or failing row leaves the cache alone |
| Store.Store.GetInstanceSetting | store/instance_setting.go:75-94 | a cached setting answers without the driver and leaves the cache alone; otherwise none, the only listed setting, or an error for several, and the cache, after the lazy expiry of the missed key, holds each setting the listing kept (unchanged on a database error) |
| Store.Store.GetInstanceBasicSetting | store/instance_setting.go:96-113 | a cached or stored BASIC setting answers its basic part; none gives the empty setting; a lookup error is wrapped with "failed to get instance basic setting"; success caches the BASIC setting it returns; without a fault and with decodable rows it succeeds |
| Store.ConvertStep | store/instance_setting.go:61-71 | one more row of the loop converts and appends, skips, or stops with the wrapped error |
| Store.FailureIsFinal | store/instance_setting.go:62-65 | once a conversion fails, later rows change nothing |
| Store.CacheAllStep | store/instance_setting.go:69 | caching one more setting writes its key after the earlier ones |
| Store.BasicLookupCannotFail | store/instance_setting.go:75-94 | with unique names and decodable rows, looking BASIC up cannot fail without a database fault |
| Bearer.ExtractBearerToken | server/auth/extract.go:9-14 | a header with the "Bearer " prefix is that prefix followed by the token; any other header gives "" |
| Bearer.ExtractRoundTrip | server/auth/extract.go:9-14 | extraction inverts prefixing: "Bearer " + t gives back t for every t |
| Bearer.SchemeIsCaseSensitive | server/auth/extract.go:10 | "bearer " and "BEARER " headers yield no token |
| Bearer.BareSchemeLooksMissing | server/auth/extract.go:9-14 | the bare scheme "Bearer " and the empty header both give "" |
| Bearer.OnlyOnePrefixRemoved | server/auth/extract.go:11 | a doubled prefix leaves one "Bearer " in the token |
| Bearer.NonEmptyTokenCharacterisation | server/auth/extract.go:9-14 | a non-empty token comes out exactly when the header starts with the prefix and is longer than it |
| Acl.ExactlyFourPublicMethods | server/common/acl.go:4-13 | the allowlist has four entries, and a procedure is public exactly when it is Login, RefreshToken, ValidateToken or RegisterUser |
| Acl.ProtectedMethods | server/common/acl.go:4-13 | Logout, GetUserProfile, UpdateUserProfile, ChangePassword and GetInstanceProfile are not public |
| Acl.MatchingIsExact | server/common/acl.go:12 | a lower-cased name, a name without the leading slash, or one with a trailing slash is not public |
| Acl.IsPublicMethod | server/common/acl.go:4-13 | a public procedure is a full method name in the goserver.api.v1 package, and Logout is not one |
| Claims.GetUserID | server/auth/claims.go:23-28 | the int64 stored under the user-ID key, and 0 when the key is absent or holds another type |
| Claims.GetUserClaims | server/auth/claims.go:30-35 | the claims pointer stored under the claims key, and nil when it is absent or holds another type |
| Claims.WithValue | server/auth/claims.go:37-47 | storing a value never touches the incoming metadata |
| Claims.ClaimsRoundTrip | server/auth/claims.go:37-39 | claims stored are read back; the user ID and every other key are unchanged |
| Claims.SetUserInContextEffect | server/auth/claims.go:41-47 | the user's ID is stored, the token only when non-empty, and the claims are left as they were |
| Claims.UserIdRoundTrip | server/auth/gateway_middleware.go:49-51 | an ID stored with SetUserIDInContext reads back; a non-int64 value under the key reads as 0 |
| Claims.SetUserClaimsInContext | server/auth/claims.go:37-39 | only the claims key is set; every other stored value and the metadata are kept |
| Claims.SetUserIDInContext | server/auth/gateway_middleware.go:49-51 | only the user-ID key is set; every other stored value and the metadata are kept |
| Claims.SetUserInContext | server/auth/claims.go:41-47 | the user-ID key is set, the access-token key only for a non-empty token; stored claims and the metadata are kept |
| Authenticator.AuthenticateByAccessTokenV2 | server/auth/authenticator.go:46-56 | claims come back exactly when the token validates, and carry the validated user ID, username and role |
| Authenticator.Authenticate | server/auth/authenticator.go:27-44 | a result exists exactly when the bearer token is non-empty, lacks the "pat_" prefix and validates; it then holds the claims and the raw token and no user |
| Authenticator.GeneratedTokenAuthenticates | server/auth/authenticator.go:27-56 | a freshly generated access token sent as "Bearer " + token authenticates with the user ID, username and role it was issued for |
| Authenticator.PersonalAccessTokensRefused | server/auth/authenticator.go:33-43 | every "pat_" token is refused, whatever follows the prefix |
| ProtoRole.StringToRole | server/auth/role.go:9-18 | ROLE_UNSPECIFIED exactly for a role other than admin and user; never any other enum number |
| ProtoRole.RoleToString | server/auth/role.go:21-30 | a valid store role exactly for ROLE_ADMIN and ROLE_USER, "" for anything else |
| ProtoRole.StoreRoleRoundTrip | server/auth/role.go:9-30 | admin and user survive the trip through the enum |
| ProtoRole.EnumRoleRoundTrip | server/auth/role.go:9-30 | ROLE_ADMIN and ROLE_USER survive the trip through the store role |
| AuthInterceptor.BindResult | server/auth/interceptor.go:53-60 | claims are stored with their user ID; otherwise a user is stored with its token; with no result the context is unchanged; metadata is kept |
| AuthInterceptor.Decide | server/auth/interceptor.go:48-50 | a call is rejected exactly when authentication failed and the method is not public; otherwise the handler gets the bound context |
| AuthInterceptor.GrpcUnary | server/auth/interceptor.go:30-65 | no metadata is Unauthenticated "missing metadata"; otherwise the first "authorization" value decides between Unauthenticated "authentication required" and the handler on the bound context |
| AuthInterceptor.ConnectUnary | server/auth/interceptor.go:68-96 | rejected with CodeUnauthenticated exactly when the Authorization header does not authenticate and the procedure is not public; otherwise next runs on the context bound with the authentication result and its reply is returned |
| AuthInterceptor.GatewayAuth | server/auth/gateway_middleware.go:12-46 | 401 with the JSON body exactly when authentication failed, the RPC method is known and it is not public; with no result the request context is unchanged |
| AuthInterceptor.GatewayBind | server/auth/gateway_middleware.go:33-41 | the gateway's rebinding through SetUserIDInContext gives the same context as the interceptors' |
| AuthInterceptor.GrpcNeedsMetadataEvenWhenPublic | server/auth/interceptor.go:33-36 | a call without metadata is refused even for the public Login method |
| AuthInterceptor.GatewayPassesUnknownMethods | server/auth/gateway_middleware.go:18-30 | with no RPC method and no header the request goes on with its context unchanged |
| AuthInterceptor.BindingsAgree | server/auth/interceptor.go:30-96 | with the same header, gRPC, Connect and the gateway reject the same calls; a call Connect lets through gets the same handled reply from gRPC, and a request the gateway passes on with its context gets that reply from gRPC too |
| AuthInterceptor.FreshTokenOpensProtectedMethods | server/auth/interceptor.go:68-96 | a freshly issued token lets any procedure through Connect, with its claims and user ID bound |
| AuthService.LoginGate | server/service/auth_service.go:39-59 | a user passes only if both credentials are present, it is the live user with that username, the password matches its hash and the password has not expired; missing credentials are InvalidArgument |
| AuthService.RefreshGate | server/service/auth_service.go:104-121 | a token passes only if it is non-empty, is the first live row holding that text, and is neither revoked nor expired; an empty token is InvalidArgument |
| AuthService.IssueTokens | server/service/auth_service.go:61-101 | success exactly when the access token is signed, the random token is drawn and the row is saved; the reply carries both tokens, the user and now plus the access-token lifetime; every failure is Internal |
| AuthService.Revoke | server/service/auth_service.go:132-136 | revoking marks exactly the presented token's row revoked and leaves every other row as it was |
| AuthService.AuthService.constructor | server/service/auth_service.go:32-37 | the service keeps the secret and the store it is given |
| AuthService.AuthService.Login | server/service/auth_service.go:39-102 | the reply follows the gate and the issuing steps; on success exactly one row is appended for the user with the returned refresh token; on failure the token table is unchanged |
| AuthService.AuthService.Issue | server/service/auth_service.go:61-101 | the shared tail: the reply is IssueTokens, and exactly one row is appended when it succeeds |
| AuthService.AuthService.RefreshToken | server/service/auth_service.go:104-182 | nothing is written unless the token passes the gate; then the token is revoked before the successor is issued, so a failure after revocation leaves it revoked with nothing new saved; a revoke whose re-read fails is Internal with the token already revoked |
| AuthService.AuthService.Rotate | server/service/auth_service.go:123-181 | after the gate: a user lookup failure writes nothing; a failed revoke UPDATE writes nothing; a failed re-read after it is Internal "failed to revoke old refresh token" with the token revoked; otherwise the presented row is revoked and the successor appended when issuing succeeds |
| AuthService.AuthService.ValidateToken | server/service/auth_service.go:184-200 | only an empty token is an error; otherwise the answer is whether the token validates |
| AuthService.AuthService.Logout | server/service/auth_service.go:202-217 | success (always true) exactly when ValidateToken would answer true; a non-empty invalid token is Unauthenticated "invalid token" |
| AuthService.AuthService.FreshAccessTokenIsValid | server/service/auth_service.go:184-217 | a token this server just signed validates, and logging out with it succeeds |
| AuthService.FoundTokenIsItsRow | store/db/sqlite/refresh_token.go:103-117 | the token the lookup finds is the row at its own ID, holds the presented text, and no earlier live row holds it |
| AuthService.FirstTokenPosition | store/db/sqlite/refresh_token.go:103-117 | the first match of a token lookup sits at a position with no earlier live row holding the text |
| AuthService.RightPasswordPasses | server/service/auth_service.go:39-59 | a known, unexpired user whose password hashes to the stored hash always passes the login checks |
| AuthService.WrongPasswordFails | server/service/auth_service.go:52-54 | a password that differs from the right one within bcrypt's first 72 bytes is refused as "invalid password", whatever the clock says |
| AuthService.ExtendedPasswordPasses | server/service/auth_service.go:39-59 | when the right password fills bcrypt's 72 bytes, the right password followed by anything passes the login checks |
| AuthService.ReplayIsRefused | server/service/auth_service.go:118-136 | after a rotation, presenting the same refresh token again is refused as expired or revoked, whatever rows were saved after it |
| AuthService.IssuedTokenRefreshes | server/service/auth_service.go:73-78 | the refresh token Login saves passes the RefreshToken checks until it expires |
| UserService.RegistrationError | server/service/user_service.go:49-92 | no error exactly when the username has 3 to 50 bytes, the nickname is given and at most 50 bytes, the password is given and at least 6 bytes, the phone is 11 ASCII digits and the email at most 100 bytes and well-formed; every error is InvalidArgument |
| UserService.ProfileError | server/service/user_service.go:180-202 | no error exactly when each given field (and only a given one) meets its length and format rule; every error is InvalidArgument |
| UserService.PhoneRuleMeansElevenDigits | server/service/user_service.go:73-81 | the byte-length check followed by the rune loop accepts exactly the strings of eleven ASCII digits |
| UserService.ProfileUpdateTouchesOnlyGivenFields | server/service/user_service.go:205-222 | a profile update rewrites only the non-empty nickname, phone and email; username, password, role and expiry stay, updated_at becomes now |
| UserService.PasswordChangeError | server/service/user_service.go:249-259 | no error exactly when both passwords are given and the new one has at least 6 bytes |
| UserService.Admission | server/service/user_service.go:47-115 | registration gets as far as a hash only when the fields pass, neither the username nor the email is taken and the hash is the new password's |
| UserService.UpdatedReply | server/service/user_service.go:222-239 | the reply carries the updated user's public fields exactly when the store returned a user |
| UserService.UserService.constructor | server/service/user_service.go:40-45 | the service keeps the secret and the store it is given |
| UserService.UserService.CheckPhoneDigits | server/service/user_service.go:76-80 | the rune loop succeeds exactly when every character is an ASCII digit |
| UserService.UserService.CheckPhone | server/service/user_service.go:73-81 | the phone checks give the 11-digit error, then the digits-only error, else none |
| UserService.UserService.ValidateRegistration | server/service/user_service.go:49-92 | the step-by-step checks return exactly the first failing rule's error |
| UserService.UserService.ValidateProfile | server/service/user_service.go:180-202 | the step-by-step checks of the given fields return exactly the first failing rule's error |
| UserService.UserService.Admit | server/service/user_service.go:47-115 | the checks and store lookups before the insert answer exactly Admission |
| UserService.UserService.RegisterUser | server/service/user_service.go:47-142 | on success exactly one row is added with the request's fields, the hash in place of the password and role "user", and it is cached; every failure leaves table and cache as they were; an admitted request with a working insert always succeeds |
| UserService.UserService.GetUserProfile | server/service/user_service.go:144-171 | no user in the context is Unauthenticated; otherwise the reply is the resolved user or the store's error, and only the lazy expiry of the user's cache entry changes |
| UserService.UserService.BuildProfileUpdate | server/service/user_service.go:205-219 | the update struct is filled field by field into exactly the profile update |
| UserService.UserService.UpdateUserProfile | server/service/user_service.go:173-240 | unauthenticated and invalid requests change nothing; otherwise the caller's cache entry is dropped; a failed UPDATE is Internal and writes nothing; a failed re-read is Internal with the given fields already written; a missing user is NotFound; otherwise only the given fields of that row change and the reply is the new row |
| UserService.UserService.ChangePassword | server/service/user_service.go:242-305 | unauthenticated and invalid requests are refused; a wrong old password, a hashing failure or a failed UPDATE change no row; a failed re-read is Internal "failed to update password" with the new hash already stored and the cache entry dropped; on success only the password of the caller's row is rewritten and its cache entry is dropped |
| UserService.UserService.ChangeVerified | server/service/user_service.go:261-305 | once the arguments pass: a user lookup failure is Internal "failed to get user"; otherwise the outcome of verifying, hashing and writing, as in ChangePassword, including the new hash stored behind a failed re-read |
| UserService.UserService.Rewrite | server/service/user_service.go:270-305 | with the stored user in hand: a wrong old password is Unauthenticated and a hashing failure Internal, both with nothing changed; once a hash exists the cache entry is dropped, a failed UPDATE writes nothing, a failed re-read is Internal with the password already rewritten, and success rewrites only that row's password |
| UserService.MissingProfileIsNoRows | server/service/user_service.go:150-156 | a missing user reaches the caller as sql.ErrNoRows, so the NotFound branch is never taken |
| UserService.SelectUsersAppend | store/db/sqlite/user.go:90-129 | listing a table with one more row lists the old rows' matches followed by the new row's match |
| UserService.RegisteredUserCanLogIn | server/service/user_service.go:112-127 | a freshly registered user can log in with the chosen password until it expires |
| ApiUsers.ToApiUser | server/service/user_service.go:129-139 | the API user copies the row's id, names, contact fields and timestamps; its role is ROLE_UNSPECIFIED exactly for an invalid store role, and a valid role converts back to itself |
| InstanceService.GetInstanceProfile | server/service/instance_service.go:35-67 | a failing listing is Internal and nothing else is; the profile carries the service's version and demo flag, and any admin it names has the admin role |
| InstanceService.AdminIsFirstLiveAdmin | server/service/instance_service.go:41-64 | the profile names an admin exactly when some live row has role "admin", and then the first such row |
| InstanceService.FirstAdminPosition | server/service/instance_service.go:43-52 | the first user of the admin listing is a live admin row with no live admin before it |
| Email.IndexOf | server/service/user_service.go:29-33 | the position of the first occurrence, or -1 when there is none |
| Email.LastIndexOf | server/service/user_service.go:29-33 | the position of the last occurrence, or -1 when there is none |
| Email.IsValidEmailMatchesPattern | server/service/user_service.go:29-33 | the recognizer accepts exactly the strings the email pattern matches |
| Email.FirstAtIsSplit | server/service/user_service.go:29 | the pattern's '@' is the first '@' of the address |
| Email.LastDotIsSplit | server/service/user_service.go:29 | the pattern's final '.' is the last '.' of the address |
| Email.ValidEmailHasOneAt | server/service/user_service.go:29 | a valid address holds exactly one '@' |
| Email.NoAtAfterLocalPart | server/service/user_service.go:29 | neither the domain nor the top-level label can hold an '@' |
| Email.Examples | server/service/user_service.go:29-33 | "a@b.cd" is valid; a one-letter top-level label, an empty local part and an empty domain are not |
| Email.IsValidEmail | server/service/user_service.go:29-33 | an accepted address has at least six characters and holds an '@' and a '.' (IsValidEmailMatchesPattern gives the exact pattern) |
| Response.NewSuccessResponse | server/middleware/response.go:19-25 | state 0, message "success", and the given data |
| Response.NewErrorResponse | server/middleware/response.go:28-34 | the given state and message, and null data |
| Response.CodeOfName | server/middleware/response.go:140-176 | a name the table recognises spells back as its code's upper-case name |
| Response.NameRoundTrip | server/middleware/response.go:140-176 | every code's upper-case name is recognised as that code |
| Response.ConnectCodeToState | server/middleware/response.go:140-176 | states run from 1 to 16; an unrecognised name is 2; a recognised one is its code's gRPC number |
| Response.StateIsGrpcNumber | server/middleware/response.go:140-176 | each code's upper-case name maps to the code's gRPC number |
| Response.StateTableInjective | server/middleware/response.go:140-176 | two codes whose names give the same state are the same code |
| Response.ConnectHttpStatus | server/middleware/response.go:90-125 | always a 4xx or 5xx status; 401 exactly for Unauthenticated; 400 exactly for InvalidArgument, FailedPrecondition and OutOfRange; 409 exactly for AlreadyExists and Aborted |
| Response.UnifiedOutcome | server/middleware/response.go:49-137 | with no error, an empty uncommitted response gets the 200 success envelope and nothing else is written; an echo HTTPError is written with its own status and returned; a Connect error is written with its mapped status and state; any other error is 500 with state 2; error envelopes carry null data |
| Response.UnrecognisedNamesCollapseToTwo | server/middleware/response.go:87 | when the code's name is not one of the upper-case table names, every Connect error gets state 2 |
| Response.UpperNamesGiveGrpcNumbers | server/middleware/response.go:87 | with the upper-case spelling, the envelope's state is the code's gRPC number |
| HttpWriters.SentStatus | server/middleware/gateway_error.go:72-73 | a status once sent is kept; before that the given code is sent |
| HttpWriters.RunAppendsWrittenBytes | server/middleware/gateway_error.go:72-79 | after any sequence of writer calls the body is the old body followed by the bytes of the writes, in order |
| HttpWriters.SentStatusIsFinal | server/middleware/gateway_error.go:110-119 | once a status is sent, no later call changes it |
| HttpWriters.HttpWriter.constructor | server/middleware/gateway_error.go:84-85 | a fresh writer has no headers, no status sent and an empty body |
| HttpWriters.HttpWriter.SetHeader | server/middleware/gateway_error.go:72 | the header is set; status and body are unchanged |
| HttpWriters.HttpWriter.WriteHeader | server/middleware/gateway_error.go:73 | the first status sent wins; headers and body are unchanged |
| HttpWriters.HttpWriter.Write | server/middleware/gateway_error.go:79 | the data is appended and its length returned; 200 is sent first when no status was |
| HttpWriters.HttpWriter.Perform | server/middleware/gateway_error.go:97 | performing a handler's calls one by one leaves the writer in the state the calls specify |
| GatewayError.GatewayHttpStatus | server/middleware/gateway_error.go:34-45 | 401, 400, 404 and 409 exactly for Unauthenticated, InvalidArgument, NotFound and AlreadyExists; 500 for every other code |
| GatewayError.GatewayMapping | server/middleware/gateway_error.go:19-69 | a gRPC status error gives its HTTP status, its code number and its message; a Connect error its HTTP status, its table state and its message; any other error 500, state 2 and its text |
| GatewayError.GrpcAndConnectAgree | server/middleware/gateway_error.go:29-63 | with the upper-case Connect names, a gRPC error and a Connect error of the same code get the same status, state and message |
| GatewayError.GatewayAgreesWithUnified | server/middleware/gateway_error.go:46-63 | the gateway and the echo middleware give a Connect error the same state and message, and the same status for the four mapped codes |
| GatewayError.RunThree | server/middleware/gateway_error.go:72-79 | three writer calls run one after another |
| GatewayError.RunOne | server/middleware/gateway_error.go:132 | one writer call runs as one step |
| GatewayError.GatewayErrorHandler | server/middleware/gateway_error.go:16-81 | the handler sets the JSON content type, sends the mapped status and writes the encoded error envelope, whose state is never 0 and whose data is null |
| GatewayError.CaptureBufferIsWritten | server/middleware/gateway_error.go:151-154 | the capture buffer holds exactly the bytes the handler wrote |
| GatewayError.CaptureSharesHeaders | server/middleware/gateway_error.go:156-159 | the capturing writer and the original writer end with the same headers |
| GatewayError.CaptureWriter.constructor | server/middleware/gateway_error.go:87-94 | the capture starts with the original writer, an empty buffer and status 200 |
| GatewayError.CaptureWriter.SetHeader | server/middleware/gateway_error.go:156-159 | a header set through the capture lands on the original writer |
| GatewayError.CaptureWriter.WriteHeader | server/middleware/gateway_error.go:146-149 | the status is only recorded; the buffer is unchanged |
| GatewayError.CaptureWriter.Write | server/middleware/gateway_error.go:151-154 | the data is only appended to the buffer; the recorded status is unchanged |
| GatewayError.WrapperCalls | server/middleware/gateway_error.go:100-134 | the wrapper writes nothing exactly when the handler wrote no bytes |
| GatewayError.GatewayResponseWrapper | server/middleware/gateway_error.go:84-136 | the original writer ends as if the handler's headers were applied and then the wrapper's calls for the captured response were made |
| GatewayError.EmptyResponseWritesNothing | server/middleware/gateway_error.go:100 | a handler that writes no bytes gets nothing written on its behalf |
| GatewayError.ErrorEnvelopePassesThrough | server/middleware/gateway_error.go:106-113 | the error handler's output goes through the wrapper unchanged: same headers, same status, same bytes |
| GatewayError.SuccessEnvelopeIsWrappedAgain | server/middleware/gateway_error.go:116-125 | an envelope with state 0 is not recognised as unified and is wrapped a second time inside a new envelope |
| GatewayError.JsonIsNotItsOwnField | server/middleware/gateway_error.go:121-125 | an envelope's JSON object differs from its own data field |
| GatewayError.NonJsonLosesCapturedStatus | server/middleware/gateway_error.go:130-133 | a non-JSON response is written back with status 200, whatever status the handler chose, and with its bytes unchanged |
| Csrf.CsrfDefaults | server/middleware/csrf.go:68-84 | only a nil lookup, an empty cookie name or path, a non-positive expiration or a nil error handler is replaced by its default; domain, Secure, HttpOnly and SameSite are kept as given |
| Csrf.CsrfDefaultsIdempotent | server/middleware/csrf.go:68-84 | defaulting fills every defaulted field, leaves a complete configuration alone, and applying it twice changes nothing more |
| Csrf.DefaultConfigIsComplete | server/middleware/csrf.go:44-60 | the default configuration is already complete, so defaulting leaves it as it is |
| Csrf.CsrfCheck | server/middleware/csrf.go:86-113 | a rejected request gets the configured (or default) error handler's reply |
| Csrf.CsrfCheckPassesExactly | server/middleware/csrf.go:86-113 | a request reaches next exactly when it is GET, HEAD or OPTIONS, or it has the cookie and a non-empty looked-up token equal to the cookie's value |
| Csrf.DefaultRejectionIs403 | server/middleware/csrf.go:56-58 | with no error handler configured, a rejection is status 403 with state 403 and "CSRF token mismatch" |
| Csrf.Base64Url | server/middleware/csrf.go:123 | the padded URL-safe encoding has four characters for every started group of three bytes |
| Csrf.GenerateCSRFToken | server/middleware/csrf.go:117-124 | a token exactly when the random read succeeds, and then 44 characters long; a failed read passes its error on |
| Csrf.CsrfResponse.constructor | server/middleware/csrf.go:127-140 | a fresh response has no cookies and no headers |
| Csrf.SetCSRFToken | server/middleware/csrf.go:127-140 | one cookie is added with the configured name, path, domain, flags and an expiry of now plus the configured expiration; the X-CSRF-Token header carries the same token |
| Csrf.TokenMiddlewareDefaults | server/middleware/csrf.go:143-153 | the token middleware defaults the cookie name, path and expiration as NewCSRF does, and leaves the lookup and error handler as given |
| Csrf.CSRFTokenMiddleware | server/middleware/csrf.go:155-173 | a request with the cookie changes nothing; without it, a failed random read is returned with nothing set, otherwise one cookie is added whose value equals the X-CSRF-Token header and the new token |
| Csrf.IssuedTokenPasses | server/middleware/csrf.go:86-174 | a token handed out by the token middleware, sent back in the cookie and the header, passes the check under the default configuration |
| Csrf.MissingCookieRejects | server/middleware/csrf.go:94-97 | without the cookie, every request other than GET, HEAD and OPTIONS is rejected, whatever token it carries |
| RateLimit.RateDefaults | server/middleware/rate_limit.go:46-59 | only a negative rate or burst and a nil key function or error handler are replaced by their defaults |
| RateLimit.RateDefaultsIdempotent | server/middleware/rate_limit.go:46-59 | after defaulting the rate and burst are non-negative and both functions are set; defaulting twice changes nothing more; a zero rate or burst is kept |
| RateLimit.Limiter.constructor | server/middleware/rate_limit.go:95 | a limiter keeps the rate and burst it was made with |
| RateLimit.RateLimiter.constructor | server/middleware/rate_limit.go:46-64 | the registry holds the defaulted configuration and no limiters |
| RateLimit.RateLimiter.GetLimiter | server/middleware/rate_limit.go:89-100 | a known key gets its registered limiter with the registry unchanged; a new key gets a fresh limiter with the configured rate and burst, registered under it |
| RateLimit.RateLimiter.Cleanup | server/middleware/rate_limit.go:103-110 | every limiter is dropped |
| RateLimit.RateLimiter.Handle | server/middleware/rate_limit.go:74-85 | the request's key ends up registered and no other key is added; the request goes on exactly when its limiter allows it |
| RateLimit.Decide | server/middleware/rate_limit.go:79-83 | the request goes on exactly when allowed; otherwise it gets the configured error handler's reply |
| RateLimit.DefaultRejectionIs429 | server/middleware/rate_limit.go:32-34 | with no error handler configured, a rejection is status 429 with state 429 and "rate limit exceeded" |
| MetadataInterceptor.CopiesHeadersDeterminesMetadata | server/interceptor/metadata_interceptor.go:18-32 | the header-copying rule fixes the metadata: two maps that both copy a request's headers are equal |
| MetadataInterceptor.BuildMetadata | server/interceptor/metadata_interceptor.go:18-32 | the metadata holds exactly the non-empty User-Agent, X-Forwarded-For, X-Real-Ip and Cookie headers, each under its lower-case key as a single value |
| MetadataInterceptor.IncomingMetadataIsReplaced | server/interceptor/metadata_interceptor.go:34 | the handler's metadata holds no key other than the four copied ones, so no "authorization" entry reaches it |
| MetadataInterceptor.ConnectResponse.constructor | server/interceptor/metadata_interceptor.go:36 | a response keeps the header map it is made with, nil included |
| MetadataInterceptor.WrapUnary | server/interceptor/metadata_interceptor.go:16-50 | the handler runs with the context's values and fresh metadata copying the headers; the response and error are returned unchanged; on success a non-nil response header gains the three no-cache headers, otherwise it is untouched |
| Health.Name | server/common/health.go:96-98 | a database checker is named "database" and a service checker "service" |
| Health.CheckOutcome | server/common/health.go:78-93 | the service checker always passes; a database checker with a nil store fails with "database store is nil"; otherwise it fails exactly when the ping fails |
| Health.RunCheck | server/common/health.go:78-93 | running a checker answers exactly its outcome |
| Health.ResultsKeys | server/common/health.go:40-46 | the results map has an entry for exactly the names of the checkers |
| Health.LastCheckerWins | server/common/health.go:42-44 | the entry of a name is the outcome of the last checker with that name |
| Health.DistinctNamesHealthy | server/common/health.go:49-57 | with distinct names, the service is healthy exactly when every checker passes |
| Health.ShadowedFailureIsHidden | server/common/health.go:42-44 | a failing database checker followed by a passing one of the same name leaves the service healthy |
| Health.HealthCheckService.constructor | server/common/health.go:33-37 | the service keeps its checkers in the given order |
| Health.HealthCheckService.Check | server/common/health.go:40-46 | the loop builds exactly the results map of the checkers in order |
| Health.HealthCheckService.IsHealthy | server/common/health.go:49-57 | healthy exactly when no entry of the results map holds an error |
| Health.CheckEntry | server/common/health.go:148-158 | each entry has exactly a status and a message, with status "healthy" exactly when there is no error |
| Health.HealthCheckHandler | server/common/health.go:129-168 | 200 exactly when healthy and 503 otherwise; the body holds status, checks and version "1.0.0", with one check entry per result name |
| Profile.DefaultData | internal/profile/profile.go:25-35 | a given data directory is kept; an empty one becomes /var/opt/go-server outside demo mode and "." in demo mode |
| Profile.DataDirOutcome | internal/profile/profile.go:57-80 | a successful check answers the resolved path (absolute, or the working directory joined with the relative path), with no trailing separator |
| Profile.AbsoluteDirStaysAbsolute | internal/profile/profile.go:58-69 | an absolute directory that is not made of separators alone is still absolute after the trailing separators are trimmed |
| Profile.CheckDataDir | internal/profile/profile.go:57-80 | the step-by-step check answers exactly the data-directory outcome: the working-directory error, the creation error or the access error, each wrapped with its message, or the resolved directory |
| Profile.DefaultDsn | internal/profile/profile.go:43-52 | a given DSN is kept; an empty one becomes go-server_demo.db or go-server_prod.db in the data directory for sqlite, and the fixed local DSN for postgresql; other drivers keep it as it is |
| Profile.Profile.constructor | internal/profile/profile.go:11-21 | a profile holds the fields it is made with |
| Profile.Profile.Validate | internal/profile/profile.go:23-55 | only the data directory and the DSN change; on an error the data directory keeps its defaulted value and the DSN is untouched; on success the data directory is the resolved one and the DSN is defaulted for it |
| Sql.TextBinding | store/db/sqlite/user.go:46-49 | an optional text field contributes one "column = value" binding when it is set and none when it is nil |
| Sql.IntBinding | store/db/sqlite/user.go:94-97 | an optional integer field contributes one binding when it is set and none when it is nil |
| Sql.Values | store/db/sqlite/user.go:43-79 | the arguments a list of bindings contributes are their values, one per binding, in order |
| Sql.ClausePlaceholders | store/db/sqlite/user.go:43-79 | a clause built from bindings holds exactly one `?` per binding, so one per argument it adds |
| Sql.ClauseBetween | store/db/sqlite/user.go:43-81 | a statement of fixed text around a clause has the fixed placeholders plus one per binding |
| Sql.AppendBinding | store/db/sqlite/user.go:46-49 | one builder step appends the binding's text to the query and its value to the arguments, keeping the query the clause of the bindings so far |
| Sql.AppendText | store/db/sqlite/user.go:46-49 | an optional text field's step extends query and arguments by exactly its binding, or leaves them unchanged when the field is nil |
| Sql.AppendInt | store/db/sqlite/user.go:94-97 | the same for an optional integer field |
| Sql.NumberedClauseConcat | store/db/postgresql/user.go:41-85 | numbered placeholders run on across a split: the second part of a clause continues where the first stopped |
| Sql.NumberedClauseAt | store/db/postgresql/user.go:41-85 | the i-th binding of a clause numbered from k carries the placeholder $(k + i) |
| Sql.AppendNumbered | store/db/postgresql/user.go:43-47 | a numbered step increments the argument count, appends `$count` with the binding, and keeps the count equal to the number of arguments |
| Sql.AppendNumberedText | store/db/postgresql/user.go:43-47 | an optional text field's numbered step adds exactly its binding, or nothing when the field is nil |
| Sql.AppendNumberedInt | store/db/postgresql/user.go:103-106 | an optional integer field's numbered step adds exactly its binding, or nothing when the field is nil |
| Sql.ApplySetConcat | store/db/sqlite/user.go:43-81 | a SET list applied to a row acts as its parts in turn, so the later assignment of a column wins |
| Sql.WhereLiveIdPlaceholders | store/db/sqlite/user.go:78 | the WHERE clause of the UPDATE statements has exactly one placeholder, for the id |
| Sql.UpdateHeadPlaceholders | store/db/sqlite/user.go:43 | the fixed head of an UPDATE statement, `UPDATE <table> SET updated_at = ?`, has exactly one placeholder for any table name without one |
| Sql.UpdateStatementPlaceholders | store/db/sqlite/user.go:42-79 | an UPDATE statement on a plain table name, with its updated_at, one assignment per binding and the id, holds exactly as many placeholders as bindings plus two |
| UserSql.UserColumnsArePlain | store/db/sqlite/user.go:46-76 | the column names of the assignments hold no placeholder mark |
| UserSql.ExecuteTextBinding | store/db/sqlite/user.go:46-49 | an optional text assignment sets its column when the field is set and leaves the row alone otherwise |
| UserSql.CredentialEffect | store/db/sqlite/user.go:46-60 | the username, nickname and password assignments replace the fields that are set, and a new password also sets the expiry to now + 90 days |
| UserSql.ContactEffect | store/db/sqlite/user.go:61-76 | the phone, email, role and explicit-expiry assignments replace exactly the fields that are set |
| UserSql.SetListEffect | store/db/sqlite/user.go:43-76 | updated_at = now is applied first, then the credential part, then the contact part |
| UserSql.SetListIsApplyUserUpdate | store/db/sqlite/user.go:42-88 | the SET list UpdateUser builds, applied to a row, gives exactly the store's update: each set field replaced, updated_at = now, password_expires from an explicit value, else from a new password, else kept |
| UserSql.UserConditionsArePlain | store/db/sqlite/user.go:94-109 | the filter columns hold no placeholder mark |
| UserSql.UserConditionsMatchFind | store/db/sqlite/user.go:91-109 | a row passes "deleted_at IS NULL" and the ID, Username, Email and Role conditions exactly when it matches the store's FindUser |
| UserSql.SelectWhereIsSelectUsers | store/db/sqlite/user.go:90-129 | the ListUsers statement returns exactly the live rows the store's filter selects, in table order |
| SqliteUser.ListHeadPlaceholders | store/db/sqlite/user.go:91 | the fixed SELECT of ListUsers has no placeholder |
| SqliteUser.UpdateUserPlaceholders | store/db/sqlite/user.go:42-81 | the UPDATE statement has exactly as many `?` as arguments |
| SqliteUser.BuildUpdateUser | store/db/sqlite/user.go:42-81 | the builder emits updated_at = ?, then one ", column = ?" per set field in the source's order (a password followed by its 90-day expiry, an explicit expiry last), then the WHERE on the id, with arguments in the same order and one per placeholder |
| SqliteUser.AppendPassword | store/db/sqlite/user.go:54-60 | a new password appends the password and an expiry of now + 90 days; no password appends nothing |
| SqliteUser.AppendExpires | store/db/sqlite/user.go:73-76 | an explicit PasswordExpires appends its assignment; none appends nothing |
| SqliteUser.ListUsersPlaceholders | store/db/sqlite/user.go:90-111 | the ListUsers statement has exactly as many `?` as arguments |
| SqliteUser.BuildListUsers | store/db/sqlite/user.go:90-111 | the builder appends " AND column = ?" for ID, Username, Email and Role, each only when set, with the arguments in the same order |
| SqliteRefreshToken.UpdateTokenPlaceholders | store/db/sqlite/refresh_token.go:38-47 | the UPDATE statement has exactly as many `?` as arguments |
| SqliteRefreshToken.ListHeadPlaceholders | store/db/sqlite/refresh_token.go:59 | the fixed SELECT of ListRefreshTokens has no placeholder |
| SqliteRefreshToken.BuildUpdateRefreshToken | store/db/sqlite/refresh_token.go:37-49 | the builder emits updated_at = ?, then ", revoked = ?" whenever Revoked is set (false included), then the WHERE on the id, with one argument per placeholder |
| SqliteRefreshToken.TokenSetListIsDriverUpdate | store/db/sqlite/refresh_token.go:37-55 | the SET list applied to the row sets updated_at to now and replaces revoked exactly when Revoked is set |
| SqliteRefreshToken.TokenConditionsMatchFind | store/db/sqlite/refresh_token.go:59-73 | a row passes the WHERE clause exactly when it is live and matches the FindRefreshToken's ID, UserID and Token |
| SqliteRefreshToken.SelectTokensWhereIsSelectTokens | store/db/sqlite/refresh_token.go:58-93 | the statement returns exactly the rows the store's filter selects, in table order |
| SqliteRefreshToken.BuildListRefreshTokens | store/db/sqlite/refresh_token.go:58-75 | the builder appends " AND column = ?" for ID, UserID and Token, each only when set, with one argument per placeholder |
| SqliteRefreshToken.ListTokensPlaceholders | store/db/sqlite/refresh_token.go:58-75 | the ListRefreshTokens statement has exactly as many `?` as arguments |
| MysqlInstanceSetting.ListHeadPlaceholders | store/db/mysql/instance_setting.go:27-33 | the fixed SELECT has no placeholder |
| MysqlInstanceSetting.BuildListInstanceSettings | store/db/mysql/instance_setting.go:26-41 | the builder adds " AND name = ?" with the name as the one argument exactly when the name is not empty, and otherwise leaves the fixed SELECT with no argument |
| MysqlInstanceSetting.ListSettingsPlaceholders | store/db/mysql/instance_setting.go:26-41 | the statement has exactly as many `?` as arguments |
| MysqlInstanceSetting.SelectSettingsWhereIsSelectSettings | store/db/mysql/instance_setting.go:26-65 | the statement returns exactly the settings the store's filter selects: all of them for an empty name, else those with that name |
| PostgresUser.UpdateArgsOrder | store/db/postgresql/user.go:39-85 | $1 is bound to now, $(i + 2) to the i-th assignment's value and the last placeholder to the id |
| PostgresUser.UpdatePlaceholdersInOrder | store/db/postgresql/user.go:39-85 | in the statement the i-th assignment carries the placeholder $(i + 2) |
| PostgresUser.AppendPasswordAsWritten | store/db/postgresql/user.go:53-61 | as written, a new password appends the password and an expiry of now + 90 days, numbered on |
| PostgresUser.AppendExpires | store/db/postgresql/user.go:77-81 | an explicit PasswordExpires appends its numbered assignment; none appends nothing |
| PostgresUser.AppendWhereId | store/db/postgresql/user.go:83-85 | the WHERE/RETURNING step adds one more placeholder, bound to the id, completing the statement |
| PostgresUser.BuildUpdateUserAsWritten | store/db/postgresql/user.go:38-85 | as written, the builder emits the same SET list as the SQLite driver with placeholders $1, $2, ... and argCount equal to the number of arguments |
| PostgresUser.ExecuteUpdate | store/db/postgresql/user.go:87-96 | the UPDATE ... RETURNING succeeds exactly when the SET list names each column once and a live row has the id; it then writes and returns the updated row, and on an error (sql.ErrNoRows from Scan, or the refusal) leaves the table as it was |
| PostgresUser.SingleColumns | store/db/postgresql/user.go:43-81 | an optional single assignment names at most its own column |
| PostgresUser.AppendFresh | store/db/postgresql/user.go:43-81 | appending assignments to new columns keeps a SET list's columns distinct |
| PostgresUser.CredentialColumns | store/db/postgresql/user.go:43-61 | the username, nickname and password assignments name distinct columns |
| PostgresUser.ContactColumns | store/db/postgresql/user.go:62-81 | the phone, email, role and expiry assignments name distinct columns |
| PostgresUser.SetListShapeDistinct | store/db/postgresql/user.go:39-81 | the SET list names every column once as long as the password part and the expiry part share no column |
| PostgresUser.AsWrittenExpiryTwice | store/db/postgresql/user.go:53-81 | as written, a password change with an explicit expiry names password_expires twice |
| PostgresUser.AsWrittenSetListDistinct | store/db/postgresql/user.go:39-81 | as written, the SET list names every column once exactly when the update does not carry both a password and an explicit expiry |
| PostgresUser.PasswordWithExpiryIsRefused | store/db/postgresql/user.go:53-93 | as written, such an update is refused for every table, although the same SET list, applied in order, would give the store's promised row |
| PostgresUser.CorrectedAssignmentsInOrder | store/db/postgresql/user.go:43-81 | the corrected assignments keep the source's order of fields |
| PostgresUser.CorrectedAgreesWhenAccepted | store/db/postgresql/user.go:53-61 | wherever the as-written statement is accepted, the corrected one is the same statement |
| PostgresUser.CorrectedSetListDistinct | store/db/postgresql/user.go:39-81 | the corrected SET list names every column once |
| PostgresUser.CorrectedCredentialEffect | store/db/postgresql/user.go:43-61 | the corrected credential part replaces the set fields and renews the expiry only for a password without an explicit expiry |
| PostgresUser.CorrectedSetListIsApplyUserUpdate | store/db/postgresql/user.go:38-85 | the corrected SET list gives exactly the store's promised row |
| PostgresUser.UpdateUserOutcome | store/db/postgresql/user.go:38-97 | corrected UpdateUser writes and returns the store's updated row when a live row has the id, and otherwise reports the wrapped sql.ErrNoRows and leaves the table unchanged |
| PostgresUser.AppendRenewedExpiry | store/db/postgresql/user.go:57-60 | corrected: the 90-day expiry is appended only for a new password with no explicit expiry |
| PostgresUser.AppendPassword | store/db/postgresql/user.go:53-61 | the corrected password step appends the password, then the renewed expiry when there is no explicit one |
| PostgresUser.BuildUpdateUser | store/db/postgresql/user.go:38-85 | the corrected builder emits the corrected SET list, numbered $1, $2, ... in order, with argCount equal to the number of arguments |
| PostgresUser.ListPlaceholdersInOrder | store/db/postgresql/user.go:103-110 | in ListUsers' statement the i-th condition carries $(i + 1), bound to the i-th argument |
| PostgresUser.BuildListUsersAsWritten | store/db/postgresql/user.go:99-110 | as written, the builder filters on ID and Username only, numbering by the argument count |
| PostgresUser.ListAsWrittenIgnoresEmailAndRole | store/db/postgresql/user.go:99-130 | as written, ListUsers answers the query with the Email and Role filters dropped |
| PostgresUser.RoleFilterDropped | store/db/postgresql/user.go:99-110 | as written, a live user whose role is "user" is listed when the caller asks for admins, though the store's filter returns nothing |
| PostgresUser.BuildListUsers | store/db/postgresql/user.go:99-110 | the corrected builder also appends the Email and Role conditions, so its statement selects exactly the store's filter (with UserSql.SelectWhereIsSelectUsers) |
| WebTime.ConvertTimestampToDate | web/src/utils/time.ts:6-11 | an undefined timestamp gives null and a defined one the instant it holds |
| WebTime.Pad2Digits | web/src/utils/time.ts:24-28 | a field below 100 padded to two characters is two digits that read back as the field |
| WebTime.FormatTimestampDate | web/src/utils/time.ts:37-48 | the text is "-" exactly when the timestamp is undefined |
| WebTime.FormatTimestamp | web/src/utils/time.ts:17-31 | the text is "-" exactly when the timestamp is undefined; otherwise it is the date text followed by " HH:mm:ss" of the same local time |
| WebTime.FormatTimestampReadsBack | web/src/utils/time.ts:17-31 | the YYYY-MM-DD HH:mm:ss text reads back: the year before the last 15 characters, the separators at fixed places, and between them the two-digit paddings of the month (plus one), day, hours, minutes and seconds |
| WebTime.Pad2Injective | web/src/utils/time.ts:24-28 | two fields below 100 that pad to the same text are equal |
| WebTime.FormatTimestampInjective | web/src/utils/time.ts:17-31 | two timestamps with the same display text have the same local calendar fields |
| WebTime.FormatRelativeTime | web/src/utils/time.ts:54-78 | the text is "-" exactly when the timestamp is undefined |
| WebTime.FloorSteps | web/src/utils/time.ts:61-65 | flooring the elapsed time step by step to seconds, minutes, hours and days equals flooring it once by each unit |
| WebTime.RelativeTimeBands | web/src/utils/time.ts:54-78 | under a minute (a future timestamp included) the text is "刚刚"; then whole minutes, hours and days, each the floor of the elapsed time; from 30 days on the date |
| WebTime.RelativeCountsInRange | web/src/utils/time.ts:67-74 | in each counted band the count is at least 1 and below the next unit (60 minutes, 24 hours, 30 days) |
| WebTime.IsTimestampExpired | web/src/utils/time.ts:83-89 | an undefined timestamp counts as expired |
| WebTime.GetRemainingTime | web/src/utils/time.ts:95-103 | the remaining time is never negative, 0 for an undefined timestamp, and otherwise either 0 or exactly the time to the timestamp, whichever is larger |
| WebTime.ExpiryAgreesWithRemaining | web/src/utils/time.ts:83-103 | time remains exactly when the timestamp is not expired and not the current instant; an expired timestamp has none left |
| WebTime.ExpiryInstant | web/src/utils/time.ts:83-103 | at the timestamp's own instant it is neither expired nor has time left |
| WebRole.RoleLabel | web/src/utils/role.ts:3-13 | the label is one of three; the admin label exactly for ADMIN, the user label exactly for USER, and the unknown label for UNSPECIFIED and every other value |
| WebRole.ValidIffLabelled | web/src/utils/role.ts:3-17 | a role is valid exactly when it has a label of its own |
| WebRole.LabelsDistinguishValidRoles | web/src/utils/role.ts:3-13 | two valid roles with the same label are the same role |
| WebRole.WebValidityMatchesServer | web/src/utils/role.ts:15-17 | a stored role, turned into the wire enum, is valid in the web client exactly when the server counts it valid |
| WebRole.IsValidRole | web/src/utils/role.ts:15-17 | a role is valid exactly when it is neither ROLE_UNSPECIFIED nor another enum number |
| LoginForm.TrimLeft | web/src/components/LoginForm.tsx:18 | trimming the start drops exactly the leading whitespace and keeps the rest of the string |
| LoginForm.TrimEmptyIffBlank | web/src/components/LoginForm.tsx:18-26 | a trimmed string is empty exactly when every character is whitespace |
| LoginForm.Trim | web/src/components/LoginForm.tsx:18 | the trimmed text is a contiguous piece of the input, ending where the trailing whitespace starts |
| LoginForm.TrimDropsOnlyWhitespace | web/src/components/LoginForm.tsx:18-26 | trim drops only whitespace, at both ends, and what it keeps neither starts nor ends with whitespace |
| LoginForm.ValidationOrder | web/src/components/LoginForm.tsx:14-34 | a blank username is reported first, then a blank password, then a password shorter than 6 UTF-16 units; otherwise the untrimmed username and password are submitted |
| LoginForm.ValidateLogin | web/src/components/LoginForm.tsx:14-34 | a rejection carries one of the three messages; a submission carries the username and password as typed, the password at least 6 UTF-16 units long |
| LoginForm.BlankPasswordReportedAsEmpty | web/src/components/LoginForm.tsx:23-26 | a password of six spaces is reported as empty, not as too short |
| LoginForm.PaddedPasswordSubmittedAsTyped | web/src/components/LoginForm.tsx:28-33 | values are submitted untrimmed: a padded username and password go to onSubmit as typed |
| LoginForm.ShownError | web/src/components/LoginForm.tsx:40-44 | a message is shown exactly when the error prop or the validation error is non-empty, and the error prop wins |
| LoginForm.LoginFormState.constructor | web/src/components/LoginForm.tsx:10-12 | the form starts with empty fields, no validation error and nothing submitted |
| LoginForm.LoginFormState.HandleSubmit | web/src/components/LoginForm.tsx:14-34 | the fields are untouched; the validation error is the rejection's message, or cleared; the pair is appended to the submissions exactly when validation passes |
| LoginForm.RejectionIsShown | web/src/components/LoginForm.tsx:14-44 | without an error prop, every rejection's message is what the form displays |

## Left out

- Concurrency:
  - The goroutines, mutexes and the ticker of the cache and the rate limiter
    are not modelled. The cache's periodic sweep is one step,
    `Cache.TtlCache.SweepTick`, and the limiter cleanup is one call to
    `Cleanup`. Everything runs sequentially.
  - The source's Get deletes an expired key while holding only a read lock.
    That is a data race, which a sequential model cannot show.
- Time:
  - Every `time.Now()` and `Date.now()` is the explicit argument `now`.
  - A method that reads the clock twice in the source reads a single `now`
    in the model.
  - Instants are seconds in the store layer, nanoseconds in the CSRF cookie
    and milliseconds in the web client.
  - `AddDate(0, 0, 90)` is 90 days of 86400 seconds. Daylight-saving shifts
    of the local time zone are not modelled.
- Integer widths:
  - IDs, counters and instants are unbounded integers. int64 overflow
    cannot occur at the values the server handles.
  - In the web client, JavaScript numbers are integers of milliseconds.
    `Math.floor` of a quotient is Dafny's floor division, which agrees for
    a positive divisor.
- Crypto:
  - JWT signing and validation, bcrypt, the random refresh token and
    crypto/rand are fields of a `Crypto.Crypto` value. Their code is not
    part of this model.
  - The random bytes of the CSRF token are an argument.
- Library code that is not visible:
  - The golang.org/x/time/rate token bucket. Whether a limiter allows a
    request is an argument.
  - protojson. It is the `Codec` parameter of `InstanceSettings`.
  - encoding/json. It is a set of parameters of `GatewayError`.
  - The regexp engine. `Email` replaces it with a recognizer that is proved
    to match the pattern.
  - Connect's spelling of code names. It is the `codeName` parameter of
    `Response.UnifiedOutcome`. If the library spells the names in lower
    case, every Connect error maps to state 2
    (`Response.UnrecognisedNamesCollapseToTwo`).
- The database:
  - Connection setup, drivers and row scanning are not modelled.
  - A database error is a `fault` flag. Its text is shortened to the
    operation's name. The SQLite UpdateUser and UpdateRefreshToken run an
    UPDATE and then a re-read, so they have two flags: `fault` for the
    UPDATE and `readFault` for the re-read, which fails after the row was
    written.
  - FindUser carries an optional Role. store/model.go:60-64 declares only
    ID, Username and Email, but instance_service.go:42-44 and the SQLite
    ListUsers (sqlite/user.go:105-108) filter on Role. The Role half of
    the second finding below rests on this field.
  - MySQL's raw errors are passed on unwrapped, as in the source.
  - The PostgreSQL driver's CreateUser, Get* and DeleteUser are modelled by
    `Database.Driver`'s SQLite semantics. They differ only in the
    placeholder syntax and in RETURNING id.
  - The MySQL statement's line breaks and indentation are single spaces.
- The filesystem:
  - `Profile` takes the working directory, filepath.Clean, os.Stat and
    os.MkdirAll as fields of a parameter.
  - Paths are POSIX paths. The Windows default directory (profile.go:26-27)
    is not modelled.
- Errors.Wrap: a wrapped Connect error keeps only the message of the wrap.
  The printed text of a Connect error depends on the library's spelling.
  The store never wraps a Connect error.
- Unreachable branches:
  - The `user == nil` NotFound branches of RefreshToken and GetUserProfile
    cannot be reached. Store.GetUser reports a miss as sql.ErrNoRows.
    RefreshToken answers that as Internal "failed to get user";
    GetUserProfile passes sql.ErrNoRows through unchanged
    (`UserService.MissingProfileIsNoRows`).
  - `UserService.UpdatedReply` gives NotFound for a nil user. This is the
    corrected behaviour of finding 1 below.
- The health service:
  - The database checker's ping outcome is a field. Running the checks
    twice, as the handler does, therefore gives the same answer both times.
  - The 5-second ping timeout is not modelled.
  - ServiceChecker.Uptime reads the clock and is not modelled.
- CORS (response.go:37-46) is not modelled. It is a configuration of echo's
  CORS middleware.
- These trivial pieces are not modelled:
  - the identity streaming wrappers WrapStreamingClient and
    WrapStreamingHandler;
  - the one-line constructors NewInterceptor and NewAuthenticator.
- AuthInterceptor.GatewayAuth: the gateway's 401 answer carries its status and
  its body (with the newline `http.Error` appends), but not the headers
  `http.Error` sets (server/auth/gateway_middleware.go:28):
  `Content-Type: text/plain; charset=utf-8` and `X-Content-Type-Options: nosniff`.
- Response.UnifiedOutcome: an echo HTTPError's message is a string in the
  model. The source asserts `message.(string)` (server/middleware/response.go:75),
  which panics for a non-string message such as the error value in
  `echo.NewHTTPError(400, err)`; that panic is not modelled.
- Server wiring is not modelled: routing, the interceptor order
  (metadata, logging, recovery, auth), the logging and recovery
  interceptors, listener multiplexing and shutdown.
- Role enum numbers: `ProtoRole.PbRole` names ROLE_UNSPECIFIED,
  ROLE_ADMIN, ROLE_USER and any other number. The numbers of the generated
  enum are not needed.
- The web client:
  - The browser's local calendar is a parameter `cal` of `WebTime`.
  - The LoginForm's rendering, its input handlers and the asynchronous
    onSubmit are not modelled. The calls to onSubmit are recorded in order.
- Test files are not modelled. Their stated laws appear as `CryptoLaws` and
  as lemmas.
- AuthService.WrongPasswordFails: only passwords that differ within the first
  72 bytes are refused. bcrypt reads no more of a password, so a longer
  password that starts with the right 72 bytes is accepted
  (`AuthService.ExtendedPasswordPasses`).

## Findings

| source | as written | input that shows it | evidently intended | confidence | as-written member | corrected member |
|---|---|---|---|---|---|---|
| store/store.go:102-109 | UpdateUser reads `user.ID` from the driver's result, which the SQLite driver returns as (nil, nil) for a missing or soft-deleted ID | UpdateUser with ID 1 on an empty users table | pass the missing user on as nil, and drop the ID's cache entry whatever the driver answers | not executed | Store.UpdateOnEmptyTableDereferencesNil | Store.Store.UpdateUser |
| store/db/postgresql/user.go:99-110 | ListUsers builds conditions for ID and Username only, so the Email and Role filters are ignored (the Role filter is the field the model adds to FindUser) | a live user with role "user", listed with Role = "admin" | filter on every set field, as the SQLite driver does | not executed | PostgresUser.RoleFilterDropped | PostgresUser.BuildListUsers |
| store/db/postgresql/user.go:53-81 | a new Password and an explicit PasswordExpires each append `password_expires = $n`, so the column is assigned twice and PostgreSQL refuses the statement | UpdateUser with both Password and PasswordExpires set | the explicit expiry wins, as with the SQLite driver | not executed | PostgresUser.PasswordWithExpiryIsRefused | PostgresUser.BuildUpdateUser |
| store/store.go:102-109 | on an error from the driver UpdateUser returns before `userCache.Delete`; the SQLite driver's error can come from the re-read after the UPDATE went through (sqlite/user.go:81-87), so the cache keeps the old user, old password hash included, until its TTL | a cached user whose UPDATE succeeds and whose re-read fails | drop the ID's cache entry whatever the driver answers | not executed | Store.StaleEntryAfterFailedReRead | Store.Store.UpdateUser |
