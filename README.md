# mydiary_api core, modelled in Dafny

This project models the service core of the mydiary API, a Hono/Bun backend over Supabase. The model covers:

- **Refresh-token sessions.** Issuing an access/refresh JWT pair stores a record of the refresh token keyed by its `jti`. A refresh walks a fixed sequence of checks and then rotates the record: it issues a new pair and revokes the old record, pointing it at its successor. Logout revokes the record.
- **Identity fallbacks.** `signUp` tries the invitation first and falls back to a user lookup. `verifyEmail` tries the OTP first, then the lookup, then creating the user. The lookup first probes the profiles table by exact e-mail, then pages through the admin user listing, comparing e-mails case-insensitively.
- **The token codec.** HS256 JWTs with a `type` discriminator and fixed lifetimes: 15 minutes for access tokens, 7 days for refresh tokens.
- **Secret wrapping.** AES-256-GCM under a base64 server key, with a lenient base64 decoder (Node's `Buffer` behaviour, assumed for Bun's `Buffer` too).
- **Errors, middleware and profiles.** `AppError` and its normalisation, the JSON error response, the bearer-token middleware, and the profile service.
- **The diary service.** Creation defaults, the update map, ownership-checked update and delete, unlocking, and the precedence of list filters.
- **Validation.** The request schemas (zod) and the environment gate.

Each stateful service is a class over an in-memory table:

- `RefreshTokenStore` over `refresh_tokens`;
- `ProfileService` over `profiles`;
- `DiaryTable` over `diaries`;
- `AuthService` over the store and the profile service.

Almost every method is proved equal to a specification function of the old state, and the lemmas about those functions carry the properties. `ProfileService.UpdateProfile` and the `DiaryTable` methods instead state the new table and result directly, field by field.

Everything outside the process is a parameter:

- the outcome of every database and identity-provider call;
- the current time;
- the random `jti`, IV and key bytes;
- the cryptographic primitives. HMAC, SHA-256, the GCM keystream and tag, and bcrypt are function-valued fields of `Hs256`, `Gcm` and `Bcrypt`, so every property holds for any instantiation of them.

Modules:

- `Common`: Option, Result, JSON, truthiness, ASCII case folding, UTF-16 length.
- `Errors`: `src/lib/errors.ts` and the error `wrapQuery` throws.
- `Base64`: section 4 of RFC 4648, encoded as `Buffer` does and decoded leniently as Node's `Buffer` does.
- `SecretWrap`: `src/services/crypto.ts`.
- `Tokens`: `src/lib/tokens.ts`.
- `RefreshTokens`: `src/services/refresh-token-service.ts`.
- `Profiles`: `src/services/profile-service.ts`.
- `Auth`: `src/services/auth-service.ts`.
- `AuthProofs`: the properties of the authentication flows.
- `Middleware`: `src/middleware/auth.ts`.
- `Diaries`: `src/services/diary-service.ts`.
- `Validators`: `src/utils/validators.ts`.
- `Config`: `src/config/env.ts`.

## Model

| member | source | states |
|---|---|---|
| Common.Lower | src/middleware/auth.ts:13 | `toLowerCase` on ASCII: same length, each letter A-Z lowered, every other character kept, no capital letter left |
| Common.Utf16Length | src/utils/validators.ts:15 | the `.length` that zod's `min` checks: at least the number of code points and at most twice it |
| Errors.Fail | src/lib/errors.ts:15-24 | `new AppError(m, {status, code})` carries exactly that message, status and code, with no details and no cause |
| Errors.NewAppError | src/lib/errors.ts:15-24 | the message is kept; without options the error is 500 `internal_error` with no details or cause; a kept cause is always truthy (ConstructorDefaults states every field) |
| Errors.Normalize | src/lib/errors.ts:27-41 | an AppError is returned as it is; anything else gets the fallback's message and details, and keeps itself as cause exactly when it is an Error object |
| Errors.QueryFailure | src/lib/supabase.ts:39-58 | a failing query becomes an AppError with the caller's message, status and code, and the database error as its cause |
| Errors.ConstructorDefaults | src/lib/errors.ts:15-24 | status defaults to 500 and code to `internal_error` when omitted; given values are kept; `cause` is set only when it is truthy |
| Errors.NormalizeIdempotent | src/lib/errors.ts:27-33 | an AppError passes through `normalize` unchanged, so normalising twice equals normalising once, whatever the second fallback |
| Errors.NormalizeWraps | src/lib/errors.ts:34-40 | any other value is wrapped with the fallback's message, status and code (500 and `internal_error` by default); only Error objects are kept as the cause |
| Errors.DefaultFallbackIsInternalError | src/lib/errors.ts:29 | the default fallback gives "Internal server error", 500, `internal_error` |
| Errors.HandleRouteError | src/lib/errors.ts:52-73 | the response has `ok: false`, the normalised status, code and message (an AppError's own; otherwise the fallback's message, with its status and code or 500 and `internal_error`), the normalised details when present and `null` when there are none; it logs at error level exactly when the status is 500 or more |
| Base64.EncodeChar | src/services/crypto.ts:40-42 | a six-bit value maps to an alphabet character, never `=` |
| Base64.DecodeChar | src/services/crypto.ts:19 | an alphabet character (standard or URL-safe) decodes to a six-bit value; `=` decodes to nothing |
| Base64.DecodeEncodeChar | src/services/crypto.ts:19 | decoding the character of a six-bit value gives the value back |
| Base64.ToSextets | src/services/crypto.ts:40-42 | bytes become 4 sextets per 3 bytes, plus 2 or 3 sextets for a trailing 1 or 2 bytes |
| Base64.EncodeChars | src/services/crypto.ts:40-42 | one character per sextet, none of them `=` |
| Base64.Encode | src/services/crypto.ts:40-42 | the encoding has length `4 * ceil(n / 3)`, a multiple of 4 |
| Base64.Sextets | src/services/crypto.ts:19 | the lenient decoder collects only six-bit values: it skips non-alphabet characters and stops at the first `=` |
| Base64.Decode | src/services/crypto.ts:48-50 | the decoded length is three bytes per four alphabet characters read, plus one or two bytes for a tail of two or three; DecodeEncode makes it the inverse of Encode |
| Base64.SextetsOfEncoded | src/services/crypto.ts:19 | the lenient decoder reads back exactly the sextets of an encoding, whatever padding follows |
| Base64.FromToSextets | src/services/crypto.ts:48-50 | regrouping the sextets of some bytes gives the bytes back |
| Base64.FromSextetsLength | src/services/crypto.ts:19-21 | how many bytes `n` sextets decode to: 3 per 4, plus 1 or 2 for a trailing 2 or 3 |
| Base64.DecodeEncode | src/services/crypto.ts:40-50 | `Buffer.from(b.toString("base64"), "base64")` is `b` |
| SecretWrap.Ctr | src/services/crypto.ts:33-36 | counter-mode output has the length of its input |
| SecretWrap.FullTag | src/services/crypto.ts:37 | the GCM tag is 16 bytes |
| SecretWrap.GetWrapKey | src/services/crypto.ts:12-26 | the key is returned exactly when the variable is set and base64-decodes to 32 bytes; otherwise the error is "not defined" or "must decode to 32 bytes" |
| SecretWrap.GenerateAccountMasterKey | src/services/crypto.ts:62-63 | the generated key decodes to its 32 random bytes and passes the wrap-key gate |
| SecretWrap.CtrInvolution | src/services/crypto.ts:31-36 | counter mode twice under the same key and IV is the identity |
| SecretWrap.Wrap | src/services/crypto.ts:28-44 | wrapping fails exactly when the key gate fails, with the gate's error; an envelope's IV decodes to the IV used, its tag to 16 bytes and its ciphertext to the plaintext's length |
| SecretWrap.Unwrap | src/services/crypto.ts:46-60 | the key gate's error comes first, then an empty IV is refused; a released plaintext has the ciphertext's length (UnwrapReleasesOnlyAuthentic states when it is released) |
| SecretWrap.KeyGateCharacters | src/services/crypto.ts:19-23 | a key passes exactly when it has 43 alphabet characters before its first `=` |
| SecretWrap.WrongLengthKeyRejected | src/services/crypto.ts:21-23 | a key encoding anything but 32 bytes makes wrap fail with the key-length error, and makes unwrap fail |
| SecretWrap.UnwrapWrap | src/services/crypto.ts:28-60 | unwrapping a wrapped secret gives the plaintext back |
| SecretWrap.FreshIvPerWrap | src/services/crypto.ts:28-44 | each envelope stores its own 12-byte IV, so different IVs give different envelopes |
| SecretWrap.ForgedTagRejected | src/services/crypto.ts:53-58 | any other full-length tag makes unwrapping fail with the authentication error |
| SecretWrap.UnwrapReleasesOnlyAuthentic | src/services/crypto.ts:46-60 | a plaintext is released only when the key is valid, the tag length is accepted and the tag matches the computed tag |
| Tokens.CreateAccessToken | src/lib/tokens.ts:36-52 | a signed token of type `access` with the user's sub, email and role, no `jti`, `exp = iat + 900`, and `expiresAt` 900 s after now |
| Tokens.HashToken | src/lib/tokens.ts:102-104 | SHA-256 is a parameter, so the hash has no contract of its own; AuthProofs.IssueStoresRecord states that the stored hash is that of the handed-out token, and AuthProofs.RefreshNeedsIssuedHash that a refresh of the record needs a token with that hash |
| Tokens.CreateRefreshToken | src/lib/tokens.ts:54-70 | a signed token of type `refresh` carrying the `jti`, `exp = iat + 604800`, and `expiresAt` 7 days after now |
| Tokens.JwtVerify | src/lib/tokens.ts:72-100 | verification succeeds exactly for an authentic token whose `exp` is after the current second, and returns its claims |
| Tokens.VerifyAccessToken | src/lib/tokens.ts:72-85 | success exactly when the JWT verifies and the type is `access`; every failure is the same 401 `invalid_access_token` |
| Tokens.VerifyRefreshToken | src/lib/tokens.ts:87-100 | success exactly when the JWT verifies, the type is `refresh` and a `jti` is present; every failure is 401 `invalid_refresh_token` |
| Tokens.KindsAreSeparate | src/lib/tokens.ts:72-100 | no token passes both verifiers; a refresh token never passes as access, and an access token never passes as refresh |
| Tokens.AccessRoundTrip | src/lib/tokens.ts:36-85 | a minted access token verifies exactly while the current second is before its expiry second |
| Tokens.RefreshRoundTrip | src/lib/tokens.ts:54-100 | a minted refresh token verifies exactly while unexpired, and returns its `jti` |
| Tokens.JwtExpiryWithinExpiresAt | src/lib/tokens.ts:45-49 | a token that still verifies at `now` is before its millisecond `expiresAt` |
| RefreshTokens.SavedRows | src/services/refresh-token-service.ts:14-24 | an insert succeeds exactly without a DB error and with a new id; it adds exactly the new unrevoked record and changes nothing else |
| RefreshTokens.RevokedRows | src/services/refresh-token-service.ts:38-47 | revocation sets `revoked`; it overwrites `replaced_by` only with a non-empty successor; the insert-time fields and every other record are untouched |
| RefreshTokens.Lookup | src/services/refresh-token-service.ts:26-36 | the record with that id, nothing when there is none, or the load error |
| RefreshTokens.RefreshTokenStore.constructor | src/services/refresh-token-service.ts:13 | an empty table |
| RefreshTokens.RefreshTokenStore.SaveToken | src/services/refresh-token-service.ts:14-24 | the new table is `SavedRows` of the old one; on error the table is unchanged |
| RefreshTokens.RefreshTokenStore.GetToken | src/services/refresh-token-service.ts:26-36 | the answer is `Lookup` of the table |
| RefreshTokens.RefreshTokenStore.RevokeToken | src/services/refresh-token-service.ts:38-47 | the new table is `RevokedRows` of the old one; an unknown id is not an error; on error the table is unchanged |
| RefreshTokens.SuccessorTransitive | src/services/refresh-token-service.ts:14-47 | the "legal evolution" relation between tables is transitive |
| RefreshTokens.SaveIsSuccessor | src/services/refresh-token-service.ts:14-24 | a save is a legal evolution and keeps records under their ids |
| RefreshTokens.RevokeIsSuccessor | src/services/refresh-token-service.ts:38-47 | a revocation is a legal evolution: nothing is removed, and `revoked` and `replaced_by` are never cleared |
| RefreshTokens.RevokeIdempotent | src/services/refresh-token-service.ts:38-42 | revoking twice without a successor equals revoking once, and keeps an existing `replaced_by` |
| RefreshTokens.RevokeUnknownIsNoop | src/services/refresh-token-service.ts:43 | revoking an unknown id changes nothing |
| RefreshTokens.RevokeRevokedIsNoop | src/services/refresh-token-service.ts:38-43 | revoking an already revoked record without a successor changes nothing |
| Profiles.Upserted | src/services/profile-service.ts:6-15 | the upsert writes only `email`, keyed by id; it creates the row when missing and leaves other rows alone |
| Profiles.Ensured | src/services/profile-service.ts:6-15 | the upsert, or `profile_upsert_failed` (500) on a DB error |
| Profiles.Fetched | src/services/profile-service.ts:17-28 | the profile, nothing when there is none, or `profile_fetch_failed` (500) |
| Profiles.BuildPayload | src/services/profile-service.ts:34-40 | a key is written only when given; `null` settings become `{}`; settings are never written as `null` |
| Profiles.ProfileService.constructor | src/services/profile-service.ts:5 | the service over a given table |
| Profiles.ProfileService.EnsureProfile | src/services/profile-service.ts:6-15 | the new table is `Upserted` of the old one, or is unchanged with the upsert error |
| Profiles.ProfileService.GetProfile | src/services/profile-service.ts:17-28 | the answer is `Fetched` of the table |
| Profiles.ProfileService.UpdateProfile | src/services/profile-service.ts:30-57 | it patches only the named row's display name and settings; `profile_update_failed` on a DB error; 404 `profile_not_found` when no row matches |
| Profiles.UpsertIdempotent | src/services/profile-service.ts:6-15 | repeating the upsert with the same arguments changes nothing |
| Profiles.UpsertCount | src/services/profile-service.ts:6-15 | the upsert adds a row exactly when the id had none, so the table keeps one profile per id |
| Profiles.PayloadTouchesOnlyNamedColumns | src/services/profile-service.ts:34-40 | a payload never changes id, email, role or the disabled flag; an empty payload changes nothing |
| Auth.FirstMatch | src/services/auth-service.ts:287 | `find` returns the first element satisfying the callback, and nothing only when no element does |
| Auth.FindUser | src/services/auth-service.ts:260-296 | the result of `findUserByEmail`; AuthProofs.FindUserSound and AuthProofs.FindUserComplete state what it finds and when it finds nothing |
| Auth.ScanLimit | src/services/auth-service.ts:277-294 | the page loop sees at most every listed user, and only those before the first failing page |
| Auth.Issued | src/services/auth-service.ts:179-205 | issuance keeps both tables consistent and leaves profiles alone |
| Auth.RevokedThenFail | src/services/auth-service.ts:220-228 | the expiry and mismatch branches revoke the record without a successor and then fail with the given error; a failing revocation throws "Failed to revoke refresh token: …" and changes nothing; the token table only evolves legally and keeps its ids |
| Auth.Refreshed | src/services/auth-service.ts:207-243 | every refresh outcome keeps the tables consistent and never touches profiles |
| Auth.MissingCookie | src/services/auth-service.ts:208-211 | no cookie or an empty one; AuthProofs.RefreshRejectsWithoutWriting states that it ends the refresh with `refresh_token_missing` and writes nothing |
| Auth.LoggedOut | src/services/auth-service.ts:245-257 | logout keeps the tables consistent and never touches profiles |
| Auth.SignedUp | src/services/auth-service.ts:24-75 | sign-up never touches the token table |
| Auth.Provisioned | src/services/auth-service.ts:105-119 | the ensure-load-issue sequence keeps the tables consistent |
| Auth.CreatedSession | src/services/auth-service.ts:133-160 | the creation fallback keeps the tables consistent |
| Auth.VerifiedEmail | src/services/auth-service.ts:85-177 | every verification outcome keeps the tables consistent |
| Auth.FallbackSession | src/services/auth-service.ts:129-177 | the lookup-or-create fallback keeps the tables consistent; AuthProofs.FallbackSessionIsLive states the session it returns |
| Auth.NeedsDisplayName | src/services/auth-service.ts:109 | `!profile?.display_name`; AuthProofs.ProvisionedIsLive states that `needsDisplayName` holds exactly when the profile's display name is missing or empty |
| Auth.AuthService.constructor | src/services/auth-service.ts:18 | the service over a given store and profile service |
| Auth.AuthService.FindUserByEmail | src/services/auth-service.ts:260-296 | the page loop returns `FindUser`: the profile hit, else the first listed user with a matching e-mail among the pages fetched before a failure, else nothing |
| Auth.AuthService.IssueTokensForUser | src/services/auth-service.ts:179-205 | result and new tables equal `Issued` of the old tables |
| Auth.AuthService.RefreshSession | src/services/auth-service.ts:207-243 | result and new tables equal `Refreshed` of the old tables |
| Auth.AuthService.Logout | src/services/auth-service.ts:245-257 | the new tables equal `LoggedOut` of the old ones |
| Auth.AuthService.SignUp | src/services/auth-service.ts:24-75 | result and new tables equal `SignedUp` of the old tables |
| Auth.AuthService.Provision | src/services/auth-service.ts:105-119 | result and new tables equal `Provisioned` of the old tables |
| Auth.AuthService.VerifyEmail | src/services/auth-service.ts:85-177 | result and new tables equal `VerifiedEmail` of the old tables |
| Auth.ScanStopsAtFailure | src/services/auth-service.ts:283-294 | once the listing call fails, the users seen are exactly those before the failing page |
| Auth.ScanCoversPage | src/services/auth-service.ts:283-289 | a successful page lies within the users the loop can see |
| Auth.FirstMatchAfterMisses | src/services/auth-service.ts:287-288 | a match on a later page, after misses on all earlier pages, is the first match overall |
| Auth.FirstMatchWithin | src/services/auth-service.ts:287-288 | the same, for any prefix that contains the page |
| Auth.Find | src/services/auth-service.ts:287-288 | the element found is the one at the first matching index, and there is one exactly when some element matches |
| Auth.ScanFinds | src/services/auth-service.ts:287-288 | a match on the page at `lo..hi`, after no match before `lo`, is what a search of every user the scan can see returns |
| Auth.NoMatchExtends | src/services/auth-service.ts:286-290 | misses on earlier pages and on this page are a miss on all of them |
| AuthProofs.IssueStoresRecord | src/services/auth-service.ts:179-205 | issuance stores exactly one unrevoked record for the returned `jti`, with the refresh token's hash and expiry; on failure it stores nothing and fails with `token_issue_failed` (500) |
| AuthProofs.RefreshRejectsWithoutWriting | src/services/auth-service.ts:208-219 | a missing cookie (`refresh_token_missing`), a failed verify, an unknown id (`refresh_token_not_found`) and a revoked record (`refresh_token_revoked`) each fail without writing |
| AuthProofs.RefreshRevokesOnExpiryOrMismatch | src/services/auth-service.ts:220-228 | an expired record or a hash mismatch revokes the record without a successor, and fails with `refresh_token_expired` or `refresh_token_mismatch` (expiry checked first); when the revocation fails, its own error escapes and nothing changes |
| AuthProofs.RefreshRotates | src/services/auth-service.ts:207-243 | a refresh succeeds exactly when every check and write succeeds; the new table is the old record revoked and pointing at the new record |
| AuthProofs.RefreshRereadsRole | src/services/auth-service.ts:231-236 | the new pair carries the profile's role when it has one, and the old token's role otherwise |
| AuthProofs.RefreshIsSuccessor | src/services/auth-service.ts:207-243 | every refresh outcome is a legal evolution of the token table |
| AuthProofs.RefreshNeedsIssuedHash | src/services/auth-service.ts:225-228 | a refresh of a record after its issuance succeeds only with a token whose hash is the hash of the refresh token issued with it |
| AuthProofs.ReplayIsRefused | src/services/auth-service.ts:213-238 | after a rotation, presenting the old token again fails with `refresh_token_revoked` |
| AuthProofs.RecordExpiryFollowsTokenExpiry | src/services/auth-service.ts:220-224 | for a token issued with its record, verification implies that the record is unexpired |
| AuthProofs.RotatedTokenRotatesAgain | src/services/auth-service.ts:207-243 | the token a refresh hands out refreshes in turn while unexpired |
| AuthProofs.RotationExtendsChain | src/services/auth-service.ts:238 | a successful refresh with the newest token extends the chain of revoked records, each pointing at its successor |
| AuthProofs.LogoutRevokes | src/services/auth-service.ts:245-257 | logout revokes the presented token's record and nothing else; without a verifying token it changes nothing |
| AuthProofs.FindUserSound | src/services/auth-service.ts:260-296 | what the lookup returns is the profile hit, or a listed user whose e-mail matches ignoring case, before which no listed user matched |
| AuthProofs.FindUserComplete | src/services/auth-service.ts:277-291 | when every listing call succeeds, a matching listed user is always found |
| AuthProofs.SignUpFailsOnlyWithoutUser | src/services/auth-service.ts:24-75 | sign-up fails only when the invitation fails and the lookup finds nobody, with `signup_failed` (500); a failing fallback upsert is swallowed |
| AuthProofs.ProvisionedIsLive | src/services/auth-service.ts:105-119 | a session it returns is backed by a live record, and `needsDisplayName` is true exactly when the profile has no display name |
| AuthProofs.CreatedSessionIsLive | src/services/auth-service.ts:133-152 | a created user's session is backed by a live record and always needs a display name |
| AuthProofs.VerifiedSessionIsLive | src/services/auth-service.ts:85-177 | whichever path it takes, a session `verifyEmail` returns is backed by a live record |
| AuthProofs.FallbackSessionIsLive | src/services/auth-service.ts:129-177 | the lookup-or-create fallback, on its own, only evolves the token table legally and returns a session backed by a live record |
| AuthProofs.VerifyCreateFailures | src/services/auth-service.ts:133-159 | when the user cannot be created the error is `verification_failed` (400); a failing profile upsert after creation passes through as `profile_upsert_failed` (500); a created user always needs a display name |
| AuthProofs.OtpPathTakesPrecedence | src/services/auth-service.ts:104-120 | a successful OTP path returns its own session; the lookup and creation are never consulted |
| Middleware.Split | src/middleware/auth.ts:12 | `split(" ")` gives at least one piece, none containing a space |
| Middleware.GetBearerToken | src/middleware/auth.ts:7-18 | an extracted token is non-empty and has no space; BearerRoundTrip and BearerSound state exactly which headers yield which token |
| Middleware.Admission | src/middleware/auth.ts:20-59 | a request is admitted exactly when a bearer token is present, the provider returns a user, the profile query succeeds (or finds no rows) and the profile is not disabled; then it carries the provider's user and the profile; a missing token is 401 "Missing or invalid Authorization header", a failed or empty lookup is 401 "Unable to validate access token"; every failure is 401, 403 or 500 |
| Middleware.RequestContext.constructor | src/middleware/auth.ts:20 | no user, no profile, not admin |
| Middleware.RequestContext.AuthMiddleware | src/middleware/auth.ts:20-59 | it throws `Admission`'s error, or sets `Admission`'s user and profile with `isAdmin` false |
| Middleware.SplitJoin | src/middleware/auth.ts:12 | splitting space-joined pieces that contain no spaces gives the pieces back |
| Middleware.SplitNoSpace | src/middleware/auth.ts:12 | a string without spaces is a single piece |
| Middleware.SplitAfterWord | src/middleware/auth.ts:12 | a word and a space form the first piece |
| Middleware.JoinSplit | src/middleware/auth.ts:12 | joining the pieces of a string gives the string back |
| Middleware.BearerRoundTrip | src/middleware/auth.ts:7-18 | `<scheme> <token>`, with the scheme equal to "bearer" ignoring case, yields the token; a trailing part is ignored |
| Middleware.BearerSound | src/middleware/auth.ts:7-18 | an extracted token is the non-empty second piece of the header, after a scheme equal to "bearer" ignoring case |
| Middleware.SplitPrefix | src/middleware/auth.ts:12 | a header with two or more pieces begins with its first two pieces joined by one space, followed by nothing or a space |
| Middleware.DisabledNeverAdmitted | src/middleware/auth.ts:49-51 | a disabled account is refused; with a verified user it is refused with 403; without a token it is refused with 401 |
| Middleware.ProfileErrors | src/middleware/auth.ts:45-54 | `PGRST116` reads as a missing profile; any other profile error is a 500 |
| Diaries.TitleFrom | src/services/diary-service.ts:35 | the default title is the first 20 characters of the content, or all of it when it is shorter |
| Diaries.NewDiary | src/services/diary-service.ts:24-39 | `is_locked` defaults to false; the hash is stored exactly when the diary is locked and a non-empty password is given; the title defaults to the content's prefix |
| Diaries.UnlockDiary | src/services/diary-service.ts:224-228 | true for an unlocked diary or one without a hash; otherwise the bcrypt comparison |
| Diaries.Updated | src/services/diary-service.ts:170-189 | an update never changes the id or the owner; a new lock password is stored as a hash that it matches, `null` clears the hash and a missing one keeps it |
| Diaries.BuildUpdates | src/services/diary-service.ts:170-179 | the update map holds exactly the given fields; `lock_password` never reaches the table; it becomes a cleared hash (`null`) or a new hash (a string); when absent the hash is not touched |
| Diaries.DiaryTable.constructor | src/services/diary-service.ts:19 | the service over a given table |
| Diaries.DiaryTable.CreateDiary | src/services/diary-service.ts:23-46 | it inserts exactly `NewDiary` under the new id; `diary_create_failed` (500) on an insert error, with the table unchanged |
| Diaries.DiaryTable.GetDiary | src/services/diary-service.ts:151-164 | the diary only when it belongs to the caller; `diary_fetch_failed` on a DB error |
| Diaries.DiaryTable.UpdateDiary | src/services/diary-service.ts:169-198 | only a row matching both user and id is patched, to the field-by-field update; otherwise 404 `diary_not_found` with the table unchanged; `diary_update_failed` on a DB error |
| Diaries.DiaryTable.DeleteDiary | src/services/diary-service.ts:203-219 | it removes exactly the caller's row; otherwise 404 `diary_not_found`; `diary_delete_failed` on a DB error; the table is unchanged on every error |
| Diaries.UpdatedMatchesPatched | src/services/diary-service.ts:170-189 | applying the built update map equals the field-by-field update |
| Diaries.CreatedDiaryUnlocks | src/services/diary-service.ts:23-228 | a diary created locked with a password opens with that password; one created unlocked or without a password opens with any password |
| Diaries.UpdatedDiaryUnlocks | src/services/diary-service.ts:169-228 | after an update that sets a password, that password opens the diary; after one that clears it, any password does |
| Diaries.DateBounds | src/services/diary-service.ts:90-123 | the if/else chain leaves `fromDate` and `toDate` as the precedence function `Bounds` gives them |
| Diaries.Bounds | src/services/diary-service.ts:93-123 | the range the list query applies; FilterPrecedence states the order in which the filters hide one another |
| Diaries.FilterPrecedence | src/services/diary-service.ts:93-135 | explicit from+to hides every other field and applies a range; a lone `from` or `to` is ignored; `month` hides `day` and `offsetYear`; `day` hides `offsetYear` and gives that day's bounds; `offsetYear` 0 counts as absent; an empty filter applies no range |
| Validators.Matches | src/utils/validators.ts:3-5 | an anchored match has the pattern's length |
| Validators.MatchesPointwise | src/utils/validators.ts:3-5 | an anchored match means the same length and each character matching its position |
| Validators.DateParamShape | src/utils/validators.ts:3-5 | a date parameter is exactly `DDDD-DD-DD` over ASCII digits |
| Validators.DateParamExamples | src/utils/validators.ts:3-5 | there is no calendar check (`2024-13-99` passes); a one-digit month fails; a trailing newline fails |
| Validators.EntryTimeShape | src/utils/validators.ts:11-14 | an entry time is exactly `DD:DD` or `DD:DD:DD` over ASCII digits |
| Validators.UuidShape | src/utils/validators.ts:25-26 | a UUID is 36 characters: hex digits with dashes at positions 8, 13, 18 and 23 |
| Validators.MinLengthBounds | src/utils/validators.ts:15-17 | `min(1)` means non-empty |
| Validators.ParseCreateEntry | src/utils/validators.ts:7-20 | parsing fails exactly when the input is not an object or some field breaks its rule, and then it reports at least one issue; a parsed entry satisfies every rule |
| Validators.EntryRoundTrip | src/utils/validators.ts:7-20 | every valid entry is accepted and parsed back unchanged |
| Validators.EntryIgnoresUnknownKeys | src/utils/validators.ts:7-20 | unknown keys neither cause a failure nor reach the parsed value |
| Validators.NullIsNotMissing | src/utils/validators.ts:11-19 | an optional field may be missing but not `null` |
| Validators.ParseUnwrapRequest | src/utils/validators.ts:24-28 | parsing fails exactly when some field breaks its rule; a parsed request has two UUIDs and a reason of at least 5 characters |
| Validators.UnwrapRoundTrip | src/utils/validators.ts:24-28 | a valid request parses back unchanged; a reason shorter than 5 characters is refused with a `reason` issue |
| Config.ParseEnv | src/config/env.ts:3-19 | parsing succeeds exactly when no variable breaks its rule; failures name only the checked variables; a parsed configuration satisfies every rule |
| Config.ShortSecretRejected | src/config/env.ts:9-18 | a missing `JWT_SECRET`, or one shorter than 32 characters, stops start-up with a `JWT_SECRET` issue |
| Config.PortAndNodeEnv | src/config/env.ts:7-17 | `PORT` is `"3000"` when unset and the given value otherwise; `NODE_ENV` never affects success |
| Config.KeyRules | src/config/env.ts:5-6 | the anon key may be missing but not empty; the service key must be set and non-empty |
| Config.EnvRoundTrip | src/config/env.ts:3-19 | every configuration that meets the rules is what its own variables parse to |

## Left out

- I/O and time: HTTP routing, cookies, logging, the Bun server and the clock are outside the model. The current time in milliseconds is a parameter, and both tokens of a pair are minted at the same `nowMs`.
- Cryptography: HMAC-SHA256, SHA-256, AES-256-GCM and bcrypt are abstract functions, and random values (`jti`, IV, key bytes) are parameters. The bcrypt salt is folded into the abstract `hash`. Only "compare accepts the password that was hashed" is assumed of bcrypt, so different passwords are not shown to fail.
- JOSE details: the protected header and algorithm negotiation of `jwtVerify`, and the `nbf`/`iat` checks, are not modelled. A token is its claims plus a signature, and anything that does not parse is `Malformed`.
- Base64.Decode: the program runs on Bun, and Bun's `Buffer` is assumed to decode base64 as leniently as Node's (URL-safe characters accepted, other characters skipped, decoding stops at the first `=`); SecretWrap.KeyGateCharacters and the crypto error paths rest on that assumption.
- SecretWrap.Wrap: the UTF-8 encoding of the plaintext string and the UTF-8 decoding of the result are not modelled; plaintexts are byte sequences.
- SecretWrap.Unwrap: Node's other `createDecipheriv` IV errors are not modelled; only an empty IV is refused.
- Database behaviour: only the values the code reads and writes are modelled. Defaults (`created_at`, `updated_at`, column defaults), row order and `order(...)` are left out.
- Errors.QueryFailure: the `code`, `details` and `hint` of a PostgREST error are reduced to its message, and `wrapQuery`'s `options.details` context is not used by any core caller.
- Concurrency: the read-then-write race between two simultaneous refreshes of the same token is not modelled; calls are sequential.
- Auth.VerifiedEmail: the OTP `type` parameter is passed to the provider and is not modelled. A `user_metadata.role` that is not a string is not modelled: a role is a string or absent.
- Common.Lower: case folding is ASCII-only. Only ASCII letters fold to the letters of "bearer", and e-mail lookups compare under this folding.
- Diaries.TitleFrom: takes the first 20 code points, whereas `slice` counts UTF-16 units; the two differ only for content with characters above U+FFFF.
- Diaries.BuildUpdates: the typed input fields are modelled. The route passes the raw request body, whose other keys would also be spread into the update, and this is not modelled.
- Diaries.DateBounds: dayjs month, day and "same weekday N years ago" arithmetic is a parameter (`Calendar`); a non-numeric `offsetYear` (NaN) is modelled as absent.
- Listing: `listDiaries`, `listDiarySummaries` and the query itself are not modelled beyond whether a date range is applied.
- Validators.UuidShape: follows the zod 3 UUID pattern (8-4-4-4-12 hexadecimal digits, any case); zod 4's version and variant checks are not modelled.
- Config.ParseEnv: `z.string().url()` is a parameter predicate (`isUrl`), and zod's error messages are reduced to the names of the failing variables.
