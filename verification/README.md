# Federated login reconciliation (framgia-booking-tours)

A Dafny model of the Google OAuth2 login of the tour-booking application,
`OAuth2ServiceImpl.processOAuth2Login` and its private helpers. One login is
modelled as a pure state transition:

    Login(state, claims, issuer) : Result<(state', AuthResponse), ErrorCode>

- `State` holds the account table (a map from email to `User`), the role catalog
  (a map from role name to `Role`), the next identifier the storage engine will
  assign, and the key-value cache (a map from key to value and time-to-live).
- `Claims` holds the provider's `email`, `name`, `picture` and `sub`
  attributes. Each of them may be missing, which models a Java `null`.
- `TokenIssuer` is the opaque JWT signer: two total functions from the
  principal to a token string.

The flow has these steps:

1. Claim validation rejects a missing or empty email.
2. Find-or-create inserts a new Google account on first sight of an email.
3. Linking attaches `sub` to an account that has no google id yet and marks it Active.
4. Tokens are issued for the account's principal.
5. The refresh token is written to the cache under `refreshtoken:<username>` for seven days.
6. The response summary is assembled.

Both application errors are thrown before anything is written. The email
check (lines 51-53) runs before the account lookup (line 55). The role lookup
(lines 69-70) runs before the account save (line 93) and the cache write
(line 101). A failed login therefore changes nothing, so `Failure` carries no
state. `After` gives the state an observer sees once the request is over.

Modules:

- `Wrappers`: `Option` and `Result`.
- `Text`: the single-character `String.replace` and the null-or-empty test.
- `Entities`: `User`, `Profile`, `Role`, the enums and the error codes.
- `OAuth2Login`: the operations.
- `OAuth2LoginProperties`: the lemmas about whole logins.

## Model

| member | source | states |
|---|---|---|
| Text.ReplaceChar | framgia-booking-tours/src/main/java/org/example/framgiabookingtours/service/impl/OAuth2ServiceImpl.java:74 | `name.replace(" ", "+")`: same length; every occurrence of the target becomes the replacement; every other character stays in place |
| Text.ReplaceCharRemovesAll | framgia-booking-tours/src/main/java/org/example/framgiabookingtours/service/impl/OAuth2ServiceImpl.java:74 | after replacing a character by a different one, that character no longer occurs |
| Text.ReplaceCharAbsent | framgia-booking-tours/src/main/java/org/example/framgiabookingtours/service/impl/OAuth2ServiceImpl.java:74 | replacing a character that does not occur returns the string unchanged |
| Text.ReplaceCharIdempotent | framgia-booking-tours/src/main/java/org/example/framgiabookingtours/service/impl/OAuth2ServiceImpl.java:74 | a second replacement pass changes nothing |
| OAuth2Login.ExtractEmail | framgia-booking-tours/src/main/java/org/example/framgiabookingtours/service/impl/OAuth2ServiceImpl.java:51-53 | validation succeeds exactly when the email claim is present and non-empty; otherwise it fails with UNCATEGORIZED_EXCEPTION |
| OAuth2Login.AvatarName | framgia-booking-tours/src/main/java/org/example/framgiabookingtours/service/impl/OAuth2ServiceImpl.java:74 | the name part of the generated avatar URL never contains a space; it is `User` without a name; otherwise it has the name's length, with spaces turned into `+` and all other characters kept |
| OAuth2Login.AvatarUrl | framgia-booking-tours/src/main/java/org/example/framgiabookingtours/service/impl/OAuth2ServiceImpl.java:72-74 | a non-empty picture is used verbatim; otherwise the URL is `https://ui-avatars.com/api/?name=`, then the avatar name, then `&background=random` |
| OAuth2Login.CreateNewGoogleUser | framgia-booking-tours/src/main/java/org/example/framgiabookingtours/service/impl/OAuth2ServiceImpl.java:68-94 | fails with ROLE_NOT_FOUND exactly when the catalog lacks `USER`; otherwise the account has no password, provider GOOGLE, status ACTIVE, roles exactly [USER], googleId = sub, and a profile with fullName = name or "Google User", the derived avatar URL and no other field set |
| OAuth2Login.LinkGoogleAccount | framgia-booking-tours/src/main/java/org/example/framgiabookingtours/service/impl/OAuth2ServiceImpl.java:58-62 | an account without a google id gets googleId = sub and status ACTIVE; an account with one is returned unchanged; id, email, password, provider, roles and profile never change |
| OAuth2Login.FindOrCreate | framgia-booking-tours/src/main/java/org/example/framgiabookingtours/service/impl/OAuth2ServiceImpl.java:55-56 | a known email yields its stored account and leaves the state alone; for an unknown email it fails exactly when `USER` is missing; on success the table gains only that email's entry |
| OAuth2Login.ReconcileUser | framgia-booking-tours/src/main/java/org/example/framgiabookingtours/service/impl/OAuth2ServiceImpl.java:55-62 | the reconciled account is saved under the email; no other account changes; the role catalog and the cache are untouched |
| OAuth2Login.LoadPrincipal | framgia-booking-tours/src/main/java/org/example/framgiabookingtours/service/impl/OAuth2ServiceImpl.java:64 | the principal's username is the account's email |
| OAuth2Login.BuildProfileResponse | framgia-booking-tours/src/main/java/org/example/framgiabookingtours/service/impl/OAuth2ServiceImpl.java:111-131 | id and email are always copied; with no profile, fullName is "No Name" and the other five fields are absent; with a profile, all six fields are copied verbatim |
| OAuth2Login.RefreshTokenKey | framgia-booking-tours/src/main/java/org/example/framgiabookingtours/service/impl/OAuth2ServiceImpl.java:100 | the cache key is the `refreshtoken:` prefix followed by the username |
| OAuth2Login.GenerateAuthResponse | framgia-booking-tours/src/main/java/org/example/framgiabookingtours/service/impl/OAuth2ServiceImpl.java:96-109 | both tokens come from the signer applied to the principal; the refresh token is cached under the principal's key with a seven-day TTL; every other key is untouched; the response carries the profile summary |
| OAuth2Login.Login | framgia-booking-tours/src/main/java/org/example/framgiabookingtours/service/impl/OAuth2ServiceImpl.java:43-66 | a successful login has a valid email that is now in the table; no account is removed; the role catalog is unchanged |
| OAuth2LoginProperties.LoginRejectsMissingEmail | framgia-booking-tours/src/main/java/org/example/framgiabookingtours/service/impl/OAuth2ServiceImpl.java:51-53 | UNCATEGORIZED_EXCEPTION is raised if and only if the email is absent or empty; the state is then unchanged |
| OAuth2LoginProperties.LoginRequiresDefaultRole | framgia-booking-tours/src/main/java/org/example/framgiabookingtours/service/impl/OAuth2ServiceImpl.java:69-70 | ROLE_NOT_FOUND is raised if and only if the email is valid and unknown and the catalog lacks `USER`; no account is inserted |
| OAuth2LoginProperties.LoginFailsOnlyForKnownReasons | framgia-booking-tours/src/main/java/org/example/framgiabookingtours/service/impl/OAuth2ServiceImpl.java:45-66 | a login fails exactly for a missing email, or for an unknown email while `USER` is missing; every login of a known email succeeds |
| OAuth2LoginProperties.LoginInsertsNewUser | framgia-booking-tours/src/main/java/org/example/framgiabookingtours/service/impl/OAuth2ServiceImpl.java:68-93 | an unknown email gains exactly one account, with the next identifier and the documented fields; all other accounts are unchanged |
| OAuth2LoginProperties.LoginLinksUnlinkedUser | framgia-booking-tours/src/main/java/org/example/framgiabookingtours/service/impl/OAuth2ServiceImpl.java:58-62 | a known account without a google id becomes googleId = sub and status ACTIVE; nothing else in the table changes |
| OAuth2LoginProperties.LoginLeavesLinkedUser | framgia-booking-tours/src/main/java/org/example/framgiabookingtours/service/impl/OAuth2ServiceImpl.java:58-62 | a known account that already has a google id is not modified; the table is unchanged |
| OAuth2LoginProperties.LinkGoogleAccountIdempotent | framgia-booking-tours/src/main/java/org/example/framgiabookingtours/service/impl/OAuth2ServiceImpl.java:58-62 | linking twice with the same sub is the same as linking once |
| OAuth2LoginProperties.LoginIdempotent | framgia-booking-tours/src/main/java/org/example/framgiabookingtours/service/impl/OAuth2ServiceImpl.java:55-62 | a second login with the same claims succeeds; it leaves the table, the identifier counter and the catalog unchanged |
| OAuth2LoginProperties.LoginCachesRefreshToken | framgia-booking-tours/src/main/java/org/example/framgiabookingtours/service/impl/OAuth2ServiceImpl.java:100-101 | after a login, `refreshtoken:<email>` holds exactly the refresh token just issued, with a TTL of exactly 7 days (604800 seconds); any earlier value is overwritten; every other key keeps its entry |
| OAuth2LoginProperties.LoginRespondsWithStoredAccount | framgia-booking-tours/src/main/java/org/example/framgiabookingtours/service/impl/OAuth2ServiceImpl.java:103-108 | the response summarises the account as stored after the login, with its email and id |
| OAuth2LoginProperties.LoginPreservesValid | framgia-booking-tours/src/main/java/org/example/framgiabookingtours/service/impl/OAuth2ServiceImpl.java:55-93 | each login keeps the storage invariant: every account is stored under its own email, identifiers are distinct, and roles are keyed by name |
| OAuth2LoginProperties.AvatarNameConflatesSpaceAndPlus | framgia-booking-tours/src/main/java/org/example/framgiabookingtours/service/impl/OAuth2ServiceImpl.java:74 | the encoding is lossy: a name and the same name with its spaces written as `+` give the same avatar name, and so the same URL; the two names differ whenever the name has a space |
| OAuth2LoginProperties.FirstLoginExample | framgia-booking-tours/src/main/java/org/example/framgiabookingtours/service/impl/OAuth2ServiceImpl.java:68-93 | on an empty table, `a@x.com` / "A B" / empty picture / `g123` creates an ACTIVE Google account; its avatar is `https://ui-avatars.com/api/?name=A+B&background=random`; the response's full name is "A B" |

## Left out

- Spring wiring, JPA persistence and the bidirectional `setProfile`/`setUser` links
  (lines 90-91) are left out. The account owns its profile by value.
- Identifier generation by the storage engine is modelled as a counter in the state.
- JWT signing (lines 97-98) depends on the clock and on a foreign library. It is
  modelled as the opaque `TokenIssuer` functions.
- The Redis client is modelled as a map from key to value and TTL in seconds.
  Expiry over time is not modelled.
- `loadUserByUsername` (line 64) is an external lookup. It is modelled by
  `LoadPrincipal`: username = the account's email, authorities = its roles.
- Logging is left out. So is the concurrent find-or-create race, which belongs to
  the storage engine. The source has no retry on a uniqueness conflict, so the model has none.
- `UserStatus` and `Provider` are modelled with two values each. The flow uses
  only `Active` and `Google`. `Pending` and `Local` are placeholders for the other
  values of those enums, which this model does not know.
- `OAuth2Service.java` is a one-method interface with no logic.
- OAuth2Login.After: a modelling choice with no source line of its own. It returns
  the new state on success and the old state on failure, so the lemmas can say
  that a failed login changes nothing.
- The role repository's `findByName` is not a separate member. It is the catalog
  lookup inside `OAuth2Login.CreateNewGoogleUser`.
- OAuth2Login.Login: its own contract states only coarse facts. The precise
  behaviour is stated by the lemmas in `OAuth2LoginProperties`.
