# Token service and route policy of the Tansiq API gateway

This project models, in Dafny, the two pieces of security logic the gateway
implements itself:

- **The token service** (`JWTServiceAuthJWT`). It issues access tokens (15 minutes,
  signed with `ACCESS_TOKEN_SECRET`) and refresh tokens (7 days, signed with
  `REFRESH_TOKEN_SECRET`) from an identity payload (email, UUID, role list). It
  verifies a token back into a payload. The claims are subject = email,
  issuer = the UUID's text, `role` = first role, and expiry = now + lifetime.
  A verified payload carries exactly one role.
- **The route policy** (`SecurityConfig.configure(HttpSecurity)`). Six rules are
  registered in order on the `HttpSecurity` builder. Each rule is an optional
  HTTP method, a path pattern and a requirement: `permitAll` or an exact
  authority. They are evaluated first-match-wins. An access decision compares
  the matched requirement with the caller's authorities.

Files:

- `wrappers.dfy`: `Option` and `Result`.
- `uuid_text.dfy`: the text form of a UUID, with `toString`/`fromString` and their round trip.
- `jwt_service.dfy`: the token service.
- `security_config.dfy`: the rule table, its builder, lookup, decision and the per-route outcomes.

The signing library is abstracted. A signed token records its claims and the
secret its HMAC was computed with. Checking the signature compares that secret
with the verifier's. The clock is a parameter `now`, in milliseconds. The two
secrets form a `Secrets` value supplied by the caller. Java exceptions become
`Result` failures, one error kind per exception. An empty role list, on which
`roles.get(0)` throws, is an issuing failure rather than a precondition.

## Model

| member | source | states |
|---|---|---|
| `JwtService.ToJavaInt` | src/main/java/io/asiam/gateway/services/JWTServiceAuthJWT.java:41 | the result is the Java `int` congruent to the input modulo 2^32, and equals the input when it fits |
| `JwtService.TtlMillis` | src/main/java/io/asiam/gateway/services/JWTServiceAuthJWT.java:41 | `expirationTime * 1000` as a Java `int`: always within the `int` range, and equal to the true product for every lifetime up to 2147483 s |
| `JwtService.TtlMillisExact` | src/main/java/io/asiam/gateway/services/JWTServiceAuthJWT.java:41-55 | the lifetimes are 900 s and 604800 s, and `expirationTime * 1000` gives 900000 and 604800000 ms with no `int` overflow |
| `JwtService.TtlMillisExactRange` | src/main/java/io/asiam/gateway/services/JWTServiceAuthJWT.java:41 | the `int` product is exact if and only if the lifetime is at most 2147483 s |
| `JwtService.TtlMillisWrapsAboveLimit` | src/main/java/io/asiam/gateway/services/JWTServiceAuthJWT.java:41 | one second more than that limit wraps to a negative lifetime |
| `JwtService.GetJwt` | src/main/java/io/asiam/gateway/services/JWTServiceAuthJWT.java:37-45 | fails exactly when the role list is empty; otherwise the token is signed with the given secret, subject = email, the issuer is the id's `toString` text and parses back to the id, role = first role, and expiry = now + ttl·1000 for any lifetime that fits |
| `JwtService.GetAccessToken` | src/main/java/io/asiam/gateway/services/JWTServiceAuthJWT.java:48-51 | signed with the access secret, expiring 900000 ms after `now` |
| `JwtService.GetRefreshToken` | src/main/java/io/asiam/gateway/services/JWTServiceAuthJWT.java:54-56 | signed with the refresh secret, expiring 604800000 ms after `now` |
| `JwtService.VerifyToken` | src/main/java/io/asiam/gateway/services/JWTServiceAuthJWT.java:58-73 | succeeds if and only if the token decodes, was signed with the secret, has not expired, its issuer is a UUID and it has a role claim; the payload is subject, parsed issuer and the one-element role list; undecodable, wrong-secret and expired tokens fail with their own error and no payload |
| `JwtService.VerifyAccessToken` | src/main/java/io/asiam/gateway/services/JWTServiceAuthJWT.java:76-78 | a payload is returned only for a token signed with the access secret, and it has exactly one role |
| `JwtService.VerifyRefreshToken` | src/main/java/io/asiam/gateway/services/JWTServiceAuthJWT.java:81-83 | a payload is returned only for a token signed with the refresh secret, and it has exactly one role |
| `JwtService.AccessRoundTrip` | src/main/java/io/asiam/gateway/services/JWTServiceAuthJWT.java:37-78 | up to its expiry, an issued access token verifies to the same email and id with roles = [first role] |
| `JwtService.RefreshRoundTrip` | src/main/java/io/asiam/gateway/services/JWTServiceAuthJWT.java:37-83 | the same round trip for refresh tokens over seven days |
| `JwtService.ExpiredAfterTtl` | src/main/java/io/asiam/gateway/services/JWTServiceAuthJWT.java:41-62 | after its lifetime an issued token fails verification as expired |
| `JwtService.KindIsolation` | src/main/java/io/asiam/gateway/services/JWTServiceAuthJWT.java:48-83 | with distinct secrets, the refresh verifier rejects access tokens and the access verifier rejects refresh tokens as wrongly signed |
| `UuidText.ToText` | src/main/java/io/asiam/gateway/services/JWTServiceAuthJWT.java:42 | `UUID.toString`: 36 characters, dashes at positions 8, 13, 18 and 23, and lower-case hexadecimal digits everywhere else |
| `UuidText.FromText` | src/main/java/io/asiam/gateway/services/JWTServiceAuthJWT.java:65 | `UUID.fromString` on the canonical form: accepted exactly when the text has 36 characters, the four dashes in place and a hexadecimal digit of either case everywhere else |
| `UuidText.FromTextToText` | src/main/java/io/asiam/gateway/services/JWTServiceAuthJWT.java:65 | `fromString(toString(u)) == u` for every UUID |
| `UuidText.ToTextFromText` | src/main/java/io/asiam/gateway/services/JWTServiceAuthJWT.java:42-65 | the other half of the inverse: a canonical lower-case text is exactly the `toString` of the UUID `fromString` returns for it |
| `UuidText.ToTextInjective` | src/main/java/io/asiam/gateway/services/JWTServiceAuthJWT.java:42 | distinct UUIDs are written as distinct issuers |
| `SecurityConfig.HttpSecurity.Authorize` | src/main/java/com/example/routingandfilteringgateway/config/SecurityConfig.java:43 | one registration appends exactly one rule at the end of the builder's list |
| `SecurityConfig.Configure` | src/main/java/com/example/routingandfilteringgateway/config/SecurityConfig.java:38-51 | appends the six rules of the table in order and sets the login filter to `/api/login` |
| `SecurityConfig.RuleMatches` | src/main/java/com/example/routingandfilteringgateway/config/SecurityConfig.java:43-48 | a rule registered with a method matches only that method; an exact pattern matches only its own path; a subtree pattern matches only paths that begin with its prefix |
| `SecurityConfig.Lookup` | src/main/java/com/example/routingandfilteringgateway/config/SecurityConfig.java:43-48 | no rule matches exactly when the result is None; otherwise the result is the requirement of a matching rule |
| `SecurityConfig.LookupFirstMatch` | src/main/java/com/example/routingandfilteringgateway/config/SecurityConfig.java:43-48 | the first matching rule in registration order decides |
| `SecurityConfig.SubtreePatternMatches` | src/main/java/com/example/routingandfilteringgateway/config/SecurityConfig.java:43 | `prefix/**` matches the prefix itself and exactly the paths beneath it |
| `SecurityConfig.Decide` | src/main/java/com/example/routingandfilteringgateway/config/SecurityConfig.java:43-48 | unmatched exactly when no rule matches; a public rule grants everyone; any other grant means the principal holds exactly the required authority; only an anonymous caller is refused as anonymous |
| `SecurityConfig.LookupRuleTable` | src/main/java/com/example/routingandfilteringgateway/config/SecurityConfig.java:43-48 | the table's lookup as a plain decision on method and path |
| `SecurityConfig.PublicRoutes` | src/main/java/com/example/routingandfilteringgateway/config/SecurityConfig.java:43-45 | `/api/login`, `/api/refreshToken`, `/api/core/tansiq` and all sub-paths are public for every method and every caller |
| `SecurityConfig.LoginUrlIsPublic` | src/main/java/com/example/routingandfilteringgateway/config/SecurityConfig.java:40-43 | the login filter's URL is covered by a public rule |
| `SecurityConfig.StudentFilesRule` | src/main/java/com/example/routingandfilteringgateway/config/SecurityConfig.java:46 | POST on `/api/core/studentFiles` needs `ROLE_ADMIN`; no rule matches other methods there |
| `SecurityConfig.AdminsRule` | src/main/java/com/example/routingandfilteringgateway/config/SecurityConfig.java:47 | GET on `/api/core/admins` and its sub-paths needs `ROLE_ADMIN`; no rule matches other methods there |
| `SecurityConfig.AdminsAccess` | src/main/java/com/example/routingandfilteringgateway/config/SecurityConfig.java:47 | on that area a GET is granted exactly to holders of `ROLE_ADMIN`; a `ROLE_STUDENT` principal and an anonymous caller are refused |
| `SecurityConfig.StudentsRule` | src/main/java/com/example/routingandfilteringgateway/config/SecurityConfig.java:48 | `/api/core/students` and its sub-paths need `ROLE_STUDENT` for every method |
| `SecurityConfig.StudentsAccess` | src/main/java/com/example/routingandfilteringgateway/config/SecurityConfig.java:48 | there access is granted exactly to holders of `ROLE_STUDENT`; a `ROLE_ADMIN`-only principal is refused, since authorities have no hierarchy |

## Left out

- HMAC signing, the header.payload.signature text, Base64/JSON encoding and the `alg` header check belong to the auth0 library. A token is a value holding its claims and its signing secret. Tampering is modelled as a token whose recorded secret differs from the verifier's.
- Expiry is kept in milliseconds, and a token is valid up to and including its expiry instant. The library's encoding of `exp` in whole seconds and its clock leeway are not modelled.
- The clock (`System.currentTimeMillis`) is the parameter `now`. The `long` addition `now + ttl·1000` is unbounded, because a real clock value is far below 2^63.
- Secret loading through `EnvironmentService`, `Dotenv` and `EncryptionAlgorithmService.getAlgorithm` is configuration I/O. The two secrets are a parameter. Their distinctness is a premise of `KindIsolation` only.
- UuidText.FromText: accepts only the canonical 36-character form with 32 hexadecimal digits. `UUID.fromString` also accepts non-canonical forms, for example groups with fewer digits or a `+` sign in a group. Every issuer the service writes is canonical.
- Java `null` values are not modelled: a null email, a null `id`, a null `roles` list, a null role element or a null token. On a null `id`, `toString` throws a `NullPointerException`, and so does `get(0)` on a null `roles` list.
- A `role` claim that is not a string is not represented: `Claims.role` holds a string or nothing. On such a claim `asString()` returns null and `List.of(null)` throws, which is the same outcome as the missing claim the model does represent.
- Tokens that lack the `exp`, `sub` or `iss` claim are not represented: every signed token in the model carries all three. The library accepts a correctly signed token without `exp` and never expires it. Without `iss`, `UUID.fromString(null)` throws a `NullPointerException`. A missing `role` claim is represented and fails verification.
- Logging of verification failures and concurrency are left out. They have no effect on the results.
- Credential checking is left out. This covers `configure(AuthenticationManagerBuilder)`, `UserDetailsService`, `PasswordEncoder` and `authenticationManagerBean`, which are an external store and hashing.
- CSRF disabling, the stateless session policy and filter registration (SecurityConfig.java lines 41-42 and 49-50) are left out. `JWTAuthenticationFilter` and `JWTAuthorizationFilter` are not part of this model. So the bearer-header parsing, the link from a verified payload to the request principal, and the HTTP status of each denial are not modelled. The principal is a parameter holding a set of authorities.
- Spring's `AntPathMatcher` is reduced to the two pattern forms the table uses: an exact path, and `prefix/**`. Requests that no rule matches get the decision `Unmatched`. Spring's default handling of them is not modelled.
- `CORSConfig` only reads an origin from the environment and is not part of this model.
