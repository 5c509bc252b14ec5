# JWT request authentication gate — Dafny model

This project models the authentication gate of a small "todo" backend: the
servlet filter `JwtAuthenticationFilter`, which runs once per request, reads the
`Authorization` header, validates a bearer token, and either installs an
authenticated principal into the security context and lets the filter chain
run, or writes a JSON error response and stops the request. It also models the two
value objects the filter builds: `AuthUser`, the user identity with its single
role-named authority, and `JwtAuthenticationToken`, the Spring Security
authentication that wraps it.

Files, one module each:

- `wrappers.dfy` (`Wrappers`): `Option`, for Java references that may be null
  and for calls that may throw.
- `java_long.dfy` (`JavaLong`): the 64-bit `long` range, `Long.valueOf`/`parseLong`
  on ASCII strings, `Long.toString`, and the round trip between them.
- `auth_user.dfy` (`Dto`): `Role`, `GrantedAuthority`, `AuthUser` and its constructor.
- `jwt_authentication_token.dfy` (`JwtToken`): `JwtAuthenticationToken`, its
  constructor, `getCredentials` and `getPrincipal`.
- `jwt_authentication_filter.dfy` (`Filter`): the filter as a class whose fields
  are the per-request state it acts on: the security context, the response's
  status, content type and body, and the number of chain invocations. Its methods
  `DoFilterInternal`, `ProcessAuthentication`, `SetAuthentication` and
  `SendErrorResponse` follow the Java methods step by step. Each is proved
  against the decision function `Decide` (with `Authenticate` and `PrincipalOf`
  beneath it), and the lemmas state the filter's properties about `Decide`.

Collaborators the filter calls but that are not part of this model are fields
of the `Collaborators` value given to the filter's constructor:

- `JwtUtil.substringToken` is a function from header to token.
- `JwtUtil.extractClaims` is a function from token to a `ValidationOutcome`.
  That outcome is `Valid(claims)` or the `catch` arm the thrown exception reaches:
  `Expired`, `Malformed`, `Unsupported`, `SecurityFailure` or `Other`.
- `Long.valueOf` on a non-null string is a function returning `Option<Long>`.
  The lemma that needs its exact behaviour requires it to agree with
  `JavaLong.ParseLong` on ASCII strings.
- `UserRole.of` is a function returning `Option<Role>`.

The ambient `SecurityContextHolder` becomes the explicit field `context`.

A role claim that `UserRole.of` rejects, or a subject that `Long.valueOf`
rejects, is parsed inside the `try` block of `processAuthentication`. It therefore
reaches the generic `catch (Exception e)` and yields 500 with the generic
message, not 400.

## Model

| member | source | states |
|---|---|---|
| Filter.JwtAuthenticationFilter.DoFilterInternal | src/main/java/org/example/expert/config/JwtAuthenticationFilter.java:36-59 | The new context, chain count and response are exactly those `Decide` gives for the header and the old context. The chain count grows by one or zero. The response fields are unchanged unless an error is written. |
| Filter.JwtAuthenticationFilter.ProcessAuthentication | src/main/java/org/example/expert/config/JwtAuthenticationFilter.java:62-83 | Returns true exactly when `Authenticate` lets the chain run. Context and response follow the outcome table. |
| Filter.JwtAuthenticationFilter.SetAuthentication | src/main/java/org/example/expert/config/JwtAuthenticationFilter.java:86-100 | Fails exactly when one of its parsing steps throws; then the context is untouched. Otherwise the context holds a new token for the user built from the claims. |
| Filter.JwtAuthenticationFilter.SendErrorResponse | src/main/java/org/example/expert/config/JwtAuthenticationFilter.java:102-110 | Sets the numeric status, the JSON content type and the three-entry error map. |
| Filter.JwtAuthenticationFilter.constructor | src/main/java/org/example/expert/config/JwtAuthenticationFilter.java:29-33 | Stores the injected collaborators; the request state starts empty. |
| Filter.Decide | src/main/java/org/example/expert/config/JwtAuthenticationFilter.java:45-82 | On every request the chain runs exactly when no error is written. Every error is 401, 400 or 500 with its fixed message. The context changes only from empty to an authenticated token with one role-named authority. |
| Filter.PassThroughWithoutBearer | src/main/java/org/example/expert/config/JwtAuthenticationFilter.java:42-48 | With no header, or one not starting with exactly "Bearer ": the chain runs, nothing is written, the context is kept. |
| Filter.ValidTokenInstallsPrincipal | src/main/java/org/example/expert/config/JwtAuthenticationFilter.java:65-71 | With a valid token and an empty context, the chain runs if and only if the subject is non-null and `Long.valueOf` accepts it, the email is a string or null, and the role is accepted. Then the installed token is authenticated, has null credentials and carries id, email and role from the claims. Otherwise the request fails with 500 and the context stays empty. |
| Filter.ExistingAuthenticationKept | src/main/java/org/example/expert/config/JwtAuthenticationFilter.java:68-71 | With a valid token and a context that already holds an authentication, nothing changes and the chain runs, whatever the claims contain. |
| Filter.ExpiredTokenRejected | src/main/java/org/example/expert/config/JwtAuthenticationFilter.java:72-74 | Expired: 401 with "인증이 필요합니다.", no chain, context kept. |
| Filter.InvalidTokenRejected | src/main/java/org/example/expert/config/JwtAuthenticationFilter.java:75-77 | Malformed, unsupported or security failure: 400 with the same message, no chain, context kept. |
| Filter.InternalErrorExactly | src/main/java/org/example/expert/config/JwtAuthenticationFilter.java:78-92 | 500 is written if and only if validation throws an unclassified exception, or the context is empty and building the user throws. It carries the generic message, and the context is not written. |
| Filter.ContextIdempotent | src/main/java/org/example/expert/config/JwtAuthenticationFilter.java:68-69 | Running the filter a second time on the same request leaves the context as the first run left it. |
| Filter.IssuedTokenAuthenticates | src/main/java/org/example/expert/config/JwtAuthenticationFilter.java:86-99 | A token whose subject is `Long.toString(id)` and whose role claim is the role's name installs exactly `AuthUser(id, email, role)`. |
| Filter.ErrorBodyShape | src/main/java/org/example/expert/config/JwtAuthenticationFilter.java:103-108 | The error map has exactly the keys status, code and message. `code` is the numeric status, `status` its enum name. Two error maps are equal exactly when status and message are. |
| JavaLong.ParseLong | src/main/java/org/example/expert/config/JwtAuthenticationFilter.java:88 | A parsed subject is non-empty, has an optional sign then only digits, and is negative only after a '-'. Its value, and which strings it accepts, are stated by `ParseLongSigned`, `OverflowRejected` and `ParseLongCanonical`. |
| JavaLong.Digits | src/main/java/org/example/expert/config/JwtAuthenticationFilter.java:88 | The decimal form of a natural number is non-empty, all digits, with no leading zero. |
| JavaLong.ToString | src/main/java/org/example/expert/config/JwtAuthenticationFilter.java:88 | The decimal form of a long is a non-empty ASCII string. |
| JavaLong.MagnitudeOfDigits | src/main/java/org/example/expert/config/JwtAuthenticationFilter.java:88 | Reading the digits of n gives n back. |
| JavaLong.ParseLongRoundTrip | src/main/java/org/example/expert/config/JwtAuthenticationFilter.java:88 | `Long.valueOf(Long.toString(n)) == n` for every long, including the minimum value. |
| JavaLong.ParseLongSigned | src/main/java/org/example/expert/config/JwtAuthenticationFilter.java:88 | Every string of an optional sign and at least one digit is read as its signed value when that fits in 64 bits, and rejected when it does not. |
| JavaLong.OverflowRejected | src/main/java/org/example/expert/config/JwtAuthenticationFilter.java:88 | The decimal form of a magnitude above `Long.MAX_VALUE` (or, after a '-', above 2^63) is rejected. |
| JavaLong.DigitsOfMagnitude | src/main/java/org/example/expert/config/JwtAuthenticationFilter.java:88 | A digit string without leading zeros is the decimal form of its own value. |
| JavaLong.StripZerosMagnitude | src/main/java/org/example/expert/config/JwtAuthenticationFilter.java:88 | Dropping leading zeros keeps the value, and gives the decimal form of that value. |
| JavaLong.ParseLongCanonical | src/main/java/org/example/expert/config/JwtAuthenticationFilter.java:88 | Converse of the round trip: a string read as n is `Long.toString(n)` once a leading '+', leading zeros and the sign of a zero are dropped. |
| JavaLong.LeadingZeroIgnored | src/main/java/org/example/expert/config/JwtAuthenticationFilter.java:88 | A leading zero does not change the parsed subject ("007" and "7" name the same user). |
| Dto.NewAuthUser | src/main/java/org/example/expert/domain/common/dto/AuthUser.java:19-24 | The getters return the constructor's arguments. The authorities are exactly one authority, named `userRole.name()`. |
| Dto.AuthUserRoundTrip | src/main/java/org/example/expert/domain/common/dto/AuthUser.java:14-23 | A constructed user is rebuilt from its getters. |
| Dto.NewAuthUserInjective | src/main/java/org/example/expert/domain/common/dto/AuthUser.java:19-22 | Two users are equal exactly when they were built from equal arguments. |
| JwtToken.NewJwtAuthenticationToken | src/main/java/org/example/expert/config/JwtAuthenticationToken.java:11-15 | The new token is authenticated, and its authorities are the user's. Its principal is the given user. |
| JwtToken.TokenOfAuthUser | src/main/java/org/example/expert/config/JwtAuthenticationToken.java:11-27 | A token built over a fresh user is authenticated. It has null credentials, that user as principal, and the single role-named authority. |
| JwtToken.TokenRoundTrip | src/main/java/org/example/expert/config/JwtAuthenticationToken.java:8-15 | A constructed token is exactly the token built from its principal. |

## Left out

- JWT parsing, signature checking and expiry evaluation (`JwtUtil`) are not part of this model. The filter sees only their classified outcome.
- Which jjwt exception reaches which `catch` arm is not fixed either. The `SecurityException` of the 400 arm is not imported, so it names `java.lang.SecurityException`. Whether a signature failure lands in the 400 or the 500 arm depends on the jjwt version.
- `UserRole.of` and the `UserRole` enum are not part of this model. A role is represented by its `name()`, and the parser is any partial function.
- The typed claim lookup `claims.get(name, String.class)` for `email` and `userRole` is modelled after jjwt. A missing claim reads as null; a claim of another JSON type throws, which ends in the 500 arm.
- `claims.getSubject()` is taken as the possibly null string the validator hands over. It does not throw here. How jjwt turns a non-string `sub` into that string, or rejects it while building the claims, is part of `extractClaims` and not of this model.
- JavaLong.ParseLong: accepts only ASCII digits. `Long.valueOf` also accepts the other Unicode decimal digits, so the filter takes the parser as a parameter and only `IssuedTokenAuthenticates` ties it to this model, on ASCII strings.
- Jackson serialisation and the servlet writer are left out, because they are I/O. The body is the map the filter fills, not its JSON text. An `IOException` from the writer is not modelled.
- Logging is left out, as observability only. This includes an exception thrown while the 401 arm reads the expired token's subject for its log line.
- An exception thrown by `substringToken` is not modelled. It is called outside the `try` and would leave the filter.
- What the downstream chain does is left out. It is counted, not run, so its own effects on the context or the response are not modelled.
- The ambient, thread-scoped `SecurityContextHolder` is one explicit field, and the thread scoping is ignored.
- The request URI is used only in log lines, so it is not an input.
- `AuthUser`'s boxed `Long id` is never null here: the filter always passes a parsed value.
- `AuthUser` fields being final is captured by `AuthUser` being an immutable datatype; there is no member for it.
- `JwtAuthenticationToken` is a value whose authenticated flag is true when it is built. A later `setAuthenticated(false)` by other code is not modelled.
- The query repositories, DTOs, configuration binding (`JwtSecurityProperties`, `PropertiesConfig`, whose allow-list the filter never reads) and test scaffolding are not part of this model.
