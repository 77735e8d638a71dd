# Token lifecycle and authentication controllers of clawio/authentication

This project models the authentication core of the clawio authentication
service in Dafny. It covers three things:

- the two authentication controllers, in-memory (`memory` package) and SQL-backed
  (`authenticationcontroller` package). Each one checks credentials, issues a
  signed JWT carrying the user's username, email and display name, verifies such
  a token back into a user, and accepts every `Invalidate` call, since revocation
  is not implemented;
- the shared `lib` helper: an `Authenticator` with default key `"secret"` and
  default method `"HS256"`, which issues tokens with no issuer claim;
- service construction (`service.New`): three nil checks in a fixed order, then
  dispatch on the controller type `"simple"` or `"memory"`.

Modules follow the source: `Results` (Go's `(value, error)` and nil), `Entities`
(the external user entity), `Jwt` (the JWT library and the claims map), `Memory`,
`Simple`, `Lib`, `Controllers` (the three-method controller interface) and
`Service`.

The JWT library (github.com/dgrijalva/jwt-go) is an external dependency, so it is a parameter, `Jwt.Library`. It is a pair
of functions: `sign(claims, method, key)` and `parse(token, key)`. The round-trip
properties assume the law `Jwt.Lawful`:

- parsing a token that `sign` produced, with the same key, succeeds and gives
  back every string claim unchanged;
- `""` never parses.

A library whose signing always fails satisfies this law, so the hypothesis is
consistent. The law does not ask for equality of whole claim maps, because JSON
turns the integer `exp` claim into a float. The law covers every claims map,
while jwt-go's `Parse` also rejects a token whose `exp` has passed. jwt-go
therefore meets the law only for claims like the ones createToken writes: their
`exp` counts nanoseconds where seconds are read, which puts it far in the future.

The other external inputs are parameters too: `os.Hostname()` and `time.Now()`
(as Unix nanoseconds) are fields of `Jwt.Env`. The SQL database appears only as
the controller's `findByCredentials` lookup, a function that may fail.

Neither a controller nor an `Authenticator` changes its fields after it is built,
so both are datatypes. Only these parts are imperative:

- the in-memory `Authenticate` loop: a method with a loop invariant, specified by
  the recursive function `FirstMatch`;
- each `createToken`, which fills the claims map one assignment at a time: a
  method whose result is tied to the function `TokenClaims`;
- `NewAuthenticator`, which reassigns its arguments: a method tied to
  `WithDefaults`.

Facts about the code that the model keeps:

- Errors are returned unchanged. There is no translation into "bad credentials"
  or "invalid token" outcomes. `Authenticate` returns the lookup's error or
  "user not found", and `Verify` returns the parser's error.
- memory.go, simple.go and lib.go do no expiry check; jwt.Parse does. An unknown
  signing-method name is not rejected at construction time.
- `service.go` calls a `simple` package and a `memory.Options{Users, Authenticator}`
  that do not match memory.go's `Options`. The "simple" constructor is therefore a
  parameter that may fail. The memory controller is built from the users and the
  authenticator's key and method.

## Model

| member | source | states |
|---|---|---|
| Jwt.StringClaim | authenticationcontroller/memory/memory.go:97-100 | the `.(string)` assertion succeeds exactly when the claim is present and holds a string, and yields that string |
| Memory.New | authenticationcontroller/memory/memory.go:40-46 | the controller holds the options' users, key and signing method as given |
| Memory.FirstMatch | authenticationcontroller/memory/memory.go:48-55 | gives the index of a user whose username and password both match, with no matching user before it; None exactly when no user matches both |
| Memory.Controller.Authenticate | authenticationcontroller/memory/memory.go:48-55 | the first matching user in list order gets the token createToken signs for it (later matches never count); with no match the result is the error "user not found" |
| Memory.Controller.Verify | authenticationcontroller/memory/memory.go:58-64 | a parse error is returned unchanged, without claim extraction; otherwise the result is claim extraction's; the empty token always fails under the codec law |
| Memory.Controller.Invalidate | authenticationcontroller/memory/memory.go:66-68 | succeeds for every token, "" included |
| Memory.Controller.CreateToken | authenticationcontroller/memory/memory.go:76-88 | a nil user fails with "user is nil" and no token; otherwise the result is the signing of the username, email, display_name, iss and exp claims with the controller's method and key |
| Memory.CreateUserFromToken | authenticationcontroller/memory/memory.go:96-117 | succeeds exactly when username, email and display_name are all string claims, giving a User with those three values and an empty password; otherwise the first non-string claim in that order decides the error |
| Memory.ClaimsReadBack | authenticationcontroller/memory/memory.go:82-116 | claim extraction applied to the claims createToken writes gives back the identity with an empty password |
| Memory.VerifyCreatedToken | authenticationcontroller/memory/memory_test.go:118-125 | under the codec law, Verify of any token the controller signed for a user gives that user's username, email and display name |
| Memory.VerifyAuthenticated | authenticationcontroller/memory/memory.go:48-64 | under the codec law, the token of a successful login verifies to the username that logged in, with the matched entry's email and display name |
| Memory.WrongPasswordRejected | authenticationcontroller/memory/memory.go:49-54 | when every entry with the username has another password, no entry matches, so login fails with "user not found" |
| Memory.TokenIgnoresPassword | authenticationcontroller/memory/memory.go:82-86 | users that differ only in password get identical claims: the password never enters a token |
| Simple.Controller.Authenticate | authenticationcontroller/simple.go:46-52 | a failed lookup's error is returned unchanged with no token; a found record gets the token createToken signs for it |
| Simple.Controller.Verify | authenticationcontroller/simple.go:55-61 | a parse error is returned unchanged, without claim extraction; otherwise the result is claim extraction's; the empty token always fails under the codec law |
| Simple.Controller.Invalidate | authenticationcontroller/simple.go:63-65 | succeeds for every token |
| Simple.Controller.CreateToken | authenticationcontroller/simple.go:90-102 | a nil user fails with "user is nil"; otherwise the result is the signing of the username, email, display_name, iss and exp claims with the controller's method and key |
| Simple.CreateUserFromToken | authenticationcontroller/simple.go:110-131 | succeeds exactly when the three claims are strings, giving a userRecord with exactly those values and an empty password; otherwise the first non-string claim in the order username, email, display_name decides the error |
| Simple.VerifyCreatedToken | authenticationcontroller/simple_test.go:152-159 | under the codec law, Verify of any token the controller signed for a user gives that user's username, email and display name |
| Simple.VerifyAuthenticated | authenticationcontroller/simple.go:46-61 | under the codec law, a successful login's token verifies to the record the lookup found, and so to the username that logged in when the lookup is exact |
| Simple.VerifyIgnoresStore | authenticationcontroller/simple.go:55-61 | verification never consults the database: controllers with the same key verify every token alike |
| Lib.WithDefaults | lib/lib.go:18-26 | an empty key becomes "secret", an empty method becomes "HS256", and non-empty arguments are kept, so neither field is ever empty |
| Lib.NewAuthenticator | lib/lib.go:18-26 | builds the authenticator WithDefaults describes, with both fields non-empty |
| Lib.WithDefaultsIdempotent | lib/lib.go:18-26 | rebuilding an authenticator from its own settings gives it back exactly when both settings are non-empty, as they are for every authenticator NewAuthenticator builds |
| Lib.Authenticator.CreateToken | lib/lib.go:28-38 | a nil user fails with "user is nil"; otherwise the result is the signing of the username, email, display_name and exp claims |
| Lib.NoIssuerClaim | lib/lib.go:33-36 | the helper's tokens carry exactly username, email, display_name and exp, with no iss claim, unlike the controllers' tokens |
| Lib.Authenticator.CreateUserFromToken | lib/lib.go:40-46 | a parse error is returned unchanged, without extraction; otherwise the result is extraction's; "" always fails under the codec law |
| Lib.GetUserFromRawToken | lib/lib.go:48-68 | succeeds exactly when the three claims are strings, giving a user with exactly those values; otherwise the first non-string claim in the order username, email, display_name decides the error |
| Lib.CreateUserFromCreatedToken | lib/lib_test.go:49-54 | under the codec law, reading back a token CreateToken signed for a user gives exactly that user |
| Controllers.AuthenticationController.Authenticate | authenticationcontroller/authenticationcontroller.go:8 | each controller's error cases hold; under the codec law and an exact store, a token from a successful login verifies to the username that logged in |
| Controllers.AuthenticationController.Verify | authenticationcontroller/authenticationcontroller.go:9 | either controller returns the parser's error unchanged and rejects "" under the codec law |
| Controllers.AuthenticationController.Invalidate | authenticationcontroller/authenticationcontroller.go:10 | always succeeds, for either controller |
| Service.GetSimple | service/service.go:84-92 | the simple constructor receives the configured driver and DSN and a configured authenticator whose key and method are the general section's, or "secret" and "HS256" when those are empty; its result is returned as is |
| Service.GetMemory | service/service.go:93-100 | the memory controller holds the configured users; its key and method are the general section's, or "secret" and "HS256" when those are empty |
| Service.New | service/service.go:53-82 | the checks come in a fixed order (config nil, then the controller section nil, then the general section nil), and the first failing one decides the message; a success holds exactly the given config and has type "simple" or "memory" |
| Service.UnknownKindNamed | service/service.go:74-75 | a type other than "simple" and "memory" fails with a message that contains that type |
| Service.MemoryAlwaysSucceeds | service/service.go:72-73 | type "memory" with both sections present always succeeds, with the memory controller GetMemory builds |
| Service.SimplePropagates | service/service.go:66-70 | type "simple" returns the constructor's error unchanged and no service, and otherwise wraps the constructor's controller |

## Left out

- JWT signing and parsing internals (HMAC, segment encoding, signature checks, `exp` validation inside `jwt.Parse`) are left out. They belong to a foreign library, so they are the parameter `Jwt.Library`, constrained only by `Jwt.Lawful`. Tamper detection is not modelled.
- Wall-clock time and the host name are the parameters `Env.nowNanos` and `Env.hostname`. `exp` is written as now + 3600 s in nanoseconds. No expiry check is modelled, and the gap between nanoseconds and the seconds the library compares is not modelled.
- `jwt.GetSigningMethod` returning nil for an unknown method name is left out. The signing method is passed by name to `sign`, whose failures are returned unchanged.
- `NewSimpleAuthenticationController` (opening the database with gorm, `AutoMigrate`) and the SQL behind `findByCredentials` are left out because they are database I/O. The lookup is the function field `Simple.Controller.findByCredentials`, and a controller value is built directly.
- `Simple.VerifyAuthenticated`: "same username" is proved only under `ExactLookup`, an assumption that the query returns only rows equal to its arguments. This holds for case-sensitive comparison, but a case-insensitive collation can return another spelling.
- `Memory.Controller.Authenticate`: nil entries in the user list are not modelled; the source would dereference them and panic. A nil options pointer in `memory.New` is left out for the same reason.
- `service.go`'s `Prefix`, `Middleware`, `Endpoints`, the HTTP handlers (`authenticate.go`, `verify.go`), Prometheus metrics and the `Server` section of the configuration are left out. They are transport glue.
- The `simple` package that `service.go` imports is not modelled. Its constructor is the parameter `Service.SimpleConstructor`, which may fail.
- The mock controller in `authenticationcontroller/mock` is left out because it is a test double with no logic.
- Concurrency is left out: every operation is a read-only or pure computation.
