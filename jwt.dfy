/** The JWT library the core calls (jwt.New, Token.SignedString, jwt.Parse),
    the claims map it carries, and the process environment (host name and
    clock) that token creation reads. The JWT library
    (github.com/dgrijalva/jwt-go) is an external dependency, so it is a
    parameter: a pair of functions, together with the one law the core relies
    on, `Lawful`. */
module Jwt {
  import opened Results

  /** A claim value as `map[string]interface{}` holds it: only `Str` passes
      the `.(string)` type assertion the core applies. */
  datatype ClaimValue = Str(s: string) | Number(n: int) | Bool(b: bool) | Null

  type Claims = map<string, ClaimValue>

  /** `sign(claims, signingMethod, key)` models
      `jwt.New(jwt.GetSigningMethod(signingMethod))` with those claims followed by
      `SignedString([]byte(key))`; `parse(token, key)` models `jwt.Parse` with a
      key function that always yields `[]byte(key)`, giving the token's claims. */
  datatype Library = Library(
    sign: (Claims, string, string) -> Result<string>,
    parse: (string, string) -> Result<Claims>)

  /** Host name and wall clock (`os.Hostname()`, `time.Now()` as Unix
      nanoseconds), the only other inputs of token creation. */
  datatype Env = Env(jwt: Library, hostname: string, nowNanos: int)

  /** Tokens expire one hour after issue: `time.Second * 3600` in nanoseconds,
      as `UnixNano` counts. */
  const TokenLifetimeNanos: int := 3600 * 1000000000

  /** The claim `name` is present and holds a string. */
  predicate IsString(claims: Claims, name: string) {
    name in claims && claims[name].Str?
  }

  /** `claims[name].(string)`: the string, or None when the assertion fails
      (absent key or a non-string value). */
  function StringClaim(claims: Claims, name: string): (r: Option<string>)
    ensures r.Some? <==> IsString(claims, name)
    ensures r.Some? ==> claims[name] == Str(r.value)
  {
    if IsString(claims, name) then Some(claims[name].s) else None
  }

  /** The message of a failed `.(string)` assertion on claim `name`. */
  function CastError(name: string): string {
    "token " + name + " claim failed cast to string"
  }

  /** Every string claim of `signed` comes back unchanged in `parsed`. (Number
      claims are not required to: the JSON encoding turns `exp` into a float.) */
  ghost predicate KeepsStringClaims(signed: Claims, parsed: Claims) {
    forall name :: IsString(signed, name) ==> name in parsed && parsed[name] == signed[name]
  }

  /** The codec law: a token that signing produced parses, with the same key,
      to claims that keep every string claim; and the empty string is never a
      token. A library whose signing always fails satisfies it, so the law is
      consistent. The law covers every claims map, but jwt-go's Parse also
      rejects a token whose `exp` has passed, so jwt-go meets it only for claims
      like the ones createToken writes, whose `exp` counts nanoseconds where
      seconds are read and so lies far in the future. */
  ghost predicate Lawful(lib: Library) {
    && (forall claims, signingMethod, key | lib.sign(claims, signingMethod, key).Ok? ::
          lib.parse(lib.sign(claims, signingMethod, key).value, key).Ok? &&
          KeepsStringClaims(claims, lib.parse(lib.sign(claims, signingMethod, key).value, key).value))
    && (forall key :: lib.parse("", key).Err?)
  }

}
