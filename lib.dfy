/** The shared token helper (package `lib`): an Authenticator holding a key
    and a signing method, with defaults for both, that issues tokens without
    an issuer claim and reads users back from them. */
module Lib {
  import opened Results
  import opened Jwt
  import Entities

  const DefaultJWTKey: string := "secret"
  const DefaultJWTSigningMethod: string := "HS256"

  /** Both settings are non-empty, as NewAuthenticator leaves them. */
  predicate Configured(a: Authenticator) {
    a.jwtKey != "" && a.jwtSigningMethod != ""
  }

  /** The authenticator NewAuthenticator builds: an empty argument stands
      for its default, a non-empty one is kept. */
  function WithDefaults(key: string, signingMethod: string): (a: Authenticator)
    ensures Configured(a)
    ensures key != "" ==> a.jwtKey == key
    ensures key == "" ==> a.jwtKey == DefaultJWTKey
    ensures signingMethod != "" ==> a.jwtSigningMethod == signingMethod
    ensures signingMethod == "" ==> a.jwtSigningMethod == DefaultJWTSigningMethod
  {
    Authenticator(
      if key == "" then DefaultJWTKey else key,
      if signingMethod == "" then DefaultJWTSigningMethod else signingMethod)
  }

  /** `NewAuthenticator`: replaces an empty key or method by its default. */
  method NewAuthenticator(key: string, signingMethod: string) returns (a: Authenticator)
    ensures a == WithDefaults(key, signingMethod)
    ensures Configured(a)
  {
    var k, m := key, signingMethod;
    if k == "" {
      k := DefaultJWTKey;
    }
    if m == "" {
      m := DefaultJWTSigningMethod;
    }
    a := Authenticator(k, m);
  }

  /** Idempotence: rebuilding an authenticator from its own settings gives
      it back; only configured authenticators are fixed points. */
  lemma WithDefaultsIdempotent(a: Authenticator)
    ensures WithDefaults(a.jwtKey, a.jwtSigningMethod) == a <==> Configured(a)
  {
  }

  /** The claims CreateToken writes for `u`: no issuer. */
  function TokenClaims(u: Entities.User, env: Env): Claims {
    map[
      "username" := Str(u.username),
      "email" := Str(u.email),
      "display_name" := Str(u.displayName),
      "exp" := Number(env.nowNanos + TokenLifetimeNanos)]
  }

  datatype Authenticator = Authenticator(jwtKey: string, jwtSigningMethod: string) {

    /** Issues a token for `user`: the claims map is filled one claim at a
        time, then signed with the authenticator's method and key. */
    method CreateToken(user: Option<Entities.User>, env: Env) returns (r: Result<string>)
      ensures user.None? ==> r == Err(Entities.NilUserError)
      ensures user.Some? ==> r == env.jwt.sign(TokenClaims(user.value, env), jwtSigningMethod, jwtKey)
    {
      if user.None? {
        return Err(Entities.NilUserError);
      }
      var u := user.value;
      var claims: Claims := map[];
      claims := claims["username" := Str(u.username)];
      claims := claims["email" := Str(u.email)];
      claims := claims["display_name" := Str(u.displayName)];
      claims := claims["exp" := Number(env.nowNanos + TokenLifetimeNanos)];
      r := env.jwt.sign(claims, jwtSigningMethod, jwtKey);
    }

    /** Checks a token and rebuilds its user. A parse error is returned as it
        is, before any claim is looked at. */
    function CreateUserFromToken(token: string, jwt: Library): (r: Result<Entities.User>)
      ensures jwt.parse(token, jwtKey).Err? ==> r == Err(jwt.parse(token, jwtKey).msg)
      ensures jwt.parse(token, jwtKey).Ok? ==> r == GetUserFromRawToken(jwt.parse(token, jwtKey).value)
      ensures Lawful(jwt) && token == "" ==> r.Err?
    {
      match jwt.parse(token, jwtKey)
      case Err(e) => Err(e)
      case Ok(claims) => GetUserFromRawToken(claims)
    }
  }

  /** Rebuilds a user from claims: username, then email, then display_name
      must each hold a string; the first that does not decides the error. */
  function GetUserFromRawToken(claims: Claims): (r: Result<Entities.User>)
    ensures r.Ok? <==> IsString(claims, "username") && IsString(claims, "email") && IsString(claims, "display_name")
    ensures r.Ok? ==> r.value == Entities.User(claims["username"].s, claims["email"].s, claims["display_name"].s)
    ensures !IsString(claims, "username") ==> r == Err(CastError("username"))
    ensures IsString(claims, "username") && !IsString(claims, "email") ==> r == Err(CastError("email"))
    ensures IsString(claims, "username") && IsString(claims, "email") && !IsString(claims, "display_name") ==>
      r == Err(CastError("display_name"))
  {
    match StringClaim(claims, "username")
    case None => Err(CastError("username"))
    case Some(username) =>
      match StringClaim(claims, "email")
      case None => Err(CastError("email"))
      case Some(email) =>
        match StringClaim(claims, "display_name")
        case None => Err(CastError("display_name"))
        case Some(displayName) => Ok(Entities.User(username, email, displayName))
  }

  /** Unlike the controllers' tokens, these carry no issuer claim. */
  lemma NoIssuerClaim(u: Entities.User, env: Env)
    ensures "iss" !in TokenClaims(u, env)
    ensures TokenClaims(u, env).Keys == {"username", "email", "display_name", "exp"}
  {
  }

  /** Round trip: under the codec law, a token CreateToken signed for `u`
      reads back as exactly `u`. */
  lemma CreateUserFromCreatedToken(a: Authenticator, u: Entities.User, env: Env)
    requires Lawful(env.jwt)
    requires env.jwt.sign(TokenClaims(u, env), a.jwtSigningMethod, a.jwtKey).Ok?
    ensures a.CreateUserFromToken(env.jwt.sign(TokenClaims(u, env), a.jwtSigningMethod, a.jwtKey).value, env.jwt) == Ok(u)
  {
  }
}
