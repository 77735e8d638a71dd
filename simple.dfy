/** The SQL-backed authentication controller (package
    `authenticationcontroller`): the same contract as the in-memory one, with
    the credential lookup done by a database query. */
module Simple {
  import opened Results
  import opened Jwt
  import Entities

  /** A row of the `users` table. */
  datatype UserRecord = UserRecord(username: string, email: string, displayName: string, password: string) {

    /** The record as the `entities.User` getters show it: no password. */
    function Identity(): Entities.User {
      Entities.User(username, email, displayName)
    }
  }

  /** `findByCredentials(username, password)`: the row-lookup query
      `username=? AND password=?`; any query error, "record not found"
      included, is an `Err`. */
  type Lookup = (string, string) -> Result<UserRecord>

  /** The claims createToken writes for `u`. */
  function TokenClaims(u: Entities.User, env: Env): Claims {
    map[
      "username" := Str(u.username),
      "email" := Str(u.email),
      "display_name" := Str(u.displayName),
      "iss" := Str(env.hostname),
      "exp" := Number(env.nowNanos + TokenLifetimeNanos)]
  }

  /** The controller: driver name and DSN, the opened database (seen only
      through its lookup) and the signing configuration. */
  datatype Controller = Controller(
    driver: string, dsn: string, findByCredentials: Lookup,
    jwtKey: string, jwtSigningMethod: string)
  {
    /** The database returns only rows equal to the query's arguments. This holds
        for case-sensitive comparison (sqlite's default); a case-insensitive
        collation breaks it. */
    ghost predicate ExactLookup() {
      forall username, password | findByCredentials(username, password).Ok? ::
        findByCredentials(username, password).value.username == username &&
        findByCredentials(username, password).value.password == password
    }

    /** Logs in: a failed lookup is returned unchanged; a found record gets a
        token. */
    method Authenticate(username: string, password: string, env: Env) returns (r: Result<string>)
      ensures findByCredentials(username, password).Err? ==>
        r == Err(findByCredentials(username, password).msg)
      ensures findByCredentials(username, password).Ok? ==>
        r == env.jwt.sign(TokenClaims(findByCredentials(username, password).value.Identity(), env), jwtSigningMethod, jwtKey)
    {
      var rec := findByCredentials(username, password);
      if rec.Err? {
        return Err(rec.msg);
      }
      r := CreateToken(Some(rec.value.Identity()), env);
    }

    /** Checks a token and rebuilds its user from the claims. A parse error
        is returned as it is, before any claim is looked at. */
    function Verify(token: string, jwt: Library): (r: Result<UserRecord>)
      ensures jwt.parse(token, jwtKey).Err? ==> r == Err(jwt.parse(token, jwtKey).msg)
      ensures jwt.parse(token, jwtKey).Ok? ==> r == CreateUserFromToken(jwt.parse(token, jwtKey).value)
      ensures Lawful(jwt) && token == "" ==> r.Err?
    {
      match jwt.parse(token, jwtKey)
      case Err(e) => Err(e)
      case Ok(claims) => CreateUserFromToken(claims)
    }

    /** Token revocation is not implemented: every token is accepted. */
    function Invalidate(token: string): (r: Outcome)
      ensures r == Pass
    {
      Pass
    }

    /** Issues a token for `user`: the claims map is filled one claim at a
        time, then signed with the controller's method and key. */
    method CreateToken(user: Option<Entities.User>, env: Env) returns (r: Result<string>)
      ensures user.None? ==> r == Err(Entities.NilUserError)
      ensures user.Some? ==> r == env.jwt.sign(TokenClaims(user.value, env), jwtSigningMethod, jwtKey)
    {
      if user.None? {
        return Err(Entities.NilUserError);
      }
      var u := user.value;
      var claims: Claims := map[];
      claims := claims["username" := Str(u.username)];
      claims := claims["email" := Str(u.email)];
      claims := claims["display_name" := Str(u.displayName)];
      claims := claims["iss" := Str(env.hostname)];
      claims := claims["exp" := Number(env.nowNanos + TokenLifetimeNanos)];
      r := env.jwt.sign(claims, jwtSigningMethod, jwtKey);
    }
  }

  /** Rebuilds a record from claims: username, then email, then display_name
      must each hold a string; the first that does not decides the error.
      The rebuilt record has an empty password. */
  function CreateUserFromToken(claims: Claims): (r: Result<UserRecord>)
    ensures r.Ok? <==> IsString(claims, "username") && IsString(claims, "email") && IsString(claims, "display_name")
    ensures r.Ok? ==> r.value == UserRecord(claims["username"].s, claims["email"].s, claims["display_name"].s, "")
    ensures !IsString(claims, "username") ==> r == Err(CastError("username"))
    ensures IsString(claims, "username") && !IsString(claims, "email") ==> r == Err(CastError("email"))
    ensures IsString(claims, "username") && IsString(claims, "email") && !IsString(claims, "display_name") ==>
      r == Err(CastError("display_name"))
  {
    match StringClaim(claims, "username")
    case None => Err(CastError("username"))
    case Some(username) =>
      match StringClaim(claims, "email")
      case None => Err(CastError("email"))
      case Some(email) =>
        match StringClaim(claims, "display_name")
        case None => Err(CastError("display_name"))
        case Some(displayName) => Ok(UserRecord(username, email, displayName, ""))
  }

  /** Round trip: any token this controller signed for `u` verifies, under
      the codec law, to `u`'s identity with an empty password. */
  lemma VerifyCreatedToken(c: Controller, u: Entities.User, env: Env)
    requires Lawful(env.jwt)
    requires env.jwt.sign(TokenClaims(u, env), c.jwtSigningMethod, c.jwtKey).Ok?
    ensures c.Verify(env.jwt.sign(TokenClaims(u, env), c.jwtSigningMethod, c.jwtKey).value, env.jwt)
      == Ok(UserRecord(u.username, u.email, u.displayName, ""))
  {
  }

  /** A successful login's token verifies to the record the lookup found;
      with an exact lookup, that is the username that logged in. */
  lemma VerifyAuthenticated(c: Controller, username: string, password: string, env: Env)
    requires Lawful(env.jwt)
    requires c.findByCredentials(username, password).Ok?
    requires env.jwt.sign(TokenClaims(c.findByCredentials(username, password).value.Identity(), env),
                          c.jwtSigningMethod, c.jwtKey).Ok?
    ensures var rec := c.findByCredentials(username, password).value;
      var token := env.jwt.sign(TokenClaims(rec.Identity(), env), c.jwtSigningMethod, c.jwtKey).value;
      && c.Verify(token, env.jwt) == Ok(UserRecord(rec.username, rec.email, rec.displayName, ""))
      && (c.ExactLookup() ==> c.Verify(token, env.jwt).value.username == username)
  {
    VerifyCreatedToken(c, c.findByCredentials(username, password).value.Identity(), env);
  }

  /** Verification never consults the database: two controllers with the same
      key verify every token alike, whatever their lookups. */
  lemma VerifyIgnoresStore(c: Controller, d: Controller, token: string, jwt: Library)
    requires c.jwtKey == d.jwtKey
    ensures c.Verify(token, jwt) == d.Verify(token, jwt)
  {
  }
}
