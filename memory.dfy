/** The in-memory authentication controller (package `memory`): an ordered
    list of users fixed at construction, scanned on every login; tokens carry
    username, email, display name, issuer host and expiry. */
module Memory {
  import opened Results
  import opened Jwt
  import Entities

  /** A stored user. The password is compared in plain text. */
  datatype User = User(username: string, email: string, displayName: string, password: string) {

    /** The user as the `entities.User` getters show it: no password. */
    function Identity(): Entities.User {
      Entities.User(username, email, displayName)
    }
  }

  datatype Options = Options(users: seq<User>, jwtKey: string, jwtSigningMethod: string)

  const UserNotFound: string := "user not found"

  /** Both credentials of `u` equal the given ones, exactly. */
  predicate Matches(u: User, username: string, password: string) {
    u.username == username && u.password == password
  }

  /** The index of the first user in list order whose credentials match. */
  function FirstMatch(users: seq<User>, username: string, password: string): (r: Option<nat>)
    ensures r.Some? ==> r.value < |users| && Matches(users[r.value], username, password)
    ensures r.Some? ==> forall j :: 0 <= j < r.value ==> !Matches(users[j], username, password)
    ensures r.None? <==> forall j :: 0 <= j < |users| ==> !Matches(users[j], username, password)
  {
    if |users| == 0 then None
    else if Matches(users[0], username, password) then Some(0)
    else match FirstMatch(users[1..], username, password)
      case None => None
      case Some(i) => Some(i + 1)
  }

  /** The claims createToken writes for `u`. */
  function TokenClaims(u: Entities.User, env: Env): Claims {
    map[
      "username" := Str(u.username),
      "email" := Str(u.email),
      "display_name" := Str(u.displayName),
      "iss" := Str(env.hostname),
      "exp" := Number(env.nowNanos + TokenLifetimeNanos)]
  }

  /** The controller holds the users and the signing configuration and never
      changes them. */
  datatype Controller = Controller(users: seq<User>, jwtKey: string, jwtSigningMethod: string) {

    /** Logs in: the first user in list order with both credentials equal
        gets a token; later users are never consulted. */
    method Authenticate(username: string, password: string, env: Env) returns (r: Result<string>)
      ensures match FirstMatch(users, username, password)
        case Some(i) => r == env.jwt.sign(TokenClaims(users[i].Identity(), env), jwtSigningMethod, jwtKey)
        case None => r == Err(UserNotFound)
    {
      for i := 0 to |users|
        invariant forall j :: 0 <= j < i ==> !Matches(users[j], username, password)
      {
        var u := users[i];
        if u.username == username && u.password == password {
          r := CreateToken(Some(u.Identity()), env);
          return;
        }
      }
      r := Err(UserNotFound);
    }

    /** Checks a token and rebuilds its user from the claims. A parse error
        is returned as it is, before any claim is looked at. */
    function Verify(token: string, jwt: Library): (r: Result<User>)
      ensures jwt.parse(token, jwtKey).Err? ==> r == Err(jwt.parse(token, jwtKey).msg)
      ensures jwt.parse(token, jwtKey).Ok? ==> r == CreateUserFromToken(jwt.parse(token, jwtKey).value)
      ensures Lawful(jwt) && token == "" ==> r.Err?
    {
      match jwt.parse(token, jwtKey)
      case Err(e) => Err(e)
      case Ok(claims) => CreateUserFromToken(claims)
    }

    /** Token revocation is not implemented: every token, "" included, is
        accepted. */
    function Invalidate(token: string): (r: Outcome)
      ensures r == Pass
    {
      Pass
    }

    /** Issues a token for `user`: the claims map is filled one claim at a
        time, then signed with the controller's method and key. */
    method CreateToken(user: Option<Entities.User>, env: Env) returns (r: Result<string>)
      ensures user.None? ==> r == Err(Entities.NilUserError)
      ensures user.Some? ==> r == env.jwt.sign(TokenClaims(user.value, env), jwtSigningMethod, jwtKey)
    {
      if user.None? {
        return Err(Entities.NilUserError);
      }
      var u := user.value;
      var claims: Claims := map[];
      claims := claims["username" := Str(u.username)];
      claims := claims["email" := Str(u.email)];
      claims := claims["display_name" := Str(u.displayName)];
      claims := claims["iss" := Str(env.hostname)];
      claims := claims["exp" := Number(env.nowNanos + TokenLifetimeNanos)];
      r := env.jwt.sign(claims, jwtSigningMethod, jwtKey);
    }
  }

  /** `New`: the controller takes the options as given. */
  function New(opts: Options): (c: Controller)
    ensures c.users == opts.users
    ensures c.jwtKey == opts.jwtKey && c.jwtSigningMethod == opts.jwtSigningMethod
  {
    Controller(opts.users, opts.jwtKey, opts.jwtSigningMethod)
  }

  /** Rebuilds a user from claims: username, then email, then display_name
      must each hold a string; the first that does not decides the error.
      The rebuilt user has an empty password. */
  function CreateUserFromToken(claims: Claims): (r: Result<User>)
    ensures r.Ok? <==> IsString(claims, "username") && IsString(claims, "email") && IsString(claims, "display_name")
    ensures r.Ok? ==> r.value == User(claims["username"].s, claims["email"].s, claims["display_name"].s, "")
    ensures !IsString(claims, "username") ==> r == Err(CastError("username"))
    ensures IsString(claims, "username") && !IsString(claims, "email") ==> r == Err(CastError("email"))
    ensures IsString(claims, "username") && IsString(claims, "email") && !IsString(claims, "display_name") ==>
      r == Err(CastError("display_name"))
  {
    match StringClaim(claims, "username")
    case None => Err(CastError("username"))
    case Some(username) =>
      match StringClaim(claims, "email")
      case None => Err(CastError("email"))
      case Some(email) =>
        match StringClaim(claims, "display_name")
        case None => Err(CastError("display_name"))
        case Some(displayName) => Ok(User(username, email, displayName, ""))
  }

  /** Claim extraction undoes claim creation, on the identity's three values. */
  lemma ClaimsReadBack(u: Entities.User, env: Env)
    ensures CreateUserFromToken(TokenClaims(u, env)) == Ok(User(u.username, u.email, u.displayName, ""))
  {
  }

  /** Round trip: any token this controller signed for `u` verifies, under
      the codec law, to `u`'s identity with an empty password. */
  lemma VerifyCreatedToken(c: Controller, u: Entities.User, env: Env)
    requires Lawful(env.jwt)
    requires env.jwt.sign(TokenClaims(u, env), c.jwtSigningMethod, c.jwtKey).Ok?
    ensures c.Verify(env.jwt.sign(TokenClaims(u, env), c.jwtSigningMethod, c.jwtKey).value, env.jwt)
      == Ok(User(u.username, u.email, u.displayName, ""))
  {
  }

  /** A successful login's token verifies to the user who logged in: same
      username, and the matched entry's email and display name. */
  lemma VerifyAuthenticated(c: Controller, username: string, password: string, i: nat, env: Env)
    requires Lawful(env.jwt)
    requires FirstMatch(c.users, username, password) == Some(i)
    requires env.jwt.sign(TokenClaims(c.users[i].Identity(), env), c.jwtSigningMethod, c.jwtKey).Ok?
    ensures c.Verify(env.jwt.sign(TokenClaims(c.users[i].Identity(), env), c.jwtSigningMethod, c.jwtKey).value, env.jwt)
      == Ok(User(username, c.users[i].email, c.users[i].displayName, ""))
  {
    VerifyCreatedToken(c, c.users[i].Identity(), env);
  }

  /** A user whose username matches but whose password does not never logs
      in; with no entry matching both, the login fails with "user not found". */
  lemma WrongPasswordRejected(users: seq<User>, username: string, password: string)
    requires forall j :: 0 <= j < |users| && users[j].username == username ==> users[j].password != password
    ensures FirstMatch(users, username, password) == None
  {
  }

  /** The token never depends on the password: two users differing only in
      password get the same claims. */
  lemma TokenIgnoresPassword(u: User, v: User, env: Env)
    requires u.username == v.username && u.email == v.email && u.displayName == v.displayName
    ensures TokenClaims(u.Identity(), env) == TokenClaims(v.Identity(), env)
  {
  }
}
