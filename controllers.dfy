/** The AuthenticationController interface (Authenticate, Verify,
    Invalidate) and its two implementations. The set of implementations is
    closed, so the interface is a sum of the two controller values and each
    operation dispatches on it. */
module Controllers {
  import opened Results
  import opened Jwt
  import Entities
  import Memory
  import Simple

  datatype AuthenticationController =
    | MemoryController(memory: Memory.Controller)
    | SimpleController(simple: Simple.Controller)
  {
    /** The key the controller signs and parses with. */
    function JwtKey(): string {
      match this
      case MemoryController(m) => m.jwtKey
      case SimpleController(s) => s.jwtKey
    }

    /** The credential store returns only entries equal to the credentials
        asked for (always so for the in-memory list). */
    ghost predicate ExactStore() {
      SimpleController? ==> simple.ExactLookup()
    }

    /** Logs in. Under the codec law and an exact store, a token it returns
        verifies to the username that logged in. */
    method Authenticate(username: string, password: string, env: Env) returns (r: Result<string>)
      ensures MemoryController? && Memory.FirstMatch(memory.users, username, password).None? ==>
        r == Err(Memory.UserNotFound)
      ensures SimpleController? && simple.findByCredentials(username, password).Err? ==>
        r == Err(simple.findByCredentials(username, password).msg)
      ensures Lawful(env.jwt) && ExactStore() && r.Ok? ==>
        Verify(r.value, env.jwt).Ok? && Verify(r.value, env.jwt).value.username == username
    {
      match this
      case MemoryController(m) =>
        r := m.Authenticate(username, password, env);
        if r.Ok? && Lawful(env.jwt) {
          var i := Memory.FirstMatch(m.users, username, password).value;
          Memory.VerifyAuthenticated(m, username, password, i, env);
        }
      case SimpleController(s) =>
        r := s.Authenticate(username, password, env);
        if r.Ok? && Lawful(env.jwt) {
          Simple.VerifyAuthenticated(s, username, password, env);
        }
    }

    /** Checks a token and gives the identity it carries. A parse error is
        returned as it is. */
    function Verify(token: string, jwt: Library): (r: Result<Entities.User>)
      ensures jwt.parse(token, JwtKey()).Err? ==> r == Err(jwt.parse(token, JwtKey()).msg)
      ensures Lawful(jwt) && token == "" ==> r.Err?
    {
      match this
      case MemoryController(m) =>
        (match m.Verify(token, jwt) case Ok(u) => Ok(u.Identity()) case Err(e) => Err(e))
      case SimpleController(s) =>
        (match s.Verify(token, jwt) case Ok(u) => Ok(u.Identity()) case Err(e) => Err(e))
    }

    /** Revocation is not implemented by either controller. */
    function Invalidate(token: string): (r: Outcome)
      ensures r == Pass
    {
      match this
      case MemoryController(m) => m.Invalidate(token)
      case SimpleController(s) => s.Invalidate(token)
    }
  }

}
