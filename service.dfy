/** Service construction (package `service`, function `New`): validates the
    configuration and builds the configured authentication controller. */
module Service {
  import opened Results
  import Memory
  import Lib
  import Controllers

  datatype GeneralConfig = GeneralConfig(baseURL: string, jwtKey: string, jwtSigningMethod: string)

  datatype ControllerConfig = ControllerConfig(
    kind: string, simpleDriver: string, simpleDSN: string, memoryUsers: seq<Memory.User>)

  /** Pointers in the Go configuration are Options here. */
  datatype Config = Config(general: Option<GeneralConfig>, authenticationController: Option<ControllerConfig>)

  datatype Service = Service(config: Config, authenticationController: Controllers.AuthenticationController)

  /** The constructor of the "simple" controller package, called with the
      driver, the DSN and the authenticator; it may fail (bad driver, bad DSN). */
  type SimpleConstructor = (string, string, Lib.Authenticator) -> Result<Controllers.AuthenticationController>

  const ConfigNil: string := "config is nil"
  const ControllerConfigNil: string := "config.AuthenticationController is nil"
  const GeneralConfigNil: string := "config.General is nil"

  function UnknownKind(kind: string): string {
    "authenticationController type " + kind + " does not exist"
  }

  /** `sub` occurs in `s` at index `i`. */
  predicate OccursAt(s: string, sub: string, i: int) {
    0 <= i <= |s| - |sub| && s[i..i + |sub|] == sub
  }

  /** `sub` occurs in `s`. */
  ghost predicate Contains(s: string, sub: string) {
    exists i :: OccursAt(s, sub, i)
  }

  /** Both sub-configurations are present. */
  predicate Complete(cfg: Config) {
    cfg.general.Some? && cfg.authenticationController.Some?
  }

  /** `getSimpleAuthenticationController`: the constructor gets the
      configured driver and DSN and an authenticator holding the general
      section's key and method after defaulting; its result is returned as is. */
  function GetSimple(cfg: Config, newSimple: SimpleConstructor): (r: Result<Controllers.AuthenticationController>)
    requires Complete(cfg)
    ensures var g := cfg.general.value; var ac := cfg.authenticationController.value;
      exists a: Lib.Authenticator ::
        && r == newSimple(ac.simpleDriver, ac.simpleDSN, a)
        && Lib.Configured(a)
        && (g.jwtKey == "" ==> a.jwtKey == Lib.DefaultJWTKey)
        && (g.jwtKey != "" ==> a.jwtKey == g.jwtKey)
        && (g.jwtSigningMethod == "" ==> a.jwtSigningMethod == Lib.DefaultJWTSigningMethod)
        && (g.jwtSigningMethod != "" ==> a.jwtSigningMethod == g.jwtSigningMethod)
  {
    var g := cfg.general.value;
    var ac := cfg.authenticationController.value;
    var a := Lib.WithDefaults(g.jwtKey, g.jwtSigningMethod);
    newSimple(ac.simpleDriver, ac.simpleDSN, a)
  }

  /** `getMemoryAuthenticationController`: the configured users, with the
      key and method of the general section after defaulting. */
  function GetMemory(cfg: Config): (c: Memory.Controller)
    requires Complete(cfg)
    ensures c.users == cfg.authenticationController.value.memoryUsers
    ensures c.jwtKey != "" && c.jwtSigningMethod != ""
    ensures cfg.general.value.jwtKey == "" ==> c.jwtKey == Lib.DefaultJWTKey
    ensures cfg.general.value.jwtKey != "" ==> c.jwtKey == cfg.general.value.jwtKey
    ensures cfg.general.value.jwtSigningMethod == "" ==> c.jwtSigningMethod == Lib.DefaultJWTSigningMethod
    ensures cfg.general.value.jwtSigningMethod != "" ==> c.jwtSigningMethod == cfg.general.value.jwtSigningMethod
  {
    var g := cfg.general.value;
    var a := Lib.WithDefaults(g.jwtKey, g.jwtSigningMethod);
    Memory.New(Memory.Options(cfg.authenticationController.value.memoryUsers, a.jwtKey, a.jwtSigningMethod))
  }

  /** `New`: three nil checks in a fixed order (the config, its controller
      section, its general section), then dispatch on the controller type. */
  function New(cfg: Option<Config>, newSimple: SimpleConstructor): (r: Result<Service>)
    ensures cfg.None? ==> r == Err(ConfigNil)
    ensures cfg.Some? && cfg.value.authenticationController.None? ==> r == Err(ControllerConfigNil)
    ensures cfg.Some? && cfg.value.authenticationController.Some? && cfg.value.general.None? ==>
      r == Err(GeneralConfigNil)
    ensures r.Ok? ==> cfg.Some? && Complete(cfg.value) && r.value.config == cfg.value
    ensures r.Ok? ==> cfg.value.authenticationController.value.kind in {"simple", "memory"}
  {
    if cfg.None? then Err(ConfigNil)
    else if cfg.value.authenticationController.None? then Err(ControllerConfigNil)
    else if cfg.value.general.None? then Err(GeneralConfigNil)
    else
      var kind := cfg.value.authenticationController.value.kind;
      if kind == "simple" then
        match GetSimple(cfg.value, newSimple)
        case Err(e) => Err(e)
        case Ok(c) => Ok(Service(cfg.value, c))
      else if kind == "memory" then
        Ok(Service(cfg.value, Controllers.MemoryController(GetMemory(cfg.value))))
      else
        Err(UnknownKind(kind))
  }

  /** An unknown controller type fails, naming that type. */
  lemma UnknownKindNamed(cfg: Config, newSimple: SimpleConstructor)
    requires Complete(cfg)
    requires cfg.authenticationController.value.kind !in {"simple", "memory"}
    ensures New(Some(cfg), newSimple).Err?
    ensures Contains(New(Some(cfg), newSimple).msg, cfg.authenticationController.value.kind)
  {
    var kind := cfg.authenticationController.value.kind;
    var prefix := "authenticationController type ";
    var msg := UnknownKind(kind);
    assert msg == prefix + kind + " does not exist";
    assert OccursAt(msg, kind, |prefix|);
  }

  /** A complete configuration of type "memory" always succeeds, with the
      memory controller built by GetMemory. */
  lemma MemoryAlwaysSucceeds(cfg: Config, newSimple: SimpleConstructor)
    requires Complete(cfg) && cfg.authenticationController.value.kind == "memory"
    ensures New(Some(cfg), newSimple) == Ok(Service(cfg, Controllers.MemoryController(GetMemory(cfg))))
  {
  }

  /** Type "simple": the constructor's error is returned unchanged and no
      service is built; its controller is used as it is otherwise. */
  lemma SimplePropagates(cfg: Config, newSimple: SimpleConstructor)
    requires Complete(cfg) && cfg.authenticationController.value.kind == "simple"
    ensures GetSimple(cfg, newSimple).Err? ==> New(Some(cfg), newSimple) == Err(GetSimple(cfg, newSimple).msg)
    ensures GetSimple(cfg, newSimple).Ok? ==> New(Some(cfg), newSimple) == Ok(Service(cfg, GetSimple(cfg, newSimple).value))
  {
  }
}
