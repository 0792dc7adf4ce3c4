/**
 * `src/commands/cargoHack.ts`: the `cargo-hack` cargo extension. It is
 * installed through `Cargo.install` with the default cache keys and is
 * always invoked through its `hack` sub-command.
 */
module CargoHackCommand {
  import opened Wrappers
  import opened Platform
  import CargoCommand

  /** The name `cargo-hack` is installed and looked up under. */
  const Program := "cargo-hack"

  /** A located `cargo-hack` binary. */
  datatype CargoHack = CargoHack(path: string)

  /** `CargoHack.get`: `cargo-hack` from the search path. */
  function Located(w: World, e: Env): (r: Result<CargoHack, Error>)
    ensures r.Failure? <==> FindOnPath(w.pathDirs, e.files, Program).None?
    ensures r.Failure? ==> r.error == NotFound(Program)
    ensures r.Success? ==> r.value.path in e.files
    ensures r.Success? ==> r.value.path == FindOnPath(w.pathDirs, e.files, Program).value
  {
    match WhichIn(w, e, Program)
    case Success(p) => Success(CargoHack(p))
    case Failure(err) => Failure(err)
  }

  /** `CargoHack.get`: fails exactly when `cargo-hack` is not on the search path. */
  method Get(h: Host) returns (r: Result<CargoHack, Error>)
    ensures r == Located(h.world, h.State())
    ensures r.Failure? <==> FindOnPath(h.world.pathDirs, h.files, Program).None?
  {
    var path := h.Which(Program);
    if path.Failure? {
      return Failure(path.error);
    }
    r := Success(CargoHack(path.value));
  }

  /**
   * `CargoHack.install(version)`: locate cargo and install 'cargo-hack'
   * at `version` with the default cache keys, in the current directory.
   */
  function InstallRun(w: World, e: Env, version: Option<string>): (r: Run<CargoHack>)
    ensures r.env.cwd == e.cwd
    ensures |e.trace| <= |r.env.trace| <= |e.trace| + 1 && r.env.trace[..|e.trace|] == e.trace
    ensures r.outcome.Success? ==> Located(w, r.env).Success?
  {
    match CargoCommand.Located(w, e, None)
    case Failure(err) => Run(Failure(err), e)
    case Success(cargo) =>
      var inner := CargoCommand.InstallRun(w, e, cargo, Program, version, None, None);
      CargoCommand.InstalledProgramIsOnPath(w, e, cargo, Program, version, None, None);
      match inner.outcome
      case Failure(err) => Run(Failure(err), inner.env)
      case Success(p) => Run(Success(CargoHack(p)), inner.env)
  }

  /** `CargoHack.install`, step by step. */
  method Install(h: Host, version: Option<string>) returns (r: Result<CargoHack, Error>)
    modifies h
    ensures Run(r, h.State()) == InstallRun(h.world, old(h.State()), version)
  {
    var cargo := CargoCommand.Get(h, None);
    if cargo.Failure? {
      return Failure(cargo.error);
    }
    var path := CargoCommand.Install(h, cargo.value, Program, version, None, None);
    if path.Failure? {
      return Failure(path.error);
    }
    r := Success(CargoHack(path.value));
  }

  /**
   * `CargoHack.install` hands 'cargo-hack' and `version` to
   * `Cargo.install` with no primary key and no restore keys, and wraps
   * the path it returns.
   */
  lemma InstallDelegates(w: World, e: Env, version: Option<string>, cargo: CargoCommand.Cargo)
    requires CargoCommand.Located(w, e, None) == Success(cargo)
    ensures var inner := CargoCommand.InstallRun(w, e, cargo, Program, version, None, None);
      var r := InstallRun(w, e, version);
      && r.env == inner.env
      && (r.outcome.Success? <==> inner.outcome.Success?)
      && (r.outcome.Success? ==> r.outcome.value.path == inner.outcome.value)
      && (r.outcome.Failure? ==> r.outcome.error == inner.outcome.error)
  {
  }

  /**
   * `CargoHack.getOrInstall`: the `cargo-hack` already on the search
   * path, else an install with no version, which resolves the newest one.
   */
  function GetOrInstallRun(w: World, e: Env): (r: Run<CargoHack>)
    ensures FindOnPath(w.pathDirs, e.files, Program).Some? ==>
      r == Run(Success(CargoHack(FindOnPath(w.pathDirs, e.files, Program).value)), e)
    ensures FindOnPath(w.pathDirs, e.files, Program).None? ==> r == InstallRun(w, e, None)
    ensures r.outcome.Success? ==> Located(w, r.env).Success?
  {
    match Located(w, e)
    case Success(hack) => Run(Success(hack), e)
    case Failure(_) => InstallRun(w, e, None)
  }

  /** `CargoHack.getOrInstall`, step by step. */
  method GetOrInstall(h: Host) returns (r: Result<CargoHack, Error>)
    modifies h
    ensures Run(r, h.State()) == GetOrInstallRun(h.world, old(h.State()))
  {
    var found := Get(h);
    if found.Success? {
      return found;
    }
    r := Install(h, None);
  }

  /** The fallback install of `getOrInstall` asks the registry for the newest version. */
  lemma FallbackResolvesNewest(w: World, e: Env, v: string)
    requires FindOnPath(w.pathDirs, e.files, Program).None?
    requires FindOnPath(w.pathDirs, e.files, "cargo").Some?
    requires CargoCommand.EffectiveVersion(w, Program, None) == Success(v)
    ensures v == CargoCommand.ResolveVersion(w, Program).value.GetOr("")
    ensures var r := GetOrInstallRun(w, e);
      |r.env.cacheLog| > |e.cacheLog|
      && r.env.cacheLog[|e.cacheLog|] == Restore(CargoCommand.ProgramKey(Program, v, CargoCommand.DefaultPrimaryKey), [])
  {
    var cargo := CargoCommand.Located(w, e, None).value;
    assert GetOrInstallRun(w, e) == InstallRun(w, e, None);
    CargoCommand.CacheKeyUsesEffectiveVersion(w, e, cargo, Program, None, None, None, v);
    assert CargoCommand.RestoreKeysFor(Program, v, []) == [];
  }

  /** The argument vector `CargoHack.call` runs: the `hack` sub-command, then the arguments in order. */
  function HackArgs(args: seq<string>): (r: seq<string>)
    ensures |r| == |args| + 1 && r[0] == "hack" && r[1..] == args
  {
    ["hack"] + args
  }

  /** `CargoHack.call`: runs `cargo-hack hack args...`. */
  method Call(h: Host, hack: CargoHack, args: seq<string>, ignoreReturnCode: bool) returns (r: Result<int, Error>)
    modifies h
    ensures Run(r, h.State()) == ExecStep(h.world, old(h.State()), hack.path, HackArgs(args), ignoreReturnCode)
  {
    r := h.Exec(hack.path, HackArgs(args), ignoreReturnCode);
  }
}
