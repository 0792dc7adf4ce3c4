/**
 * `src/commands/cross.ts`: the `cross` cross-compilation helper. Its
 * install moves the process into the temporary directory around
 * `Cargo.install` and always moves it back.
 */
module CrossCommand {
  import opened Wrappers
  import opened Platform
  import CargoCommand

  /** The name `cross` is installed and looked up under. */
  const Program := "cross"

  /** A located `cross` binary. */
  datatype Cross = Cross(path: string)

  /** `Cross.get`: `cross` from the search path. */
  function Located(w: World, e: Env): (r: Result<Cross, Error>)
    ensures r.Failure? <==> FindOnPath(w.pathDirs, e.files, Program).None?
    ensures r.Failure? ==> r.error == NotFound(Program)
    ensures r.Success? ==> r.value.path in e.files
    ensures r.Success? ==> r.value.path == FindOnPath(w.pathDirs, e.files, Program).value
  {
    match WhichIn(w, e, Program)
    case Success(p) => Success(Cross(p))
    case Failure(err) => Failure(err)
  }

  /** `Cross.get`: fails exactly when `cross` is not on the search path. */
  method Get(h: Host) returns (r: Result<Cross, Error>)
    ensures r == Located(h.world, h.State())
    ensures r.Failure? <==> FindOnPath(h.world.pathDirs, h.files, Program).None?
  {
    var path := h.Which(Program);
    if path.Failure? {
      return Failure(path.error);
    }
    r := Success(Cross(path.value));
  }

  /**
   * `Cross.install`: locate cargo, then run `Cargo.install('cross', ...)`
   * from the temporary directory and return to the previous directory
   * whether it succeeds or fails.
   */
  function InstallRun(w: World, e: Env, version: Option<string>, primaryKey: Option<string>,
                      restoreKeys: Option<seq<string>>): (r: Run<Cross>)
    ensures r.env.cwd == e.cwd
    ensures |e.trace| <= |r.env.trace| && r.env.trace[..|e.trace|] == e.trace
    ensures forall i :: |e.trace| <= i < |r.env.trace| ==> r.env.trace[i].cwd == w.tmpdir
  {
    match CargoCommand.Located(w, e, None)
    case Failure(err) => Run(Failure(err), e)
    case Success(cargo) =>
      var inner := CargoCommand.InstallRun(w, e.(cwd := w.tmpdir), cargo, Program, version, primaryKey, restoreKeys);
      var back := inner.env.(cwd := e.cwd);
      match inner.outcome
      case Failure(err) => Run(Failure(err), back)
      case Success(p) => Run(Success(Cross(p)), back)
  }

  /** `Cross.install`, step by step: the directory change is undone on both exits. */
  method Install(h: Host, version: Option<string>, primaryKey: Option<string>, restoreKeys: Option<seq<string>>)
    returns (r: Result<Cross, Error>)
    modifies h
    ensures Run(r, h.State()) == InstallRun(h.world, old(h.State()), version, primaryKey, restoreKeys)
    ensures h.cwd == old(h.cwd)
  {
    var cargo := CargoCommand.Get(h, None);
    if cargo.Failure? {
      return Failure(cargo.error);
    }
    var cwd := h.Cwd();
    h.Chdir(h.world.tmpdir);
    var crossPath := CargoCommand.Install(h, cargo.value, Program, version, primaryKey, restoreKeys);
    // finally
    h.Chdir(cwd);
    if crossPath.Failure? {
      return Failure(crossPath.error);
    }
    r := Success(Cross(crossPath.value));
  }

  /**
   * `Cross.install` hands 'cross' and the caller's version and keys to
   * `Cargo.install` unchanged, with cargo found on the search path and the
   * temporary directory as working directory, and wraps the path it
   * returns; only the working directory is put back afterwards.
   */
  lemma InstallDelegates(w: World, e: Env, version: Option<string>, primaryKey: Option<string>,
                         restoreKeys: Option<seq<string>>, cargo: CargoCommand.Cargo)
    requires CargoCommand.Located(w, e, None) == Success(cargo)
    ensures var inner := CargoCommand.InstallRun(w, e.(cwd := w.tmpdir), cargo, Program, version, primaryKey, restoreKeys);
      var r := InstallRun(w, e, version, primaryKey, restoreKeys);
      && r.env == inner.env.(cwd := e.cwd)
      && (r.outcome.Success? <==> inner.outcome.Success?)
      && (r.outcome.Success? ==> r.outcome.value.path == inner.outcome.value)
      && (r.outcome.Failure? ==> r.outcome.error == inner.outcome.error)
  {
  }

  /** Without cargo on the search path nothing is installed and the directory is never changed. */
  lemma InstallNeedsCargo(w: World, e: Env, version: Option<string>, primaryKey: Option<string>,
                          restoreKeys: Option<seq<string>>)
    requires FindOnPath(w.pathDirs, e.files, "cargo").None?
    ensures InstallRun(w, e, version, primaryKey, restoreKeys) == Run(Failure(NotFound("cargo")), e)
  {
  }

  /** After `Cross.install` succeeds, `Cross.get` succeeds. */
  lemma {:induction false} GetAfterInstall(w: World, e: Env, version: Option<string>, primaryKey: Option<string>,
                                           restoreKeys: Option<seq<string>>)
    ensures var r := InstallRun(w, e, version, primaryKey, restoreKeys);
      r.outcome.Success? ==> Located(w, r.env).Success?
  {
    var found := CargoCommand.Located(w, e, None);
    if found.Success? {
      CargoCommand.InstalledProgramIsOnPath(w, e.(cwd := w.tmpdir), found.value, Program, version, primaryKey, restoreKeys);
    }
  }

  /**
   * `Cross.getOrInstall`: the `cross` already on the search path, else
   * an install of the latest version with the caller's keys.
   */
  function GetOrInstallRun(w: World, e: Env, primaryKey: Option<string>, restoreKeys: Option<seq<string>>): (r: Run<Cross>)
    ensures r.env.cwd == e.cwd
    ensures FindOnPath(w.pathDirs, e.files, Program).Some? ==>
      r == Run(Success(Cross(FindOnPath(w.pathDirs, e.files, Program).value)), e)
    ensures FindOnPath(w.pathDirs, e.files, Program).None? ==>
      r == InstallRun(w, e, Some("latest"), primaryKey, restoreKeys)
  {
    match Located(w, e)
    case Success(cross) => Run(Success(cross), e)
    case Failure(_) => InstallRun(w, e, Some("latest"), primaryKey, restoreKeys)
  }

  /** `Cross.getOrInstall`, step by step. */
  method GetOrInstall(h: Host, primaryKey: Option<string>, restoreKeys: Option<seq<string>>) returns (r: Result<Cross, Error>)
    modifies h
    ensures Run(r, h.State()) == GetOrInstallRun(h.world, old(h.State()), primaryKey, restoreKeys)
  {
    var found := Get(h);
    if found.Success? {
      return found;
    }
    r := Install(h, Some("latest"), primaryKey, restoreKeys);
  }

  /** Whichever way `Cross.getOrInstall` succeeds, `cross` is on the search path afterwards. */
  lemma {:induction false} GetOrInstallLeavesCrossFound(w: World, e: Env, primaryKey: Option<string>,
                                                        restoreKeys: Option<seq<string>>)
    ensures var r := GetOrInstallRun(w, e, primaryKey, restoreKeys);
      r.outcome.Success? ==> Located(w, r.env).Success?
  {
    if FindOnPath(w.pathDirs, e.files, Program).None? {
      GetAfterInstall(w, e, Some("latest"), primaryKey, restoreKeys);
    }
  }

  /** `Cross.call`: runs `cross` with the arguments exactly as given. */
  method Call(h: Host, cross: Cross, args: seq<string>, ignoreReturnCode: bool) returns (r: Result<int, Error>)
    modifies h
    ensures Run(r, h.State()) == ExecStep(h.world, old(h.State()), cross.path, args, ignoreReturnCode)
    ensures h.trace == old(h.trace) + [Command(cross.path, args, old(h.cwd))]
  {
    r := h.Exec(cross.path, args, ignoreReturnCode);
  }
}
