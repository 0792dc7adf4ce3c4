/**
 * `src/commands/cargo.ts`: the cargo handle, toolchain selection, and the
 * cached install of a program through `cargo install`.
 */
module CargoCommand {
  import opened Wrappers
  import opened Platform

  /** Primary cache key used when the caller gives none. */
  const DefaultPrimaryKey := "rs-actions-core"

  /** Primary cache key that turns caching off. */
  const NoCache := "no-cache"

  /** Prefix of the crates.io URL the newest version of a crate is read from. */
  const CratesApi := "https://crates.io/api/v1/crates/"

  /** A located cargo binary and the toolchain argument its commands start with. */
  datatype Cargo = Cargo(path: string, toolchain: string)

  /** A toolchain name without its leading '+', if it has one. */
  function Unprefixed(s: string): string {
    if |s| > 0 && s[0] == '+' then s[1..] else s
  }

  /**
   * `cargoToolchainArg`: no argument for a missing or empty toolchain,
   * otherwise the toolchain with exactly one leading '+'.
   */
  function CargoToolchainArg(toolchain: Option<string>): (r: string)
    ensures r == "" <==> toolchain.None? || toolchain.value == ""
    ensures r != "" ==> r[0] == '+' && r[1..] == Unprefixed(toolchain.value)
  {
    if toolchain.None? || toolchain.value == "" then ""
    else if toolchain.value[0] == '+' then toolchain.value
    else "+" + toolchain.value
  }

  /** Formatting an already formatted toolchain argument changes nothing. */
  lemma ToolchainArgIdempotent(toolchain: Option<string>)
    ensures CargoToolchainArg(Some(CargoToolchainArg(toolchain))) == CargoToolchainArg(toolchain)
  {
  }

  /** The documented examples: default toolchain, a bare name, an already prefixed name. */
  lemma ToolchainArgExamples()
    ensures CargoToolchainArg(None) == ""
    ensures CargoToolchainArg(Some("")) == ""
    ensures CargoToolchainArg(Some("nightly")) == "+nightly"
    ensures CargoToolchainArg(Some("+beta")) == "+beta"
  {
  }

  /** `callArgs`: the toolchain argument, when there is one, goes in front of the arguments, which keep their order. */
  function CallArgs(toolchain: string, args: seq<string>): (r: seq<string>)
    ensures toolchain == "" ==> r == args
    ensures toolchain != "" ==> |r| == |args| + 1 && r[0] == toolchain && r[1..] == args
  {
    if toolchain != "" then [toolchain] + args else args
  }

  /** The argument vector `cargoInstall` builds: `install [--version v] program`. */
  function InstallArgs(program: string, version: string): (r: seq<string>)
    ensures |r| >= 2 && r[0] == "install" && r[|r| - 1] == program
    ensures version == "latest" ==> |r| == 2
    ensures version != "latest" ==> |r| == 4 && r[1] == "--version" && r[2] == version
  {
    ["install"] + (if version != "latest" then ["--version", version] else []) + [program]
  }

  /** What a `cargo install` vector asks for: the program, and the pinned version if any. */
  function InstallRequest(args: seq<string>): (string, Option<string>)
    requires |args| >= 2
  {
    if |args| == 4 && args[1] == "--version" then (args[3], Some(args[2])) else (args[|args| - 1], None)
  }

  /** The install vector asks for exactly the program and version it was built from ('latest' pins nothing). */
  lemma InstallArgsRoundTrip(program: string, version: string)
    ensures InstallRequest(InstallArgs(program, version)) == (program, if version == "latest" then None else Some(version))
  {
  }

  /**
   * `resolveVersion`: the `newest_version` the crates.io record reports
   * (possibly missing), or a failure when the reply has no `result`.
   */
  function ResolveVersion(w: World, crate: string): (r: Result<Option<string>, Error>)
    ensures r.Failure? <==> w.registry(CratesApi + crate).NoResult?
    ensures r.Success? ==> r.value == w.registry(CratesApi + crate).newestVersion
  {
    match w.registry(CratesApi + crate)
    case NoResult => Failure(RegistryUnavailable(crate))
    case Crate(newest) => Success(newest)
  }

  /** A requested version that has to be resolved: missing, empty or 'latest'. */
  predicate Unpinned(version: Option<string>) {
    version.None? || version.value == "" || version.value == "latest"
  }

  /**
   * The version `install` works with: the one requested, or, for an
   * unpinned request, the resolved one ('' when the registry names none).
   */
  function EffectiveVersion(w: World, program: string, version: Option<string>): (r: Result<string, Error>)
    ensures !Unpinned(version) ==> r == Success(version.value)
    ensures Unpinned(version) ==> (r.Failure? <==> ResolveVersion(w, program).Failure?)
    ensures Unpinned(version) && r.Success? ==> r.value == ResolveVersion(w, program).value.GetOr("")
    ensures r.Success? && r.value == "latest" ==> w.registry(CratesApi + program) == Crate(Some("latest"))
  {
    if Unpinned(version) then
      match ResolveVersion(w, program)
      case Failure(err) => Failure(err)
      case Success(newest) => Success(newest.GetOr(""))
    else Success(version.value)
  }

  /** The cache key of `program` at `version` under the key suffix `key`. */
  function ProgramKey(program: string, version: string, key: string): string {
    program + "-" + version + "-" + key
  }

  /** What every cache key of `program` at `version` starts with. */
  function KeyPrefix(program: string, version: string): string {
    program + "-" + version + "-"
  }

  /** `restoreKeys.map(...)`: each suffix turned into a full key, in the same order. */
  function RestoreKeysFor(program: string, version: string, keys: seq<string>): (r: seq<string>)
    ensures |r| == |keys|
    ensures forall i :: 0 <= i < |keys| ==> r[i] == ProgramKey(program, version, keys[i])
  {
    if keys == [] then []
    else [ProgramKey(program, version, keys[0])] + RestoreKeysFor(program, version, keys[1..])
  }

  /**
   * The primary key and every restore key of one install share the prefix
   * `program-version-`, and the suffix after it is the caller's key: so
   * distinct suffixes give distinct keys, and a key always names the
   * concrete version it was built for.
   */
  lemma KeysShareVersionPrefix(program: string, version: string, primaryKey: string, restoreKeys: seq<string>)
    ensures var p := KeyPrefix(program, version);
      && ProgramKey(program, version, primaryKey)[..|p|] == p
      && ProgramKey(program, version, primaryKey)[|p|..] == primaryKey
      && forall i :: 0 <= i < |restoreKeys| ==>
           RestoreKeysFor(program, version, restoreKeys)[i][..|p|] == p
           && RestoreKeysFor(program, version, restoreKeys)[i][|p|..] == restoreKeys[i]
  {
  }

  /** Keys of one program and version differ exactly when their suffixes do. */
  lemma {:induction false} ProgramKeyInjective(program: string, version: string, key1: string, key2: string)
    ensures ProgramKey(program, version, key1) == ProgramKey(program, version, key2) <==> key1 == key2
  {
    var p := KeyPrefix(program, version);
    assert ProgramKey(program, version, key1) == p + key1;
    assert ProgramKey(program, version, key2) == p + key2;
    if p + key1 == p + key2 {
      assert key1 == (p + key1)[|p|..];
    }
  }

  /** The cached path list of `program`: the file next to the cargo binary. */
  function ArtifactPath(cargoPath: string, program: string): string {
    Join(Dirname(cargoPath), program)
  }

  /** `path` is what `io.which` would return for `name` from some non-empty PATH entry. */
  ghost predicate OnSearchPath(w: World, path: string, name: string) {
    exists i :: 0 <= i < |w.pathDirs| && w.pathDirs[i] != "" && path == Join(w.pathDirs[i], name)
  }

  /** `Cargo.get(toolchain)`: cargo from the search path, with the toolchain argument formatted. */
  function Located(w: World, e: Env, toolchain: Option<string>): (r: Result<Cargo, Error>)
    ensures r.Failure? <==> FindOnPath(w.pathDirs, e.files, "cargo").None?
    ensures r.Failure? ==> r.error == NotFound("cargo")
    ensures r.Success? ==> r.value.toolchain == CargoToolchainArg(toolchain)
    ensures r.Success? ==> r.value.path == FindOnPath(w.pathDirs, e.files, "cargo").value
    ensures r.Success? ==> r.value.path in e.files && OnSearchPath(w, r.value.path, "cargo")
  {
    match WhichIn(w, e, "cargo")
    case Success(p) => Success(Cargo(p, CargoToolchainArg(toolchain)))
    case Failure(err) => Failure(err)
  }

  /** `Cargo.get`: fails exactly when cargo is not on the search path. */
  method Get(h: Host, toolchain: Option<string>) returns (r: Result<Cargo, Error>)
    ensures r == Located(h.world, h.State(), toolchain)
    ensures r.Failure? <==> FindOnPath(h.world.pathDirs, h.files, "cargo").None?
  {
    var path := h.Which("cargo");
    if path.Failure? {
      return Failure(path.error);
    }
    r := Success(Cargo(path.value, CargoToolchainArg(toolchain)));
  }

  /** `Cargo.call`: runs cargo with the toolchain argument in front of `args`. */
  method Call(h: Host, cargo: Cargo, args: seq<string>, ignoreReturnCode: bool) returns (r: Result<int, Error>)
    modifies h
    ensures Run(r, h.State()) == ExecStep(h.world, old(h.State()), cargo.path, CallArgs(cargo.toolchain, args), ignoreReturnCode)
  {
    r := h.Exec(cargo.path, CallArgs(cargo.toolchain, args), ignoreReturnCode);
  }

  /**
   * `cargoInstall`: one `cargo install` child, run in the current
   * directory; when it succeeds the program's binary sits next to cargo's
   * and `program` is returned, otherwise its failure is passed on.
   */
  function CargoInstallRun(w: World, e: Env, cargo: Cargo, program: string, version: string): (r: Run<string>)
    ensures r.env.trace == e.trace + [Command(cargo.path, CallArgs(cargo.toolchain, InstallArgs(program, version)), e.cwd)]
    ensures r.env.cwd == e.cwd && r.env.cache == e.cache && r.env.cacheLog == e.cacheLog
    ensures r.outcome.Success? <==> w.exitCode(r.env.trace[|e.trace|]) == 0
    ensures r.outcome.Success? ==> r.outcome.value == program && r.env.files == e.files + {ArtifactPath(cargo.path, program)}
    ensures r.outcome.Failure? ==> r.env.files == e.files
  {
    var called := ExecStep(w, e, cargo.path, CallArgs(cargo.toolchain, InstallArgs(program, version)), false);
    match called.outcome
    case Failure(err) => Run(Failure(err), called.env)
    case Success(_) => Run(Success(program), called.env.(files := called.env.files + {ArtifactPath(cargo.path, program)}))
  }

  /** `cargoInstall`, step by step. */
  method CargoInstall(h: Host, cargo: Cargo, program: string, version: string) returns (r: Result<string, Error>)
    modifies h
    ensures Run(r, h.State()) == CargoInstallRun(h.world, old(h.State()), cargo, program, version)
  {
    var args := ["install"];
    if version != "latest" {
      args := args + ["--version"];
      args := args + [version];
    }
    args := args + [program];
    assert args == InstallArgs(program, version);
    var code := Call(h, cargo, args, false);
    if code.Failure? {
      return Failure(code.error);
    }
    // the binary the child wrote into cargo's bin directory
    h.PlaceFile(ArtifactPath(cargo.path, program));
    r := Success(program);
  }

  /**
   * `Cargo.install`: resolve the version, derive the keys, try the cache
   * (unless it is turned off), on a miss install and then save; a
   * `ValidationError` from the save is passed on, any other save error is
   * swallowed.
   */
  function InstallRun(w: World, e: Env, cargo: Cargo, program: string, version: Option<string>,
                      primaryKey: Option<string>, restoreKeys: Option<seq<string>>): (r: Run<string>)
    ensures r.env.cwd == e.cwd
    ensures e.files <= r.env.files
    ensures |e.trace| <= |r.env.trace| <= |e.trace| + 1 && r.env.trace[..|e.trace|] == e.trace
    ensures forall i :: |e.trace| <= i < |r.env.trace| ==> r.env.trace[i].cwd == e.cwd
    ensures r.outcome.Success? ==> r.outcome.value == program && ArtifactPath(cargo.path, program) in r.env.files
  {
    match EffectiveVersion(w, program, version)
    case Failure(err) => Run(Failure(err), e)
    case Success(v) =>
      var pk := primaryKey.GetOr(DefaultPrimaryKey);
      var paths := [ArtifactPath(cargo.path, program)];
      var key := ProgramKey(program, v, pk);
      var rks := RestoreKeysFor(program, v, restoreKeys.GetOr([]));
      var restored := if pk != NoCache then RestoreStep(e, paths, key, rks) else Restored(None, e);
      if restored.hit.Some? then Run(Success(program), restored.env)
      else
        var installed := CargoInstallRun(w, restored.env, cargo, program, v);
        if installed.outcome.Failure? || pk == NoCache then installed
        else
          var saved := SaveStep(w, installed.env, paths, key);
          Run(if saved.failure == Some(ValidationError) then Failure(CacheError(ValidationError)) else installed.outcome,
              saved.env)
  }

  /** `Cargo.install`, step by step. */
  method Install(h: Host, cargo: Cargo, program: string, version: Option<string>,
                 primaryKey: Option<string>, restoreKeys: Option<seq<string>>) returns (r: Result<string, Error>)
    modifies h
    ensures Run(r, h.State()) == InstallRun(h.world, old(h.State()), cargo, program, version, primaryKey, restoreKeys)
  {
    var v: string;
    if Unpinned(version) {
      var newest := ResolveVersion(h.world, program);
      if newest.Failure? {
        return Failure(newest.error);
      }
      v := newest.value.GetOr("");
    } else {
      v := version.value;
    }
    var pk := primaryKey.GetOr(DefaultPrimaryKey);

    var paths := [ArtifactPath(cargo.path, program)];
    var programKey := ProgramKey(program, v, pk);
    var programRestoreKeys := RestoreKeysFor(program, v, restoreKeys.GetOr([]));

    if pk != NoCache {
      var cacheKey := h.RestoreCache(paths, programKey, programRestoreKeys);
      if cacheKey.Some? {
        return Success(program);
      }
    }

    var installPath := CargoInstall(h, cargo, program, v);
    if installPath.Failure? {
      return installPath;
    }

    if pk != NoCache {
      var failure := h.SaveCache(paths, programKey);
      if failure == Some(ValidationError) {
        return Failure(CacheError(ValidationError));
      }
      // a ReserveCacheError or any other save error is only logged
    }
    r := installPath;
  }

  /** The install command `Cargo.install` runs for `program` at the effective version `v`. */
  function InstallCommand(e: Env, cargo: Cargo, program: string, v: string): Command {
    Command(cargo.path, CallArgs(cargo.toolchain, InstallArgs(program, v)), e.cwd)
  }

  /** A version that cannot be resolved aborts the install before anything else happens. */
  lemma ResolutionFailureChangesNothing(w: World, e: Env, cargo: Cargo, program: string, version: Option<string>,
                                        primaryKey: Option<string>, restoreKeys: Option<seq<string>>)
    requires EffectiveVersion(w, program, version).Failure?
    ensures InstallRun(w, e, cargo, program, version, primaryKey, restoreKeys)
         == Run(Failure(RegistryUnavailable(program)), e)
  {
  }

  /**
   * Unless caching is off, the first request to the cache store is a
   * restore under the key built from the effective version (the resolved
   * one for an unpinned request), then the restore keys in the caller's order.
   */
  lemma CacheKeyUsesEffectiveVersion(w: World, e: Env, cargo: Cargo, program: string, version: Option<string>,
                                     primaryKey: Option<string>, restoreKeys: Option<seq<string>>, v: string)
    requires EffectiveVersion(w, program, version) == Success(v)
    requires primaryKey.GetOr(DefaultPrimaryKey) != NoCache
    ensures var r := InstallRun(w, e, cargo, program, version, primaryKey, restoreKeys);
      && |r.env.cacheLog| > |e.cacheLog|
      && r.env.cacheLog[..|e.cacheLog|] == e.cacheLog
      && r.env.cacheLog[|e.cacheLog|] == Restore(ProgramKey(program, v, primaryKey.GetOr(DefaultPrimaryKey)),
                                                 RestoreKeysFor(program, v, restoreKeys.GetOr([])))
  {
  }

  /** With the primary key 'no-cache' the cache store is never asked and the install command runs exactly once. */
  lemma NoCacheBypassesCache(w: World, e: Env, cargo: Cargo, program: string, version: Option<string>,
                             restoreKeys: Option<seq<string>>, v: string)
    requires EffectiveVersion(w, program, version) == Success(v)
    ensures var r := InstallRun(w, e, cargo, program, version, Some(NoCache), restoreKeys);
      && r.env.cache == e.cache
      && r.env.cacheLog == e.cacheLog
      && r.env.trace == e.trace + [InstallCommand(e, cargo, program, v)]
      && (r.outcome.Success? <==> w.exitCode(InstallCommand(e, cargo, program, v)) == 0)
  {
  }

  /**
   * A restore hit on the primary key or a restore key returns `program`
   * at once: no install command, no save, and the binary is back in place.
   */
  lemma RestoreHitReturnsEarly(w: World, e: Env, cargo: Cargo, program: string, version: Option<string>,
                               primaryKey: Option<string>, restoreKeys: Option<seq<string>>, v: string)
    requires EffectiveVersion(w, program, version) == Success(v)
    requires primaryKey.GetOr(DefaultPrimaryKey) != NoCache
    requires MatchKey(e.cache, [ArtifactPath(cargo.path, program)],
                      [ProgramKey(program, v, primaryKey.GetOr(DefaultPrimaryKey))]
                      + RestoreKeysFor(program, v, restoreKeys.GetOr([]))).Some?
    ensures var r := InstallRun(w, e, cargo, program, version, primaryKey, restoreKeys);
      && r.outcome == Success(program)
      && r.env.trace == e.trace
      && r.env.cache == e.cache
      && r.env.cacheLog == e.cacheLog + [Restore(ProgramKey(program, v, primaryKey.GetOr(DefaultPrimaryKey)),
                                                 RestoreKeysFor(program, v, restoreKeys.GetOr([])))]
      && ArtifactPath(cargo.path, program) in r.env.files
  {
  }

  /**
   * On a cache miss a successful install is followed by exactly one save
   * under the primary key; only a `ValidationError` from that save fails
   * the install, a `ReserveCacheError` or any other error is swallowed.
   */
  lemma MissInstallsThenSaves(w: World, e: Env, cargo: Cargo, program: string, version: Option<string>,
                              primaryKey: Option<string>, restoreKeys: Option<seq<string>>, v: string)
    requires EffectiveVersion(w, program, version) == Success(v)
    requires primaryKey.GetOr(DefaultPrimaryKey) != NoCache
    requires MatchKey(e.cache, [ArtifactPath(cargo.path, program)],
                      [ProgramKey(program, v, primaryKey.GetOr(DefaultPrimaryKey))]
                      + RestoreKeysFor(program, v, restoreKeys.GetOr([]))).None?
    requires w.exitCode(InstallCommand(e, cargo, program, v)) == 0
    ensures var key := ProgramKey(program, v, primaryKey.GetOr(DefaultPrimaryKey));
      var r := InstallRun(w, e, cargo, program, version, primaryKey, restoreKeys);
      && r.env.trace == e.trace + [InstallCommand(e, cargo, program, v)]
      && r.env.cacheLog == e.cacheLog + [Restore(key, RestoreKeysFor(program, v, restoreKeys.GetOr([]))), Save(key)]
      && r.env.cache == (if w.saveFailure(key).None? then e.cache[key := [ArtifactPath(cargo.path, program)]] else e.cache)
      && r.outcome == (if w.saveFailure(key) == Some(ValidationError) then Failure(CacheError(ValidationError))
                       else Success(program))
  {
  }

  /** A failing install command is passed on and nothing is saved. */
  lemma FailedInstallIsNotSaved(w: World, e: Env, cargo: Cargo, program: string, version: Option<string>,
                                primaryKey: Option<string>, restoreKeys: Option<seq<string>>, v: string)
    requires EffectiveVersion(w, program, version) == Success(v)
    requires primaryKey.GetOr(DefaultPrimaryKey) == NoCache
             || MatchKey(e.cache, [ArtifactPath(cargo.path, program)],
                         [ProgramKey(program, v, primaryKey.GetOr(DefaultPrimaryKey))]
                         + RestoreKeysFor(program, v, restoreKeys.GetOr([]))).None?
    requires w.exitCode(InstallCommand(e, cargo, program, v)) != 0
    ensures var r := InstallRun(w, e, cargo, program, version, primaryKey, restoreKeys);
      && r.outcome == Failure(ProcessFailed(InstallCommand(e, cargo, program, v), w.exitCode(InstallCommand(e, cargo, program, v))))
      && r.env.cache == e.cache
      && forall i :: |e.cacheLog| <= i < |r.env.cacheLog| ==> !r.env.cacheLog[i].Save?
  {
  }

  /**
   * Installing the same program, version and primary key a second time,
   * after a first install whose save went through, is served from the
   * cache: no install command runs again.
   */
  lemma SecondInstallHitsCache(w: World, e: Env, cargo: Cargo, program: string, version: Option<string>,
                               primaryKey: Option<string>, restoreKeys: Option<seq<string>>, v: string)
    requires EffectiveVersion(w, program, version) == Success(v)
    requires primaryKey.GetOr(DefaultPrimaryKey) != NoCache
    requires w.saveFailure(ProgramKey(program, v, primaryKey.GetOr(DefaultPrimaryKey))).None?
    requires InstallRun(w, e, cargo, program, version, primaryKey, restoreKeys).outcome.Success?
    ensures var first := InstallRun(w, e, cargo, program, version, primaryKey, restoreKeys);
      var second := InstallRun(w, first.env, cargo, program, version, primaryKey, restoreKeys);
      && second.outcome == Success(program)
      && second.env.trace == first.env.trace
      && second.env.cache == first.env.cache
  {
  }

  /**
   * After a successful install through a cargo found on the search path,
   * the program itself is found on the search path.
   */
  lemma {:induction false} InstalledProgramIsOnPath(w: World, e: Env, cargo: Cargo, program: string, version: Option<string>,
                                                    primaryKey: Option<string>, restoreKeys: Option<seq<string>>)
    requires OnSearchPath(w, cargo.path, "cargo")
    requires '/' !in program
    ensures var r := InstallRun(w, e, cargo, program, version, primaryKey, restoreKeys);
      r.outcome.Success? ==> FindOnPath(w.pathDirs, r.env.files, program).Some?
  {
    var i :| 0 <= i < |w.pathDirs| && w.pathDirs[i] != "" && cargo.path == Join(w.pathDirs[i], "cargo");
    DirnameOfJoin(w.pathDirs[i], "cargo");
    assert ArtifactPath(cargo.path, program) == Join(w.pathDirs[i], program);
  }
}
