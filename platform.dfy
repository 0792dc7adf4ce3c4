/**
 * The GitHub Actions primitives the installers are built on: `io.which`,
 * `exec.exec`, `cache.restoreCache`/`cache.saveCache`, `process.cwd`/
 * `process.chdir` and the crates.io lookup. None of them is part of the
 * installers; here they act on an explicit environment (`Env`) and consult
 * fixed oracles (`World`) for everything the runner decides on its own:
 * the search path, child exit codes, registry replies, cache-save failures.
 */
module Platform {
  import opened Wrappers

  /** One child process started through `exec.exec`: executable, argument vector, working directory. */
  datatype Command = Command(path: string, args: seq<string>, cwd: string)

  /** One request that reached the cache store, in the order it was made. */
  datatype CacheCall = Restore(key: string, restoreKeys: seq<string>) | Save(key: string)

  /** The `name` of an error thrown by `cache.saveCache`. */
  datatype CacheErrorName = ValidationError | ReserveCacheError | OtherCacheError

  /** What `getJson` yields for a crates.io crate URL: no `result` at all, or a crate whose `newest_version` may be missing. */
  datatype RegistryReply = NoResult | Crate(newestVersion: Option<string>)

  /** The errors the installers throw or let through. */
  datatype Error =
    | NotFound(tool: string)                         // `io.which(tool, true)` found nothing
    | RegistryUnavailable(crate: string)             // 'Unable to fetch latest crate version'
    | ProcessFailed(command: Command, exitCode: int) // `exec.exec` rejects a non-zero exit
    | CacheError(name: CacheErrorName)               // a cache-save error passed on to the caller

  /** What the runner decides and the installers cannot influence. */
  datatype World = World(
    pathDirs: seq<string>,                        // the entries of PATH, in search order
    tmpdir: string,                               // `os.tmpdir()`
    registry: string -> RegistryReply,            // reply to a GET of a URL
    exitCode: Command -> int,                     // exit code of a child process
    saveFailure: string -> Option<CacheErrorName>) // what `saveCache` throws for a key, if anything

  /**
   * The state the installers change: the process working directory, the
   * files on disk, the cache store (key to the list of saved paths), every
   * child process started and every cache request made.
   */
  datatype Env = Env(
    cwd: string,
    files: set<string>,
    cache: map<string, seq<string>>,
    trace: seq<Command>,
    cacheLog: seq<CacheCall>)

  /** The outcome of an operation together with the environment it leaves. */
  datatype Run<T> = Run(outcome: Result<T, Error>, env: Env)

  /** What `restoreCache` returns (the matched key, if any) and the environment it leaves. */
  datatype Restored = Restored(hit: Option<string>, env: Env)

  /** What `saveCache` throws (if anything) and the environment it leaves. */
  datatype Saved = Saved(failure: Option<CacheErrorName>, env: Env)

  /** `path.join(dir, name)` for a directory and a plain file name. */
  function Join(dir: string, name: string): string {
    dir + "/" + name
  }

  /** Index of the last '/' in `s`, or -1 when there is none. */
  function LastSlash(s: string): (k: int)
    ensures -1 <= k < |s|
    ensures k >= 0 ==> s[k] == '/'
    ensures forall j :: k < j < |s| ==> s[j] != '/'
  {
    if s == [] then -1
    else if s[|s| - 1] == '/' then |s| - 1
    else LastSlash(s[..|s| - 1])
  }

  /** `path.dirname(p)` for a path without trailing separators. */
  function Dirname(p: string): string {
    var k := LastSlash(p);
    if k == -1 then "." else if k == 0 then "/" else p[..k]
  }

  /** Taking the directory of a joined path gives back the directory joined. */
  lemma {:induction false} DirnameOfJoin(dir: string, name: string)
    requires dir != "" && '/' !in name
    ensures Dirname(Join(dir, name)) == dir
  {
    var p := Join(dir, name);
    var k := LastSlash(p);
    assert p[|dir|] == '/';
    assert k == |dir|;
    assert p[..k] == dir;
  }

  /**
   * The search `io.which` performs: the first non-empty PATH entry that
   * holds a file called `name` (empty entries are skipped).
   */
  function FindOnPath(dirs: seq<string>, files: set<string>, name: string): (r: Option<string>)
    ensures r.Some? ==> r.value in files
    ensures r.Some? ==> exists i :: 0 <= i < |dirs| && dirs[i] != "" && r.value == Join(dirs[i], name)
                                  && forall j :: 0 <= j < i && dirs[j] != "" ==> Join(dirs[j], name) !in files
    ensures r.None? <==> forall i :: 0 <= i < |dirs| && dirs[i] != "" ==> Join(dirs[i], name) !in files
  {
    if dirs == [] then None
    else if dirs[0] != "" && Join(dirs[0], name) in files then Some(Join(dirs[0], name))
    else
      FindOnPath(dirs[1..], files, name)
  }

  /** `io.which(tool, true)`: the resolved path, or a failure when the tool is not on the search path. */
  function WhichIn(w: World, e: Env, tool: string): Result<string, Error> {
    match FindOnPath(w.pathDirs, e.files, tool)
    case Some(p) => Success(p)
    case None => Failure(NotFound(tool))
  }

  /**
   * `exec.exec(path, args, { ignoreReturnCode })`: the child runs in the
   * current directory and is recorded; a non-zero exit is thrown unless
   * `ignoreReturnCode` is set, otherwise the exit code is returned.
   */
  function ExecStep(w: World, e: Env, path: string, args: seq<string>, ignoreReturnCode: bool): Run<int> {
    var cmd := Command(path, args, e.cwd);
    var code := w.exitCode(cmd);
    Run(if code != 0 && !ignoreReturnCode then Failure(ProcessFailed(cmd, code)) else Success(code),
        e.(trace := e.trace + [cmd]))
  }

  /**
   * The first of `keys` whose cache entry was saved for exactly `paths`
   * (the cache store versions its entries by their path list).
   */
  function MatchKey(cache: map<string, seq<string>>, paths: seq<string>, keys: seq<string>): (r: Option<string>)
    ensures r.Some? ==> r.value in keys && r.value in cache && cache[r.value] == paths
    ensures r.None? ==> forall i :: 0 <= i < |keys| ==> !(keys[i] in cache && cache[keys[i]] == paths)
  {
    if keys == [] then None
    else if keys[0] in cache && cache[keys[0]] == paths then Some(keys[0])
    else MatchKey(cache, paths, keys[1..])
  }

  /** The set of paths in a path list. */
  function Elements(paths: seq<string>): set<string> {
    set p | p in paths
  }

  /**
   * `cache.restoreCache(paths, key, restoreKeys)`: looks the keys up in
   * listed order and, on a hit, writes the saved files back to `paths`.
   */
  function RestoreStep(e: Env, paths: seq<string>, key: string, restoreKeys: seq<string>): Restored {
    var logged := e.(cacheLog := e.cacheLog + [Restore(key, restoreKeys)]);
    var hit := MatchKey(e.cache, paths, [key] + restoreKeys);
    if hit.Some? then Restored(hit, logged.(files := logged.files + Elements(paths)))
    else Restored(None, logged)
  }

  /** `cache.saveCache(paths, key)`: stores `paths` under `key` unless the store throws. */
  function SaveStep(w: World, e: Env, paths: seq<string>, key: string): Saved {
    var logged := e.(cacheLog := e.cacheLog + [Save(key)]);
    var failure := w.saveFailure(key);
    Saved(failure, if failure.None? then logged.(cache := logged.cache[key := paths]) else logged)
  }

  /** The runner process, as the installers see and change it. */
  class Host {
    const world: World
    var cwd: string
    var files: set<string>
    var cache: map<string, seq<string>>
    var trace: seq<Command>
    var cacheLog: seq<CacheCall>

    /** The current state as a value. */
    function State(): Env
      reads this
    {
      Env(cwd, files, cache, trace, cacheLog)
    }

    constructor (world: World, cwd: string, files: set<string>, cache: map<string, seq<string>>)
      ensures this.world == world
      ensures State() == Env(cwd, files, cache, [], [])
    {
      this.world := world;
      this.cwd := cwd;
      this.files := files;
      this.cache := cache;
      this.trace := [];
      this.cacheLog := [];
    }

    /** `io.which(tool, true)`. */
    method Which(tool: string) returns (r: Result<string, Error>)
      ensures r == WhichIn(world, State(), tool)
    {
      var found := FindOnPath(world.pathDirs, files, tool);
      if found.Some? {
        r := Success(found.value);
      } else {
        r := Failure(NotFound(tool));
      }
    }

    /** `process.cwd()`. */
    method Cwd() returns (dir: string)
      ensures dir == cwd
    {
      dir := cwd;
    }

    /** `process.chdir(dir)`. */
    method Chdir(dir: string)
      modifies this
      ensures State() == old(State()).(cwd := dir)
    {
      cwd := dir;
    }

    /** `exec.exec(path, args, { ignoreReturnCode })`. */
    method Exec(path: string, args: seq<string>, ignoreReturnCode: bool) returns (r: Result<int, Error>)
      modifies this
      ensures Run(r, State()) == ExecStep(world, old(State()), path, args, ignoreReturnCode)
    {
      var cmd := Command(path, args, cwd);
      trace := trace + [cmd];
      var code := world.exitCode(cmd);
      if code != 0 && !ignoreReturnCode {
        r := Failure(ProcessFailed(cmd, code));
      } else {
        r := Success(code);
      }
    }

    /** The file a child process leaves behind (the binary `cargo install` writes). */
    method PlaceFile(path: string)
      modifies this
      ensures State() == old(State()).(files := old(files) + {path})
    {
      files := files + {path};
    }

    /** `cache.restoreCache(paths, key, restoreKeys)`. */
    method RestoreCache(paths: seq<string>, key: string, restoreKeys: seq<string>) returns (hit: Option<string>)
      modifies this
      ensures Restored(hit, State()) == RestoreStep(old(State()), paths, key, restoreKeys)
    {
      cacheLog := cacheLog + [Restore(key, restoreKeys)];
      hit := MatchKey(cache, paths, [key] + restoreKeys);
      if hit.Some? {
        files := files + Elements(paths);
      }
    }

    /** `cache.saveCache(paths, key)`: the name of the error it throws, if any. */
    method SaveCache(paths: seq<string>, key: string) returns (failure: Option<CacheErrorName>)
      modifies this
      ensures Saved(failure, State()) == SaveStep(world, old(State()), paths, key)
    {
      cacheLog := cacheLog + [Save(key)];
      failure := world.saveFailure(key);
      if failure.None? {
        cache := cache[key := paths];
      }
    }
  }
}
