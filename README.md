# rs-actions-core tool acquisition, modelled in Dafny

This project models how the rs-actions-core GitHub Actions helpers acquire
two cargo tools, `cross` and `cargo-hack`, during a CI run. The model covers:

- formatting the toolchain argument (`cargoToolchainArg`) and putting it in
  front of cargo's arguments (`callArgs`);
- building the `cargo install [--version v] program` vector;
- the cached install `Cargo.install`. It resolves the version and derives the
  cache key `program-version-primaryKey` and the restore keys. It skips the
  cache for `no-cache`, returns early on a restore hit, otherwise installs and
  then saves. A save `ValidationError` is passed on; every other save error is
  swallowed;
- the `get` / `install` / `getOrInstall` / `call` wrappers of `Cross` and
  `CargoHack`. This includes `Cross.install`'s move into the temporary
  directory, which is undone on every exit.

Files:

- `wrappers.dfy`: `Option` (TypeScript's `undefined`) and `Result` (a return or a throw).
- `platform.dfy`: the runner primitives the code calls: `io.which`, `exec.exec`,
  `cache.restoreCache`, `cache.saveCache`, `process.cwd`, `process.chdir`. The
  state they change is an explicit `Env`: working directory, files, cache
  store, the list of child processes started and the list of cache requests.
  The `Host` class holds that state in fields. What the runner decides on its
  own is a fixed `World` of oracles: the PATH entries, `os.tmpdir()`, the
  crates.io reply for a URL, the exit code of a child, and what `saveCache`
  throws for a key.
- `cargo.dfy`, `cross.dfy`, `cargo_hack.dfy`: one module per source file.

Each operation that changes state is a method that takes the `Host` and
calls its primitives. Its postcondition equates its outcome and the new
state with a pure `...Run` function of the old state. The properties are
stated on those functions and in lemmas about them.

Facts about the source that shape the model:

- The default primary key is the constant `rs-actions-core` for every
  tool. The tool name and the version are in the key prefix.
- An empty version string counts as unpinned and is resolved, because
  `Cargo.install` tests `!version`.
- Only `Cross.install` moves into the temporary directory. `CargoHack.install`
  installs from the current directory.
- `Cross` and `CargoHack` carry no toolchain. `Cross.call` passes its arguments
  unchanged.
- `CargoHack.call` always puts the `hack` sub-command in front of the arguments.
- With the primary key `no-cache`, no save is attempted, so no cache-save
  error can arise on that path.
- `CargoHack.install` calls `cargo.installCached`, which `Cargo` does not define.
  It is modelled as `Cargo.install('cargo-hack', version)` with the default keys.
- The tests call `Cross.install(options)` and `CargoHack.getOrInstall(options)`
  with an options object. The model keeps the positional signatures of the source.

## Model

| member | source | states |
|---|---|---|
| `CargoCommand.CargoToolchainArg` | src/commands/cargo.ts:15-21 | result is "" exactly when the toolchain is undefined or empty; otherwise it starts with '+' and what follows is the toolchain without its own leading '+' |
| `CargoCommand.ToolchainArgIdempotent` | src/commands/cargo.ts:20 | formatting an already formatted argument returns it unchanged |
| `CargoCommand.ToolchainArgExamples` | src/commands/cargo.ts:15-21 | undefined and "" give "", "nightly" gives "+nightly", "+beta" stays "+beta" |
| `CargoCommand.CallArgs` | src/commands/cargo.ts:156-158 | with no toolchain the arguments are returned as they are; otherwise the toolchain comes first, followed by the arguments in their order |
| `CargoCommand.InstallArgs` | src/commands/cargo.ts:164-169 | vector starts with `install` and ends with the program; `--version v` sits between them exactly when v is not 'latest' |
| `CargoCommand.InstallArgsRoundTrip` | src/commands/cargo.ts:164-169 | reading the vector back gives the program, plus the version when it was not 'latest' |
| `CargoCommand.ResolveVersion` | src/commands/cargo.ts:29-43 | fails exactly when the crates.io reply for the crate URL has no result; otherwise gives its possibly missing newest version |
| `CargoCommand.EffectiveVersion` | src/commands/cargo.ts:99-101 | a pinned version is kept; an undefined, empty or 'latest' one becomes the resolved version ('' if none is named), and resolution failure is a failure; the literal 'latest' survives only if the registry itself says 'latest' |
| `CargoCommand.RestoreKeysFor` | src/commands/cargo.ts:106-108 | same length as the suffix list, element i is `program-version-suffix[i]` |
| `CargoCommand.KeysShareVersionPrefix` | src/commands/cargo.ts:105-108 | primary and restore keys all start with `program-version-`, followed by the caller's suffix |
| `CargoCommand.ProgramKeyInjective` | src/commands/cargo.ts:105 | for one program and version, two keys are equal exactly when their suffixes are |
| `Platform.DirnameOfJoin` | src/commands/cargo.ts:104 | the directory of `dir/name` is `dir`, so the cached path sits in cargo's own directory |
| `Platform.FindOnPath` | src/commands/cargo.ts:61 | the `io.which` search: a result is an existing file in the first non-empty PATH entry that holds the name (no earlier non-empty entry holds it); there is no result exactly when no non-empty entry holds the name |
| `CargoCommand.Located` | src/commands/cargo.ts:59-75 | `Cargo.get` fails with not-found exactly when cargo is not on the search path; the handle carries the formatted toolchain and the path `FindOnPath` returns |
| `CargoCommand.Get` | src/commands/cargo.ts:59-75 | the method returns `Located` of the current state and fails exactly when cargo is not on the search path |
| `CargoCommand.Call` | src/commands/cargo.ts:149-154 | runs cargo's path with the toolchain-prefixed arguments as one recorded child process |
| `CargoCommand.CargoInstallRun` | src/commands/cargo.ts:160-179 | exactly one child `cargo <toolchain> install [--version v] program` runs in the current directory; success means exit code 0, returns the program and leaves the binary next to cargo; cache untouched |
| `CargoCommand.CargoInstall` | src/commands/cargo.ts:160-179 | the method builds the vector by pushes and matches `CargoInstallRun` |
| `CargoCommand.InstallRun` | src/commands/cargo.ts:93-140 | keeps the working directory; runs at most one child, in the current directory; success returns the program with its binary in place |
| `CargoCommand.Install` | src/commands/cargo.ts:93-140 | the method, with its reassignments, early return and save-error classification, matches `InstallRun` |
| `CargoCommand.ResolutionFailureChangesNothing` | src/commands/cargo.ts:99-101 | a failed resolution aborts with the registry error and changes nothing |
| `CargoCommand.CacheKeyUsesEffectiveVersion` | src/commands/cargo.ts:99-115 | when caching is on, the first cache request is a restore under `program-v-pk` with the mapped restore keys, where v is the effective version and pk defaults to `rs-actions-core` |
| `CargoCommand.NoCacheBypassesCache` | src/commands/cargo.ts:110-124 | with `no-cache` there are no cache requests, the cache does not change, and exactly one install command runs |
| `CargoCommand.RestoreHitReturnsEarly` | src/commands/cargo.ts:110-119 | on a restore hit the program is returned with no install command, no save, and the binary restored |
| `CargoCommand.MissInstallsThenSaves` | src/commands/cargo.ts:122-139 | after a miss and a successful install, exactly one install command and one save under the primary key happen; only a ValidationError fails the call, reserve and other errors return the program |
| `CargoCommand.FailedInstallIsNotSaved` | src/commands/cargo.ts:122-124 | a failing install command is passed on, no save is attempted and the cache is unchanged |
| `CargoCommand.SecondInstallHitsCache` | src/commands/cargo.ts:99-127 | after a successful install whose save went through, the same install again is served from the cache with no new child process |
| `CargoCommand.InstalledProgramIsOnPath` | src/commands/cargo.ts:104-122 | with cargo found on the search path, a successful install leaves the program findable on the search path |
| `CrossCommand.Located` | src/commands/cross.ts:35-39 | `Cross.get` fails with not-found exactly when `cross` is not on the search path; otherwise the handle holds the path `FindOnPath` returns |
| `CrossCommand.Get` | src/commands/cross.ts:35-39 | the method returns `Located` of the current state and fails exactly when `cross` is absent |
| `CrossCommand.InstallRun` | src/commands/cross.ts:47-75 | on every outcome the working directory afterwards equals the one before; every child process started during the install ran in the temporary directory |
| `CrossCommand.Install` | src/commands/cross.ts:47-75 | the method saves the directory, changes to the temporary directory, changes back on success and failure, and matches `InstallRun` |
| `CrossCommand.InstallDelegates` | src/commands/cross.ts:62-69 | delegates to `Cargo.install('cross', version, primaryKey, restoreKeys)` with the arguments unchanged, from the temporary directory; the handle's path is the returned path |
| `CrossCommand.InstallNeedsCargo` | src/commands/cross.ts:52 | without cargo on the search path the install fails with not-found before anything changes |
| `CrossCommand.GetAfterInstall` | src/commands/cross.ts:47-75 | after a successful install, `get` succeeds |
| `CrossCommand.GetOrInstallRun` | src/commands/cross.ts:19-29 | if `cross` is found, it is returned and nothing changes; otherwise the result is `install('latest', primaryKey, restoreKeys)` with the caller's keys |
| `CrossCommand.GetOrInstall` | src/commands/cross.ts:19-29 | the method matches `GetOrInstallRun` |
| `CrossCommand.GetOrInstallLeavesCrossFound` | src/commands/cross.ts:19-29 | whichever branch succeeds, `cross` is on the search path afterwards |
| `CrossCommand.Call` | src/commands/cross.ts:80-85 | runs `cross` with the arguments unchanged: no toolchain, no prefix |
| `CargoHackCommand.Located` | src/commands/cargoHack.ts:23-27 | `CargoHack.get` fails with not-found exactly when `cargo-hack` is not on the search path; otherwise the handle holds the path `FindOnPath` returns |
| `CargoHackCommand.Get` | src/commands/cargoHack.ts:23-27 | the method returns `Located` of the current state and fails exactly when `cargo-hack` is absent |
| `CargoHackCommand.InstallRun` | src/commands/cargoHack.ts:29-38 | keeps the working directory, runs at most one child, and on success `get` succeeds afterwards |
| `CargoHackCommand.Install` | src/commands/cargoHack.ts:29-38 | the method matches `InstallRun` |
| `CargoHackCommand.InstallDelegates` | src/commands/cargoHack.ts:33-34 | installs program `cargo-hack` with the version passed through and the default keys; the handle wraps the returned path |
| `CargoHackCommand.GetOrInstallRun` | src/commands/cargoHack.ts:14-21 | if `cargo-hack` is found, it is returned and nothing changes; otherwise the result is `install()` with no version; success leaves it findable |
| `CargoHackCommand.GetOrInstall` | src/commands/cargoHack.ts:14-21 | the method matches `GetOrInstallRun` |
| `CargoHackCommand.FallbackResolvesNewest` | src/commands/cargoHack.ts:17-19 | the fallback install uses the registry's newest version, and its first cache request is a restore of `cargo-hack-<newest>-rs-actions-core` |
| `CargoHackCommand.HackArgs` | src/commands/cargoHack.ts:44-46 | the vector is `hack` followed by the arguments: length is one more, order is kept |
| `CargoHackCommand.Call` | src/commands/cargoHack.ts:40-47 | runs `cargo-hack` with the `hack`-prefixed vector |

## Left out

- Logging and grouping (`core.info`, `core.debug`, `core.error`, `startGroup`, `endGroup`): they have no effect on outcomes.
- The HTTP client of `resolveVersion`: the reply for a URL is an oracle. A reply whose `result` has no `crate` (a TypeError in the source) is not modelled.
- `restoreCache` throwing (for example a validation error on restore): restore is modelled as never failing.
- Backend key matching: restore keys match only exactly, not by prefix. A cache entry matches only when it was saved for the same path list.
- `exec.exec` options other than `ignoreReturnCode` (`failOnStdErr`, stdio handling), and a child that cannot be spawned: a child only has an exit code.
- What `cargo install` does on disk beyond leaving the binary next to cargo: the build itself is not modelled.
- `io.which` details: executable-bit and Windows `PATHEXT` checks, and names that contain a separator.
- `path.join` normalisation, and `path.dirname` on paths with trailing separators.
- Concurrency: two installers sharing the process directory or a cache key. The model is sequential, so a reserve conflict is only an oracle answer.
- `src/checks.ts`, the GitHub Checks API wrapper: it is not part of this model.
