# pak package-manager adapters, modelled in Dafny

pak runs npm and yarn on behalf of a program through one interface per package
manager. The interface covers install, uninstall, update, rebuild, detect,
version, overrideDependencies and pack. This project models the four adapters
behind that interface:

- **npm**, including its package-lock.json override patcher.
- **yarn classic** (yarn 1).
- **yarn berry** (yarn 2 to 4).
- **legacy yarn**.

Each adapter is turned into the argument vector it hands to the package
manager, or the file edits it makes, or the failure it reports. Proofs then
tie each of these to the behaviour the adapter promises.

Modules (one per file):

- `Common` (common.dfy) holds what the adapters share:
  - the `CommandResult` record and the failure record `Fail`;
  - the option records;
  - JavaScript truthiness;
  - `path.join` for the shapes the adapters produce;
  - `indexOf`, `lastIndexOf` and `substr`;
  - the tarball file name rule;
  - the yarn `resolutions` merge and yarn's `setLoglevel`;
  - the version prefix rules;
  - the version error message.
- `Host` (host.dfy) is the world the adapters act on:
  - the package.json and package-lock.json files, as maps from path to document;
  - the process runner, the root finder and the npm registry, given as functions;
  - a ghost trace of every effect, so that the order in which files are written and commands run can be stated.
- `NpmLockfile` (npm_lockfile.dfy) is the override patcher:
  - the nested `dependencies` tree of lockfile versions 1 and 2 is a recursive datatype; the flat `packages` map of versions 2 and 3 is a map;
  - `overrideV1` and `overrideV2` are functions;
  - each walk is specified by a function (`WalkV1`, `WalkV2`) together with the set of package.json paths it reports (`AffectedV1`, `AffectedV2`);
  - each walk is implemented by a method that keeps the source's loops and its shared set;
  - idempotence is proved for each walk and for the whole patch.
- `NpmAdapter` (npm.dfy):
  - the `/.+@\d+/` pin test, as a scanning method proved equal to the regex's meaning;
  - the argument vectors and their flag lemmas;
  - `class Npm`, with the operations as methods over `cwd`, `loglevel`, `environment` and the host. `overrideDependencies` is specified completely: every failure path, the state after success, and the order of the writes.
- `YarnClassicAdapter`, `YarnBerryAdapter` and `YarnAdapter` (yarn_classic.dfy, yarn_berry.dfy, yarn.dfy): one class per adapter, with each argv as a function. Lemmas state which words each argv contains and which options it ignores.

How JavaScript behaviour is rendered:

- An operation promises a `CommandResult`. When it can instead reject (a thrown error), the model returns an `Outcome`: `Settled(result)` or `Rejected(reason)`.
- `${x}` on a missing member prints "undefined" (`TemplateText`).
- `a ?? b` and object spread become `Option` handling and map union.
- A failed `readJson` becomes a missing map entry. The error message for that path is the host's `readError`.

## Model

| member | source | states |
|---|---|---|
| `Common.Fail` | src/lib/package-managers/yarn-classic/index.ts:155-162 | the failure record: not successful, exit code 1, empty stdout, the message as both stderr and stdall |
| `Common.PushAll` | src/lib/package-managers/yarn-classic/index.ts:35 | pushing a list onto the argv, element by element, appends exactly that list |
| `Common.Join` | src/lib/package-managers/npm/index.ts:429 | an empty or "." segment leaves the directory as it is; otherwise a single "/" separates the two parts |
| `Common.IndexOfChar` | src/lib/package-managers/npm/index.ts:466 | -1 exactly when the character is absent; otherwise the index of its first occurrence |
| `Common.ReplaceFirst` | src/lib/package-managers/npm/index.ts:466 | only the first occurrence of the character is replaced, and the string is unchanged when there is none |
| `Common.TarballNameScoped` | src/lib/package-managers/npm/index.ts:465-471 | `@scope/pkg` at version v gives `scope-pkg-v.tgz` |
| `Common.TarballNameUnscoped` | src/lib/package-managers/yarn-berry/index.ts:185-192 | a name without a slash or leading `@` is kept: `name-v.tgz` |
| `Common.TarballNameExample` | test/e2e/npm.test.ts:168-185 | `@scope/test` at `0.0.1-beta.0+1234` gives `scope-test-0.0.1-beta.0+1234.tgz` |
| `Common.MergeResolutions` | src/lib/package-managers/yarn-classic/index.ts:143-147 | the merged keys are the requested keys plus the existing ones; a requested entry wins; every other existing entry is kept |
| `Common.WithResolutions` | src/lib/package-managers/yarn-berry/index.ts:143-148 | `resolutions` becomes the merge; name, version, dependencies and every other member are unchanged |
| `Common.MergeResolutionsIdempotent` | src/lib/package-managers/yarn/index.ts:136-141 | merging the same request twice equals merging it once |
| `Common.WithResolutionsIdempotent` | src/lib/package-managers/yarn/index.ts:136-141 | overriding the root package.json twice with the same request equals doing it once |
| `Common.YarnLoglevelArgs` | src/lib/package-managers/yarn-classic/index.ts:12-16 | a flag is added exactly for the levels silent and verbose, and it is `--silent` or `--verbose` |
| `Common.SetLoglevel` | src/lib/package-managers/yarn/index.ts:13-17 | the in-place push appends exactly that flag to the argv |
| `Common.VersionRulesExclusive` | src/lib/package-managers/yarn-berry/index.ts:106-113 | no version string is accepted both by classic's "1." rule and by berry's "2."/"3."/"4." rule |
| `Common.LastIndexOf` | src/lib/package-managers/npm/index.ts:145 | -1 or an index where the pattern occurs, and the pattern occurs at no greater index |
| `Common.Substr` | src/lib/package-managers/npm/index.ts:145 | the suffix from the start index; empty when the start is at or past the end |
| `Host.Host.Exec` | src/lib/package-managers/yarn-classic/index.ts:20-22 | a command's result is the runner's result for that binary, argv and directory; the run is recorded and no file changes |
| `Host.Host.ReadManifest` | src/lib/package-managers/npm/index.ts:382-384 | succeeds exactly for a package.json that exists, giving its content |
| `Host.Host.ReadLockfile` | src/lib/package-managers/npm/index.ts:326-328 | succeeds exactly for a package-lock.json that exists, giving its content |
| `Host.Host.WriteManifest` | src/lib/package-managers/npm/index.ts:395-398 | that one file is replaced and the write is recorded |
| `Host.Host.WriteLockfile` | src/lib/package-managers/npm/index.ts:403-406 | that one lockfile is replaced and the write is recorded |
| `Host.Host.EnsureDir` | src/lib/package-managers/npm/index.ts:434 | no package file changes; the directory creation is recorded |
| `Host.Host.Move` | src/lib/package-managers/npm/index.ts:483 | no package file changes; the move is recorded |
| `NpmLockfile.OverrideV1` | src/lib/package-managers/npm/index.ts:54-70 | version and `requires` come from the override. A truthy tarball is replaced alone. Otherwise `resolved` gets the override's tarball, and integrity is replaced only by a truthy one and otherwise kept. The subtree and other members are unchanged |
| `NpmLockfile.OverrideV2` | src/lib/package-managers/npm/index.ts:72-89 | like OverrideV1, except that `dependencies` is set and, on the `resolved` path, integrity is deleted when the override has none. The name and other members are unchanged |
| `NpmLockfile.PinVersions` | src/lib/package-managers/npm/index.ts:109-114 | same keys; every overridden name gets the override's version; every other entry is unchanged |
| `NpmLockfile.RewriteVersions` | src/lib/package-managers/npm/index.ts:154-160 | the loop over the overrides yields the pinned map, and `wasChanged` holds exactly when some override is named in the map |
| `NpmLockfile.WalkV1` | src/lib/package-managers/npm/index.ts:97-98 | an absent `dependencies` stays absent; a present one keeps its key set |
| `NpmLockfile.WalkLockfileV1` | src/lib/package-managers/npm/index.ts:91-132 | the loop yields the walked tree, and adds to the shared set exactly the paths the walk reports |
| `NpmLockfile.WalkLockfileV1Entry` | src/lib/package-managers/npm/index.ts:99-130 | an overridden entry is replaced and adds nothing. Any other entry has its `requires` pinned, reports `<dir>/node_modules/<dep>/package.json` exactly when that changed something, and is walked one level deeper |
| `NpmLockfile.WalkV2` | src/lib/package-managers/npm/index.ts:140-142 | an absent `packages` stays absent; a present one keeps its key set |
| `NpmLockfile.WalkLockfileV2V3` | src/lib/package-managers/npm/index.ts:134-167 | the loop yields the walked map, and adds to the shared set exactly the paths the walk reports |
| `NpmLockfile.WalkLockfileV2V3Entry` | src/lib/package-managers/npm/index.ts:143-165 | an entry whose name is overridden is replaced through OverrideV2. Otherwise its dependencies are pinned, and `<dir>/<key>/package.json` is reported exactly when that changed something |
| `NpmLockfile.PackageNameOfInstalledKey` | src/lib/package-managers/npm/index.ts:144-145 | an entry without `name` under `node_modules/` is named by what follows the last `node_modules/`, scoped names (`@types/node`) included, for any name that does not itself hold `node_modules/` |
| `NpmLockfile.PackageNameOfScopedKeyExample` | src/lib/package-managers/npm/index.ts:144-145 | the key `node_modules/@types/node` names `@types/node` |
| `NpmLockfile.PackageNameOfOtherKey` | src/lib/package-managers/npm/index.ts:144-145 | an entry without `name` whose key has no `node_modules/` is named by the key minus its first 12 characters |
| `NpmLockfile.PatchLockfile` | src/lib/package-managers/npm/index.ts:358-377 | the version and other members are kept; version 1 leaves `packages` alone and version 3 leaves `dependencies` alone |
| `NpmLockfile.AffectedManifests` | src/lib/package-managers/npm/index.ts:356-357 | the root package.json is always among the affected paths; beyond it, version 1 adds the nested walk's files, version 3 the flat walk's, and version 2 both |
| `NpmLockfile.PinVersionsIdempotent` | src/lib/package-managers/npm/index.ts:109-114 | pinning twice equals pinning once, and does not change which overrides the map names |
| `NpmLockfile.WalkV1Idempotent` | src/lib/package-managers/npm/index.ts:91-132 | walking the nested tree again changes nothing and reports the same paths (for non-empty registry tarballs) |
| `NpmLockfile.WalkV1EntryIdempotent` | src/lib/package-managers/npm/index.ts:99-130 | the same, for one entry |
| `NpmLockfile.WalkV1NoOverrides` | src/lib/package-managers/npm/index.ts:91-132 | with no overrides the nested walk leaves the tree alone and reports nothing |
| `NpmLockfile.WalkV2Idempotent` | src/lib/package-managers/npm/index.ts:134-167 | walking the flat map again changes nothing and reports the same paths |
| `NpmLockfile.PatchLockfileIdempotent` | src/lib/package-managers/npm/index.ts:355-377 | patching a patched lockfile gives the same lockfile and the same affected package.json files |
| `NpmAdapter.ExactVersionIff` | src/lib/package-managers/npm/index.ts:16 | the regex matches exactly when some `@` at index 1 or later follows a character other than a line terminator and is followed by a digit |
| `NpmAdapter.TestExactVersion` | src/lib/package-managers/npm/index.ts:16 | the scan answers exactly what the regex test answers |
| `NpmAdapter.SomeExactVersion` | src/lib/package-managers/npm/index.ts:206 | true exactly when some package matches the regex |
| `NpmAdapter.ExactVersionExamples` | src/lib/package-managers/npm/index.test.ts:127-133 | `whatever@1.2.3` and `@scope/pkg@2` are pinned; `whatever` and `@1` are not |
| `NpmAdapter.InstallHeadFlags` | src/lib/package-managers/npm/index.ts:202-213 | each flag before the packages is present exactly when its option asks for it; `--production` and `--ignore-scripts` never are |
| `NpmAdapter.InstallTailFlags` | src/lib/package-managers/npm/index.ts:216-223 | `--production` and `--ignore-scripts` come only without packages, and then exactly as the environment and the option ask |
| `NpmAdapter.InstallArgvEnds` | src/lib/package-managers/npm/index.ts:198-230 | the install argv starts with `install`, has the packages right after the flags, and ends with the additional arguments verbatim |
| `NpmAdapter.InstallArgvFlags` | src/lib/package-managers/npm/index.ts:198-230 | each of the seven flags is in the install argv exactly when its option asks for it |
| `NpmAdapter.InstallArgvExample` | src/lib/package-managers/npm/index.test.ts:41-46 | no options and `["whatever"]` give exactly `["install", "whatever"]` |
| `NpmAdapter.InstallArgvPinnedExample` | src/lib/package-managers/npm/index.test.ts:127-133 | `whatever@1.2.3` gives `["install", "--save-exact", "whatever@1.2.3"]` |
| `NpmAdapter.InstallArgvProductionExample` | src/lib/package-managers/npm/index.ts:216-219 | installing no packages in production gives `["install", "--production"]` |
| `NpmAdapter.UpdateArgvFlags` | src/lib/package-managers/npm/index.ts:253-268 | update never emits `--save-exact` or `--global`, emits `-g` exactly when global, ignores exact and the additional arguments, and ends with the packages |
| `NpmAdapter.ResolveDependency` | src/lib/package-managers/npm/index.ts:25-52 | succeeds exactly when the registry document loads and lists that version, giving its record; otherwise one of the two error messages |
| `NpmAdapter.Resolved` | src/lib/package-managers/npm/index.ts:346-353 | the overrides cover exactly the requested dependencies, each being what resolveDependency yields for its requested version |
| `NpmAdapter.BumpPinsDependencies` | src/lib/package-managers/npm/index.ts:385-392 | a saved manifest has exactly its overridden dependencies set to the override's version, every other dependency kept and every other member unchanged |
| `NpmAdapter.BumpAll` | src/lib/package-managers/npm/index.ts:379-400 | the set of files is unchanged |
| `NpmAdapter.BumpAllBumpsVisited` | src/lib/package-managers/npm/index.ts:379-400 | a visited file whose dependencies name an override holds its bump; every other file is as it was |
| `NpmAdapter.BumpIdempotent` | src/lib/package-managers/npm/index.ts:385-399 | bumping a bumped manifest changes nothing, and it needs a write exactly when the original did |
| `NpmAdapter.UnsupportedLockfileAsWritten` | src/lib/package-managers/npm/index.ts:340-342 | as written, the unsupported-version failure rejects rather than settling with a failed result, and every message is lost |
| `NpmAdapter.Npm.Command` | src/lib/package-managers/npm/index.ts:171-195 | runs npm in the adapter's cwd; one run is recorded and no file changes |
| `NpmAdapter.Npm.Install` | src/lib/package-managers/npm/index.ts:198-230 | runs npm with the install argv (flags, packages, production/ignore-scripts only without packages, additional arguments) |
| `NpmAdapter.Npm.InstallFlags` | src/lib/package-managers/npm/index.ts:202-213 | the pushes before the packages build exactly the head of the install argv |
| `NpmAdapter.Npm.Uninstall` | src/lib/package-managers/npm/index.ts:232-251 | runs `uninstall [--save-dev] [--global] [--loglevel L] <packages> <additional>` |
| `NpmAdapter.Npm.Update` | src/lib/package-managers/npm/index.ts:253-268 | runs `update [--save-dev] [-g] [--loglevel L] <packages>` |
| `NpmAdapter.Npm.Rebuild` | src/lib/package-managers/npm/index.ts:270-278 | runs `rebuild [--loglevel L] <packages>` |
| `NpmAdapter.Npm.Detect` | src/lib/package-managers/npm/index.ts:280-293 | true exactly when a root (with package-lock.json, if required) is found; cwd moves to it only then and only when asked |
| `NpmAdapter.Npm.Version` | src/lib/package-managers/npm/index.ts:295-303 | the `-v` output on success, otherwise the "Could not detect npm version" message with stderr and exit code |
| `NpmAdapter.Npm.ResolveAll` | src/lib/package-managers/npm/index.ts:345-353 | succeeds exactly when every requested dependency resolves, giving their records; otherwise the message of one failed resolution |
| `NpmAdapter.Npm.UpdateManifest` | src/lib/package-managers/npm/index.ts:382-399 | a manifest is written, with its overridden dependencies pinned, exactly when it has dependencies naming an override |
| `NpmAdapter.Npm.UpdateManifests` | src/lib/package-managers/npm/index.ts:379-400 | the visited files are bumped and exactly the ones needing it are written. A missing file stops the loop with its read error. The root package.json, inserted into the set first, is visited first |
| `NpmAdapter.Npm.OverrideDependencies` | src/lib/package-managers/npm/index.ts:305-423 | root not found or lockfile unreadable: the loading failure, with nothing changed. Unsupported lockfile version: "Lockfile version N is not supported!", with nothing changed. A dependency that does not resolve: a failure carrying its message, with nothing changed. When an affected manifest cannot be read: "Error updating package files: " and its read error, the lockfile untouched, and the manifests visited before it (the root package.json first) already bumped and saved. Otherwise the affected manifests are bumped and exactly those needing it written; then the patched lockfile is written; then install and dedupe run in the root. Install's result is returned and cwd is restored |
| `NpmAdapter.Npm.OverrideDependenciesAsWritten` | src/lib/package-managers/npm/index.ts:305-423 | as written, with the bare `fail`: it settles exactly when the checks pass and every affected manifest is read, with the corrected operation's result and effects; on each of the four failure paths it rejects with "ReferenceError: fail is not defined", after the same effects |
| `NpmAdapter.Npm.Load` | src/lib/package-managers/npm/index.ts:319-353 | the failure of each check (root, lockfile read, version, resolution), or the root, lockfile and overrides for a supported version; it succeeds exactly when every check passes |
| `NpmAdapter.Npm.Apply` | src/lib/package-managers/npm/index.ts:355-422 | once the checks pass, the state after the writes, the install and the dedupe is the one Applied describes, including the manifests already saved when a later one cannot be read; `updated` holds exactly when every affected manifest is read |
| `NpmAdapter.Npm.Finish` | src/lib/package-managers/npm/index.ts:402-422 | the lockfile is written, then install and dedupe run in the root; install's result is returned and cwd is restored |
| `NpmAdapter.Npm.PatchAll` | src/lib/package-managers/npm/index.ts:355-377 | the two walks, run in the source's order on a set seeded with the root package.json, give PatchLockfile and AffectedManifests |
| `NpmAdapter.Npm.Pack` | src/lib/package-managers/npm/index.ts:425-494 | an unreadable npm version rejects. From npm 7 on, npm packs into the target directory. Before npm 7 a workspace other than "." fails with "does not support monorepos", and otherwise PackAndMove applies. cwd ends where it started |
| `NpmAdapter.Npm.PackInto` | src/lib/package-managers/npm/index.ts:432-452 | the target directory is made, then `npm pack --pack-destination` runs in the workspace; stdout becomes the joined path |
| `NpmAdapter.Npm.PackAndMove` | src/lib/package-managers/npm/index.ts:459-492 | the target directory is made first. A missing manifest or name rejects. Otherwise `npm pack` runs in the workspace, and a failed pack is returned as it is. On success the tarball is moved to `<targetDir>/<TarballName>` unless npm wrote it there, and stdout becomes that path |
| `YarnClassicAdapter.InstallWithPackagesIgnores` | src/lib/package-managers/yarn-classic/index.ts:32-43 | with packages, the environment, force and ignoreScripts do not change the argv |
| `YarnClassicAdapter.InstallWithoutPackagesIgnores` | src/lib/package-managers/yarn-classic/index.ts:43-54 | without packages, global, the dependency type and exact do not change the argv |
| `YarnClassicAdapter.InstallArgvWords` | src/lib/package-managers/yarn-classic/index.ts:27-62 | `add`, `global`, `--dev` and `--exact` appear only with packages and then exactly as asked; `install`, `--production`, `--ignore-scripts` and `--force` appear only without packages and then exactly as asked |
| `YarnClassicAdapter.GlobalInstallExample` | src/lib/package-managers/yarn-classic/index.test.ts:145-156 | a global install of `whatever` is `["global", "add", "whatever"]` |
| `YarnClassicAdapter.UpdateExample` | src/lib/package-managers/yarn-classic/index.test.ts:294-299 | an update of `whatever` is `["add", "whatever"]` |
| `YarnClassicAdapter.LoglevelOnlySilentOrVerbose` | src/lib/package-managers/yarn-classic/index.ts:55 | any other loglevel leaves the install and uninstall argvs as with no loglevel |
| `YarnClassicAdapter.YarnClassic.Command` | src/lib/package-managers/yarn-classic/index.ts:20-22 | runs yarn in the adapter's cwd; one run is recorded and no file changes |
| `YarnClassicAdapter.YarnClassic.Install` | src/lib/package-managers/yarn-classic/index.ts:27-62 | runs yarn with the install argv: the head for this case, the loglevel flag, then the additional arguments |
| `YarnClassicAdapter.YarnClassic.InstallHeadArgs` | src/lib/package-managers/yarn-classic/index.ts:31-54 | the pushes before the loglevel build exactly the head for this case |
| `YarnClassicAdapter.YarnClassic.Uninstall` | src/lib/package-managers/yarn-classic/index.ts:64-83 | runs `[global] remove <packages> [--dev] <loglevel flag> <additional>` |
| `YarnClassicAdapter.YarnClassic.Update` | src/lib/package-managers/yarn-classic/index.ts:85-92 | runs exactly what install runs |
| `YarnClassicAdapter.YarnClassic.Rebuild` | src/lib/package-managers/yarn-classic/index.ts:94-103 | fails with exit code 1, empty stdout, and the unsupported message as stderr and stdall; no command runs |
| `YarnClassicAdapter.YarnClassic.Pack` | src/lib/package-managers/yarn-classic/index.ts:175-177 | fails with the message that packing is unsupported; no command runs |
| `YarnClassicAdapter.YarnClassic.Detect` | src/lib/package-managers/yarn-classic/index.ts:105-120 | true exactly when a root is found and the version starts with "1.". The version is asked only once a root is found; cwd moves only on success when asked |
| `YarnClassicAdapter.YarnClassic.Version` | src/lib/package-managers/yarn-classic/index.ts:122-130 | the `-v` output on success, otherwise the "Could not detect yarn version" message |
| `YarnClassicAdapter.YarnClassic.OverrideDependencies` | src/lib/package-managers/yarn-classic/index.ts:132-173 | no root or unreadable package.json: the "updating root package.json" failure, with nothing written or run. Otherwise the resolutions are merged and written, install without packages runs in the root, and cwd is restored |
| `YarnBerryAdapter.InstallArgvWords` | src/lib/package-managers/yarn-berry/index.ts:25-57 | `add`, `--dev` and `--exact` appear only with packages and then exactly as asked; `install` only without packages; `--production` never |
| `YarnBerryAdapter.InstallWithoutPackages` | src/lib/package-managers/yarn-berry/index.ts:44-55 | without packages the argv is exactly `install` and the additional arguments |
| `YarnBerryAdapter.UninstallIgnoresDependencyType` | src/lib/package-managers/yarn-berry/index.test.ts:262-270 | uninstall never emits `--dev`, and the dependency type does not change its argv |
| `YarnBerryAdapter.UpdateExample` | src/lib/package-managers/yarn-berry/index.test.ts:301-306 | an update of `whatever` is `["add", "whatever"]` |
| `YarnBerryAdapter.YarnBerry.Command` | src/lib/package-managers/yarn-berry/index.ts:18-20 | runs yarn in the adapter's cwd; one run is recorded and no file changes |
| `YarnBerryAdapter.YarnBerry.Install` | src/lib/package-managers/yarn-berry/index.ts:25-57 | global: the "does not support global installs" failure with nothing run; otherwise the install argv runs, whatever the loglevel |
| `YarnBerryAdapter.YarnBerry.Uninstall` | src/lib/package-managers/yarn-berry/index.ts:59-78 | global: the "does not support global uninstalls" failure with nothing run; otherwise `remove <packages> <additional>` |
| `YarnBerryAdapter.YarnBerry.Update` | src/lib/package-managers/yarn-berry/index.ts:80-87 | exactly what install does, including the global failure |
| `YarnBerryAdapter.YarnBerry.Rebuild` | src/lib/package-managers/yarn-berry/index.ts:89-95 | runs `rebuild <packages>`, whatever the loglevel |
| `YarnBerryAdapter.YarnBerry.Detect` | src/lib/package-managers/yarn-berry/index.ts:97-120 | true exactly when a root is found and the version starts with "2.", "3." or "4."; cwd moves only on success when asked |
| `YarnBerryAdapter.YarnBerry.Version` | src/lib/package-managers/yarn-berry/index.ts:122-130 | the `-v` output on success, otherwise the "Could not detect yarn version" message |
| `YarnBerryAdapter.YarnBerry.OverrideDependencies` | src/lib/package-managers/yarn-berry/index.ts:132-172 | as for yarn classic, except that the install run in the root is exactly `["install"]` |
| `YarnBerryAdapter.YarnBerry.Pack` | src/lib/package-managers/yarn-berry/index.ts:174-206 | the target directory is made, then `pack --out <targetDir>/<TarballName>` runs in the workspace. stdout becomes that path, whatever yarn printed, and cwd is restored. A missing manifest or name rejects before yarn runs |
| `YarnAdapter.InstallArgvWords` | src/lib/package-managers/yarn/index.ts:48-66 | `add` always appears, even without packages; `install` never does; `global`, `--dev` and `--exact` appear exactly as asked |
| `YarnAdapter.InstallIgnores` | src/lib/package-managers/yarn/index.ts:48-83 | the additional arguments, force and ignoreScripts never reach install's argv; neither additional arguments nor exact reach uninstall's |
| `YarnAdapter.InstallWithoutPackagesExample` | src/lib/package-managers/yarn/index.ts:52-55 | installing no packages with no options is `["add"]` |
| `YarnAdapter.Yarn.Command` | src/lib/package-managers/yarn/index.ts:21-45 | runs yarn in the adapter's cwd; one run is recorded and no file changes |
| `YarnAdapter.Yarn.Install` | src/lib/package-managers/yarn/index.ts:48-66 | runs `[global] add <packages> [--dev] [--exact] <loglevel flag>` |
| `YarnAdapter.Yarn.Uninstall` | src/lib/package-managers/yarn/index.ts:68-83 | runs `[global] remove <packages> [--dev] <loglevel flag>` |
| `YarnAdapter.Yarn.Update` | src/lib/package-managers/yarn/index.ts:85-92 | runs exactly what install runs |
| `YarnAdapter.Yarn.Rebuild` | src/lib/package-managers/yarn/index.ts:94-103 | fails with exit code 1, empty stdout, and the unsupported message as stderr and stdall; no command runs |
| `YarnAdapter.Yarn.Detect` | src/lib/package-managers/yarn/index.ts:105-113 | true exactly when a root is found (with yarn.lock, if required) and the version starts with "1."; the adapter's cwd never changes |
| `YarnAdapter.Yarn.Version` | src/lib/package-managers/yarn/index.ts:115-123 | the `-v` output on success, otherwise the "Could not detect yarn version" message |
| `YarnAdapter.Yarn.OverrideDependencies` | src/lib/package-managers/yarn/index.ts:125-165 | the root is found without requiring a lockfile. The failures are as for yarn classic; otherwise the resolutions are merged and written, the raw `["install"]` runs in the root, and cwd is restored |

## Left out

- Process execution, output piping and execa's result translation are not modelled. The runner is a function from binary, argv and directory to a `CommandResult`.
- Real file I/O is not modelled.
  - Files are maps from path to a parsed document.
  - A file that cannot be read or parsed is absent, and its error message is the host's `readError`.
  - Writes always succeed, so the "Error updating package files" path is reached only through a manifest that cannot be read.
  - JSON formatting (indentation, the trailing newline) is not modelled.
- `fs.ensureDir` and `fs.move` are recorded as events only; the tarball files they act on are not modelled.
- `path.join` normalisation (`..`, repeated separators, platform separators) is not modelled. `Join` covers only the shapes the adapters build.
- The HTTP download of a registry document is not modelled. The registry is a function from package name to its published versions, or a download error message.
- `semver.gte(version, "7.0.0")` is not modelled; it is the adapter's `atLeast7` input.
- The shared base class is not part of this model. Its members appear as follows:
  - `findRoot` is an oracle from directory and optional lockfile name to a root or an error message;
  - `exec` is the runner;
  - `this.fail(message)` is taken to build the same failed record the yarn adapters build literally (`Common.Fail`);
  - `workspaces` is not modelled.
- Iteration order of `Object.keys` and `Object.entries` is not modelled. Those loops pick keys in an arbitrary order, and every contract holds for any order. What is lost is which of several failing resolutions is reported.
- NpmAdapter.Npm.UpdateManifests models the insertion order of the affected-file `Set` only for its first element. The root package.json is inserted first (src/lib/package-managers/npm/index.ts:356-357), so the model visits it first, and no later failure keeps its bump from being saved. The files the walks add come in an order the model leaves open. That order decides which unreadable file is reported, and which of the other manifests are already saved when it is reached; the contract says only that some set of visited files, the root among them, was bumped and saved.
- NpmLockfile.Touches, NpmLockfile.PinVersions, NpmLockfile.RewriteVersions, NpmLockfile.WalkV1Entry, NpmLockfile.WalkV2Entry, NpmAdapter.NeedsBump and NpmAdapter.ResolveDependency test membership on own keys only. JavaScript's `in` (src/lib/package-managers/npm/index.ts:39, 99, 110, 147, 156, 388) also sees the properties every object inherits from `Object.prototype`, such as `constructor`, `toString`, `hasOwnProperty` and `__proto__`. So for a package, dependency or version with one of those names the source behaves differently:
  - it takes the override branch with an inherited function in place of an override, so `version`, `resolved` and `requires` become undefined and are dropped when the file is written;
  - it adds a pinned dependency that the map never had;
  - it resolves a version the registry never published, to a record whose fields are undefined.

  The model treats such names like any other.
- A `lockfileVersion` that is not an integer is not modelled. Every such value is rejected like an unsupported integer, with the integer's decimal text in the message.
- Legacy yarn has no pack, and pak.ts, index.ts and the base-class stub are not part of this model: they hold no adapter logic.
- NpmAdapter.Npm.OverrideDependencies models the evidently intended failed results for the bare `fail` calls (see Findings). The as-written rejection is modelled separately by `NpmAdapter.FailAsWritten` and `NpmAdapter.Npm.OverrideDependenciesAsWritten`.
- NpmLockfile.WalkV1Idempotent, NpmLockfile.WalkV2Idempotent and NpmLockfile.PatchLockfileIdempotent require every registry tarball URL to be non-empty. With an empty one, a replaced entry's `tarball` stops being truthy, and a second override takes the other branch.
- The cases where npm's pack and yarn berry's pack reject (a missing manifest, or a `name` that is absent so `name.replace` throws) are modelled as `Rejected` outcomes. The exception text is the host's `readError`, or the fixed TypeError message `NoName`.

## Findings

| source | as written | input that shows it | evidently intended | confidence | as-written member | corrected member |
|---|---|---|---|---|---|---|
| src/lib/package-managers/npm/index.ts:330-408 | `overrideDependencies` calls a bare `fail(...)` on four failure paths: loading, lockfile version, resolution, and updating files. Nothing in the module binds `fail`. The base class's helper is `this.fail`, so each call throws a ReferenceError and the promise rejects | a package-lock.json with `lockfileVersion: 4` | a settled failed result carrying the message, as `this.fail(...)` gives | not executed | `NpmAdapter.Npm.OverrideDependenciesAsWritten`, `NpmAdapter.UnsupportedLockfileAsWritten` | `NpmAdapter.Npm.OverrideDependencies` |
