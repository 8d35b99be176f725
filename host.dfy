/** The world the adapters act on, reduced to what they observe: the
    package.json and package-lock.json files by path, a process runner, the
    root finder of the shared base class and the npm registry. The runner,
    the root finder and the registry are given as functions (oracles); every
    effect is recorded in a ghost trace so that the order of effects can be
    stated. */
module Host {
  import opened Common
  import opened NpmLockfile

  /** One observable effect. */
  datatype Event =
    | Ran(bin: string, argv: seq<string>, cwd: string)
    | WroteManifest(path: string)
    | WroteLockfile(path: string)
    | MadeDir(path: string)
    | Moved(from: string, to: string)

  /** Why an operation rejected instead of settling with a CommandResult. */
  datatype Outcome = Settled(result: CommandResult) | Rejected(reason: string)

  class Host {
    var manifests: map<string, Manifest>
    var lockfiles: map<string, Lockfile>
    ghost var trace: seq<Event>

    /** The process runner: the result of running `bin argv` in a directory. */
    const run: (string, seq<string>, string) -> CommandResult
    /** The base class's findRoot: the package root above a directory (that
        holds the given lockfile, when one is named), or the error message. */
    const findRoot: (string, Option<string>) -> Result<string, string>
    /** The error message of reading a file that does not exist or does not parse. */
    const readError: string -> string
    /** The registry document of a package: its published versions, or the
        error message of the download. */
    const registry: string -> Result<map<string, ResolvedDependency>, string>

    constructor(manifests: map<string, Manifest>, lockfiles: map<string, Lockfile>,
                run: (string, seq<string>, string) -> CommandResult,
                findRoot: (string, Option<string>) -> Result<string, string>,
                readError: string -> string,
                registry: string -> Result<map<string, ResolvedDependency>, string>)
      ensures this.manifests == manifests && this.lockfiles == lockfiles && trace == []
      ensures this.run == run && this.findRoot == findRoot
      ensures this.readError == readError && this.registry == registry
    {
      this.manifests := manifests;
      this.lockfiles := lockfiles;
      this.run := run;
      this.findRoot := findRoot;
      this.readError := readError;
      this.registry := registry;
      trace := [];
    }

    /** Runs a command; no file changes. */
    method Exec(bin: string, argv: seq<string>, cwd: string) returns (r: CommandResult)
      modifies this
      ensures r == run(bin, argv, cwd)
      ensures trace == old(trace) + [Ran(bin, argv, cwd)]
      ensures manifests == old(manifests) && lockfiles == old(lockfiles)
    {
      r := run(bin, argv, cwd);
      trace := trace + [Ran(bin, argv, cwd)];
    }

    /** `readJson` of a package.json. */
    function ReadManifest(path: string): (r: Result<Manifest, string>)
      reads this
      ensures r.Success? <==> path in manifests
      ensures r.Success? ==> r.value == manifests[path]
    {
      if path in manifests then Success(manifests[path]) else Failure(readError(path))
    }

    /** `readJson` of a package-lock.json. */
    function ReadLockfile(path: string): (r: Result<Lockfile, string>)
      reads this
      ensures r.Success? <==> path in lockfiles
      ensures r.Success? ==> r.value == lockfiles[path]
    {
      if path in lockfiles then Success(lockfiles[path]) else Failure(readError(path))
    }

    method WriteManifest(path: string, m: Manifest)
      modifies this
      ensures manifests == old(manifests)[path := m] && lockfiles == old(lockfiles)
      ensures trace == old(trace) + [WroteManifest(path)]
    {
      manifests := manifests[path := m];
      trace := trace + [WroteManifest(path)];
    }

    method WriteLockfile(path: string, l: Lockfile)
      modifies this
      ensures lockfiles == old(lockfiles)[path := l] && manifests == old(manifests)
      ensures trace == old(trace) + [WroteLockfile(path)]
    {
      lockfiles := lockfiles[path := l];
      trace := trace + [WroteLockfile(path)];
    }

    /** `fs.ensureDir`. */
    method EnsureDir(path: string)
      modifies this
      ensures manifests == old(manifests) && lockfiles == old(lockfiles)
      ensures trace == old(trace) + [MadeDir(path)]
    {
      trace := trace + [MadeDir(path)];
    }

    /** `fs.move` of a tarball. */
    method Move(from: string, to: string)
      modifies this
      ensures manifests == old(manifests) && lockfiles == old(lockfiles)
      ensures trace == old(trace) + [Moved(from, to)]
    {
      trace := trace + [Moved(from, to)];
    }
  }
}
