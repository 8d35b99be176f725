/** The legacy yarn adapter: `add` and `remove` argument vectors built by
    pushing onto an array (without additional arguments), the unsupported
    rebuild, the version-1 detection that never moves cwd, and the
    `resolutions` override of the root package.json followed by a raw
    `yarn install`. */
module YarnAdapter {
  import opened Common
  import opened NpmLockfile
  import opened Host

  // ---------------------------------------------------------------------
  // Argument vectors

  /** install: `[global] add <packages> [--dev] [--exact]` and the loglevel
      flag, with or without packages. */
  function InstallArgv(packages: seq<string>, o: Options, loglevel: Option<string>): seq<string> {
    Opt(o.global, ["global"]) + ["add"] + packages + Opt(o.dependencyType == Dev, ["--dev"]) + Opt(o.exact, ["--exact"]) + YarnLoglevelArgs(loglevel)
  }

  /** uninstall: `[global] remove <packages> [--dev]` and the loglevel flag. */
  function UninstallArgv(packages: seq<string>, o: Options, loglevel: Option<string>): seq<string> {
    Opt(o.global, ["global"]) + ["remove"] + packages + Opt(o.dependencyType == Dev, ["--dev"]) + YarnLoglevelArgs(loglevel)
  }

  /** The words install can emit on its own. */
  predicate InstallWord(x: string) {
    x == "global" || x == "add" || x == "install" || x == "--dev" || x == "--exact"
  }

  /** Which words install emits, for packages that are not such words:
      always `add` (never `install`, even without packages), and `global`,
      `--dev` and `--exact` exactly as the options ask. */
  lemma {:induction false} InstallArgvWords(packages: seq<string>, o: Options, loglevel: Option<string>)
    requires forall x :: x in packages ==> !InstallWord(x)
    ensures var r := InstallArgv(packages, o, loglevel);
      "add" in r && "install" !in r &&
      ("global" in r <==> o.global) &&
      ("--dev" in r <==> o.dependencyType == Dev) &&
      ("--exact" in r <==> o.exact)
  {
    var head := Opt(o.global, ["global"]) + ["add"] + packages + Opt(o.dependencyType == Dev, ["--dev"]) + Opt(o.exact, ["--exact"]);
    assert InstallArgv(packages, o, loglevel) == head + YarnLoglevelArgs(loglevel);
    HeadWords(packages, o);
    LoglevelIsNoWord(loglevel);
  }

  lemma HeadWords(packages: seq<string>, o: Options)
    requires forall x :: x in packages ==> !InstallWord(x)
    ensures var h := Opt(o.global, ["global"]) + ["add"] + packages + Opt(o.dependencyType == Dev, ["--dev"]) + Opt(o.exact, ["--exact"]);
      "add" in h && "install" !in h &&
      ("global" in h <==> o.global) && ("--dev" in h <==> o.dependencyType == Dev) && ("--exact" in h <==> o.exact)
  {
    assert "add" in Opt(o.global, ["global"]) + ["add"];
  }

  /** The loglevel flag is none of those words. */
  lemma LoglevelIsNoWord(loglevel: Option<string>)
    ensures forall x :: x in YarnLoglevelArgs(loglevel) ==> !InstallWord(x)
  {
  }

  /** The additional arguments, force and ignoreScripts never reach the argv. */
  lemma InstallIgnores(packages: seq<string>, o: Options, loglevel: Option<string>)
    ensures InstallArgv(packages, o, loglevel) ==
            InstallArgv(packages, o.(additionalArgs := [], force := false, ignoreScripts := false), loglevel)
    ensures UninstallArgv(packages, o, loglevel) ==
            UninstallArgv(packages, o.(additionalArgs := [], exact := false), loglevel)
  {
  }

  /** Without packages, a plain install is `add`. */
  lemma InstallWithoutPackagesExample()
    ensures InstallArgv([], NoOptions, None) == ["add"]
  {
  }

  const RebuildUnsupported := "yarn does not support the \"rebuild\" command!"

  // ---------------------------------------------------------------------
  // The adapter

  class Yarn {
    var cwd: string
    var loglevel: Option<string>
    const host: Host

    constructor(host: Host, cwd: string, loglevel: Option<string>)
      ensures this.host == host && this.cwd == cwd && this.loglevel == loglevel
    {
      this.host := host;
      this.cwd := cwd;
      this.loglevel := loglevel;
    }

    /** `command`: runs yarn in the adapter's cwd. */
    method Command(args: seq<string>) returns (r: CommandResult)
      modifies host
      ensures r == host.run("yarn", args, cwd)
      ensures host.trace == old(host.trace) + [Ran("yarn", args, cwd)]
      ensures host.manifests == old(host.manifests) && host.lockfiles == old(host.lockfiles)
    {
      r := host.Exec("yarn", args, cwd);
    }

    method Install(packages: seq<string>, options: Options) returns (r: CommandResult)
      modifies host
      ensures r == host.run("yarn", InstallArgv(packages, options, loglevel), cwd)
      ensures host.trace == old(host.trace) + [Ran("yarn", InstallArgv(packages, options, loglevel), cwd)]
      ensures host.manifests == old(host.manifests) && host.lockfiles == old(host.lockfiles)
    {
      var args: seq<string> := [];
      if options.global {
        args := args + ["global"];
      }
      args := args + ["add"];
      args := PushAll(args, packages);
      if options.dependencyType == Dev {
        args := args + ["--dev"];
      }
      if options.exact {
        args := args + ["--exact"];
      }
      assert args == Opt(options.global, ["global"]) + ["add"] + packages + Opt(options.dependencyType == Dev, ["--dev"]) + Opt(options.exact, ["--exact"]);
      args := SetLoglevel(args, loglevel);
      r := Command(args);
    }

    method Uninstall(packages: seq<string>, options: Options) returns (r: CommandResult)
      modifies host
      ensures r == host.run("yarn", UninstallArgv(packages, options, loglevel), cwd)
      ensures host.trace == old(host.trace) + [Ran("yarn", UninstallArgv(packages, options, loglevel), cwd)]
      ensures host.manifests == old(host.manifests) && host.lockfiles == old(host.lockfiles)
    {
      var args: seq<string> := [];
      if options.global {
        args := args + ["global"];
      }
      args := args + ["remove"];
      args := PushAll(args, packages);
      if options.dependencyType == Dev {
        args := args + ["--dev"];
      }
      assert args == Opt(options.global, ["global"]) + ["remove"] + packages + Opt(options.dependencyType == Dev, ["--dev"]);
      args := SetLoglevel(args, loglevel);
      r := Command(args);
    }

    /** update is install. */
    method Update(packages: seq<string>, options: Options) returns (r: CommandResult)
      modifies host
      ensures r == host.run("yarn", InstallArgv(packages, options, loglevel), cwd)
      ensures host.trace == old(host.trace) + [Ran("yarn", InstallArgv(packages, options, loglevel), cwd)]
      ensures host.manifests == old(host.manifests) && host.lockfiles == old(host.lockfiles)
    {
      r := Install(packages, options);
    }

    /** rebuild is unsupported: a failed result, and no command runs. */
    method Rebuild() returns (r: CommandResult)
      ensures !r.success && r.exitCode == 1 && r.stdout == "" && r.stderr == r.stdall
      ensures r.stderr == RebuildUnsupported
    {
      r := CommandResult(false, 1, "", RebuildUnsupported, RebuildUnsupported);
    }

    /** yarn is detected when a root (with yarn.lock, if required) is found
        and `yarn -v` reports a 1.x version. cwd never moves: the method
        changes nothing of the adapter. */
    method Detect(requireLockfile: bool) returns (detected: bool)
      modifies host
      ensures var root := host.findRoot(cwd, if requireLockfile then Some("yarn.lock") else None);
        var version := VersionOf("yarn", host.run("yarn", ["-v"], cwd));
        detected == (root.Success? && version.Success? && IsClassicVersion(version.value)) &&
        host.trace == old(host.trace) + (if root.Success? then [Ran("yarn", ["-v"], cwd)] else [])
      ensures host.manifests == old(host.manifests) && host.lockfiles == old(host.lockfiles)
    {
      var root := host.findRoot(cwd, if requireLockfile then Some("yarn.lock") else None);
      if root.Failure? {
        return false;
      }
      var version := Version();
      return version.Success? && StartsWith(version.value, "1.");
    }

    method Version() returns (r: Result<string, string>)
      modifies host
      ensures r == VersionOf("yarn", host.run("yarn", ["-v"], cwd))
      ensures host.trace == old(host.trace) + [Ran("yarn", ["-v"], cwd)]
      ensures host.manifests == old(host.manifests) && host.lockfiles == old(host.lockfiles)
    {
      var result := Command(["-v"]);
      r := VersionOf("yarn", result);
    }

    /** overrideDependencies: the root is looked up without requiring a
        lockfile; the requested versions are merged into its package.json's
        `resolutions` (requested entries winning), and the raw `yarn install`
        runs in the root, after which cwd is back where it was. When no root
        is found or its package.json cannot be read, nothing is written or
        run. */
    method OverrideDependencies(dependencies: map<string, string>) returns (r: CommandResult)
      modifies this, host
      ensures cwd == old(cwd) && loglevel == old(loglevel)
      ensures var rootR := host.findRoot(old(cwd), None);
        rootR.Failure? ==> r == Fail(RootUpdateError + rootR.error) && unchanged(host)
      ensures var rootR := host.findRoot(old(cwd), None);
        rootR.Success? && PackageJson(rootR.value) !in old(host.manifests) ==>
          r == Fail(RootUpdateError + host.readError(PackageJson(rootR.value))) && unchanged(host)
      ensures var rootR := host.findRoot(old(cwd), None);
        rootR.Success? && PackageJson(rootR.value) in old(host.manifests) ==>
          var path := PackageJson(rootR.value);
          host.manifests == old(host.manifests)[path := WithResolutions(old(host.manifests)[path], dependencies)] &&
          host.lockfiles == old(host.lockfiles) &&
          r == host.run("yarn", ["install"], rootR.value) &&
          host.trace == old(host.trace) + [WroteManifest(path), Ran("yarn", ["install"], rootR.value)]
    {
      var rootR := host.findRoot(cwd, None);
      if rootR.Failure? {
        return Fail(RootUpdateError + rootR.error);
      }
      var root := rootR.value;
      var packageJsonPath := PackageJson(root);
      var packageJson := host.ReadManifest(packageJsonPath);
      if packageJson.Failure? {
        return Fail(RootUpdateError + packageJson.error);
      }
      host.WriteManifest(packageJsonPath, WithResolutions(packageJson.value, dependencies));
      var prevCwd := cwd;
      cwd := root;
      r := Command(["install"]);
      cwd := prevCwd;
    }
  }
}
