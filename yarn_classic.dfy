/** The yarn classic (yarn 1) adapter: argument vectors built by pushing
    onto an array, the unsupported rebuild and pack, the version-1 detection
    and the `resolutions` override of the root package.json. */
module YarnClassicAdapter {
  import opened Common
  import opened NpmLockfile
  import opened Host

  // ---------------------------------------------------------------------
  // Argument vectors

  /** install: with packages, `[global] add <packages> [--dev] [--exact]`;
      without, `install [--production] [--ignore-scripts] [--force]`; then
      the loglevel flag and the additional arguments. */
  function InstallArgv(packages: seq<string>, o: Options, loglevel: Option<string>, environment: Environment): seq<string> {
    InstallHead(packages, o, environment) + YarnLoglevelArgs(loglevel) + o.additionalArgs
  }

  /** The part of install that depends on whether packages are given. */
  function InstallHead(packages: seq<string>, o: Options, environment: Environment): seq<string> {
    if |packages| > 0 then
      Opt(o.global, ["global"]) + ["add"] + packages + Opt(o.dependencyType == Dev, ["--dev"]) + Opt(o.exact, ["--exact"])
    else
      ["install"] + Opt(environment == Production, ["--production"]) + Opt(o.ignoreScripts, ["--ignore-scripts"]) + Opt(o.force, ["--force"])
  }

  /** uninstall: `[global] remove <packages> [--dev]`, the loglevel flag, then
      the additional arguments. */
  function UninstallArgv(packages: seq<string>, o: Options, loglevel: Option<string>): seq<string> {
    Opt(o.global, ["global"]) + ["remove"] + packages + Opt(o.dependencyType == Dev, ["--dev"]) + YarnLoglevelArgs(loglevel) + o.additionalArgs
  }

  /** Adding packages ignores the environment, force and ignoreScripts. */
  lemma InstallWithPackagesIgnores(packages: seq<string>, o: Options, loglevel: Option<string>, environment: Environment)
    requires |packages| > 0
    ensures InstallArgv(packages, o, loglevel, environment) ==
            InstallArgv(packages, o.(force := false, ignoreScripts := false), loglevel, Development)
  {
  }

  /** Installing without packages ignores global, the dependency type and exact. */
  lemma InstallWithoutPackagesIgnores(o: Options, loglevel: Option<string>, environment: Environment)
    ensures InstallArgv([], o, loglevel, environment) ==
            InstallArgv([], o.(global := false, dependencyType := Prod, exact := false), loglevel, environment)
  {
  }

  /** The words install can emit on its own. */
  predicate InstallWord(x: string) {
    x == "global" || x == "add" || x == "install" || x == "--dev" || x == "--exact" ||
    x == "--production" || x == "--ignore-scripts" || x == "--force"
  }

  /** Which words install emits, for packages and additional arguments that
      are not such words themselves: `add`, `global`, `--dev` and `--exact`
      only with packages and then exactly as the options ask, `install`,
      `--production`, `--ignore-scripts` and `--force` only without packages
      and then exactly as the environment and the options ask. */
  lemma {:induction false} InstallArgvWords(packages: seq<string>, o: Options, loglevel: Option<string>, environment: Environment)
    requires forall x :: x in packages ==> !InstallWord(x)
    requires forall x :: x in o.additionalArgs ==> !InstallWord(x)
    ensures var r := InstallArgv(packages, o, loglevel, environment);
      ("add" in r <==> |packages| > 0) &&
      ("global" in r <==> |packages| > 0 && o.global) &&
      ("--dev" in r <==> |packages| > 0 && o.dependencyType == Dev) &&
      ("--exact" in r <==> |packages| > 0 && o.exact)
    ensures var r := InstallArgv(packages, o, loglevel, environment);
      ("install" in r <==> |packages| == 0) &&
      ("--production" in r <==> |packages| == 0 && environment == Production) &&
      ("--ignore-scripts" in r <==> |packages| == 0 && o.ignoreScripts) &&
      ("--force" in r <==> |packages| == 0 && o.force)
  {
    LoglevelIsNoWord(loglevel);
    if |packages| > 0 {
      AddWords(packages, o);
    } else {
      InstallOnlyWords(o, environment);
    }
  }

  /** The loglevel flag is none of those words. */
  lemma LoglevelIsNoWord(loglevel: Option<string>)
    ensures forall x :: x in YarnLoglevelArgs(loglevel) ==> !InstallWord(x)
  {
  }

  lemma AddWords(packages: seq<string>, o: Options)
    requires |packages| > 0 && forall x :: x in packages ==> !InstallWord(x)
    ensures var h := InstallHead(packages, o, Development);
      ("add" in h) && ("install" !in h) &&
      ("global" in h <==> o.global) && ("--dev" in h <==> o.dependencyType == Dev) && ("--exact" in h <==> o.exact) &&
      "--production" !in h && "--ignore-scripts" !in h && "--force" !in h
  {
    assert "add" in InstallHead(packages, o, Development);
  }

  lemma InstallOnlyWords(o: Options, environment: Environment)
    ensures var h := InstallHead([], o, environment);
      ("install" in h) && "add" !in h && "global" !in h && "--dev" !in h && "--exact" !in h &&
      ("--production" in h <==> environment == Production) &&
      ("--ignore-scripts" in h <==> o.ignoreScripts) && ("--force" in h <==> o.force)
  {
  }

  /** A global install of one package is `global add <package>`. */
  lemma GlobalInstallExample(environment: Environment)
    ensures InstallArgv(["whatever"], NoOptions.(global := true), None, environment) == ["global", "add", "whatever"]
  {
  }

  /** An update of one package adds it. */
  lemma UpdateExample(environment: Environment)
    ensures InstallArgv(["whatever"], NoOptions, None, environment) == ["add", "whatever"]
  {
  }

  /** Any loglevel other than silent and verbose leaves every argv as without one. */
  lemma LoglevelOnlySilentOrVerbose(packages: seq<string>, o: Options, loglevel: Option<string>, environment: Environment)
    requires loglevel != Some("silent") && loglevel != Some("verbose")
    ensures InstallArgv(packages, o, loglevel, environment) == InstallArgv(packages, o, None, environment)
    ensures UninstallArgv(packages, o, loglevel) == UninstallArgv(packages, o, None)
  {
  }

  const RebuildUnsupported := "yarn classic does not support the \"rebuild\" command!"
  const PackUnsupported := "yarn classic does not support packing tarballs!"

  // ---------------------------------------------------------------------
  // The adapter

  class YarnClassic {
    var cwd: string
    var loglevel: Option<string>
    var environment: Environment
    const host: Host

    constructor(host: Host, cwd: string, loglevel: Option<string>, environment: Environment)
      ensures this.host == host && this.cwd == cwd
      ensures this.loglevel == loglevel && this.environment == environment
    {
      this.host := host;
      this.cwd := cwd;
      this.loglevel := loglevel;
      this.environment := environment;
    }

    /** `command`: runs yarn in the adapter's cwd. */
    method Command(args: seq<string>) returns (r: CommandResult)
      modifies host
      ensures r == host.run("yarn", args, cwd)
      ensures host.trace == old(host.trace) + [Ran("yarn", args, cwd)]
      ensures host.manifests == old(host.manifests) && host.lockfiles == old(host.lockfiles)
    {
      r := host.Exec("yarn", args, cwd);
    }

    method Install(packages: seq<string>, options: Options) returns (r: CommandResult)
      modifies host
      ensures r == host.run("yarn", InstallArgv(packages, options, loglevel, environment), cwd)
      ensures host.trace == old(host.trace) + [Ran("yarn", InstallArgv(packages, options, loglevel, environment), cwd)]
      ensures host.manifests == old(host.manifests) && host.lockfiles == old(host.lockfiles)
    {
      var args := InstallHeadArgs(packages, options);
      args := SetLoglevel(args, loglevel);
      args := PushAll(args, options.additionalArgs);
      r := Command(args);
    }

    /** The pushes of install before the loglevel flag. */
    method InstallHeadArgs(packages: seq<string>, options: Options) returns (args: seq<string>)
      ensures args == InstallHead(packages, options, environment)
    {
      args := [];
      if |packages| > 0 {
        if options.global {
          args := args + ["global"];
        }
        args := args + ["add"];
        args := PushAll(args, packages);
        if options.dependencyType == Dev {
          args := args + ["--dev"];
        }
        if options.exact {
          args := args + ["--exact"];
        }
        assert args == Opt(options.global, ["global"]) + ["add"] + packages + Opt(options.dependencyType == Dev, ["--dev"]) + Opt(options.exact, ["--exact"]);
      } else {
        args := args + ["install"];
        if environment == Production {
          args := args + ["--production"];
        }
        if options.ignoreScripts {
          args := args + ["--ignore-scripts"];
        }
        if options.force {
          args := args + ["--force"];
        }
      }
    }

    method Uninstall(packages: seq<string>, options: Options) returns (r: CommandResult)
      modifies host
      ensures r == host.run("yarn", UninstallArgv(packages, options, loglevel), cwd)
      ensures host.trace == old(host.trace) + [Ran("yarn", UninstallArgv(packages, options, loglevel), cwd)]
      ensures host.manifests == old(host.manifests) && host.lockfiles == old(host.lockfiles)
    {
      var args: seq<string> := [];
      if options.global {
        args := args + ["global"];
      }
      args := args + ["remove"];
      args := PushAll(args, packages);
      if options.dependencyType == Dev {
        args := args + ["--dev"];
      }
      assert args == Opt(options.global, ["global"]) + ["remove"] + packages + Opt(options.dependencyType == Dev, ["--dev"]);
      args := SetLoglevel(args, loglevel);
      args := PushAll(args, options.additionalArgs);
      r := Command(args);
    }

    /** update is install: yarn only rewrites package.json entries on `add`. */
    method Update(packages: seq<string>, options: Options) returns (r: CommandResult)
      modifies host
      ensures r == host.run("yarn", InstallArgv(packages, options, loglevel, environment), cwd)
      ensures host.trace == old(host.trace) + [Ran("yarn", InstallArgv(packages, options, loglevel, environment), cwd)]
      ensures host.manifests == old(host.manifests) && host.lockfiles == old(host.lockfiles)
    {
      r := Install(packages, options);
    }

    /** rebuild is unsupported: a failed result, and no command runs. */
    method Rebuild() returns (r: CommandResult)
      ensures !r.success && r.exitCode == 1 && r.stdout == "" && r.stderr == r.stdall
      ensures r.stderr == RebuildUnsupported
    {
      r := CommandResult(false, 1, "", RebuildUnsupported, RebuildUnsupported);
    }

    /** pack is unsupported: a failed result, and no command runs. */
    method Pack(options: PackOptions) returns (r: CommandResult)
      ensures !r.success && r.exitCode == 1 && r.stdout == "" && r.stderr == r.stdall
      ensures r.stderr == PackUnsupported
    {
      r := Fail(PackUnsupported);
    }

    /** yarn classic is detected when a root (with yarn.lock, if required) is
        found and `yarn -v` reports a 1.x version; only then, and only when
        asked, does cwd move to the root. The version is asked only once a
        root is found. */
    method Detect(requireLockfile: bool, setCwdToPackageRoot: bool) returns (detected: bool)
      modifies this, host
      ensures var root := host.findRoot(old(cwd), if requireLockfile then Some("yarn.lock") else None);
        var version := VersionOf("yarn", host.run("yarn", ["-v"], old(cwd)));
        detected == (root.Success? && version.Success? && IsClassicVersion(version.value)) &&
        cwd == (if detected && setCwdToPackageRoot then root.value else old(cwd)) &&
        host.trace == old(host.trace) + (if root.Success? then [Ran("yarn", ["-v"], old(cwd))] else [])
      ensures loglevel == old(loglevel) && environment == old(environment)
      ensures host.manifests == old(host.manifests) && host.lockfiles == old(host.lockfiles)
    {
      var root := host.findRoot(cwd, if requireLockfile then Some("yarn.lock") else None);
      if root.Failure? {
        return false;
      }
      var version := Version();
      if version.Failure? || !IsClassicVersion(version.value) {
        return false;
      }
      if setCwdToPackageRoot {
        cwd := root.value;
      }
      return true;
    }

    method Version() returns (r: Result<string, string>)
      modifies host
      ensures r == VersionOf("yarn", host.run("yarn", ["-v"], cwd))
      ensures host.trace == old(host.trace) + [Ran("yarn", ["-v"], cwd)]
      ensures host.manifests == old(host.manifests) && host.lockfiles == old(host.lockfiles)
    {
      var result := Command(["-v"]);
      r := VersionOf("yarn", result);
    }

    /** overrideDependencies: the requested versions are merged into the root
        package.json's `resolutions` (requested entries winning), and install
        runs in the root, after which cwd is back where it was. When no root
        with yarn.lock is found or its package.json cannot be read, nothing
        is written or run. */
    method OverrideDependencies(dependencies: map<string, string>) returns (r: CommandResult)
      modifies this, host
      ensures cwd == old(cwd) && loglevel == old(loglevel) && environment == old(environment)
      ensures var rootR := host.findRoot(old(cwd), Some("yarn.lock"));
        rootR.Failure? ==> r == Fail(RootUpdateError + rootR.error) && unchanged(host)
      ensures var rootR := host.findRoot(old(cwd), Some("yarn.lock"));
        rootR.Success? && PackageJson(rootR.value) !in old(host.manifests) ==>
          r == Fail(RootUpdateError + host.readError(PackageJson(rootR.value))) && unchanged(host)
      ensures var rootR := host.findRoot(old(cwd), Some("yarn.lock"));
        rootR.Success? && PackageJson(rootR.value) in old(host.manifests) ==>
          var path := PackageJson(rootR.value);
          var install := InstallArgv([], NoOptions, loglevel, environment);
          host.manifests == old(host.manifests)[path := WithResolutions(old(host.manifests)[path], dependencies)] &&
          host.lockfiles == old(host.lockfiles) &&
          r == host.run("yarn", install, rootR.value) &&
          host.trace == old(host.trace) + [WroteManifest(path), Ran("yarn", install, rootR.value)]
    {
      var rootR := host.findRoot(cwd, Some("yarn.lock"));
      if rootR.Failure? {
        return Fail(RootUpdateError + rootR.error);
      }
      var root := rootR.value;
      var packageJsonPath := PackageJson(root);
      var packageJson := host.ReadManifest(packageJsonPath);
      if packageJson.Failure? {
        return Fail(RootUpdateError + packageJson.error);
      }
      host.WriteManifest(packageJsonPath, WithResolutions(packageJson.value, dependencies));
      var prevCwd := cwd;
      cwd := root;
      r := Install([], NoOptions);
      cwd := prevCwd;
    }
  }
}
