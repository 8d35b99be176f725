/** The yarn berry (yarn 2 to 4) adapter: argument vectors built by pushing
    onto an array, with no loglevel flag and no global installs, the
    version 2/3/4 detection, packing to a computed tarball path and the
    `resolutions` override of the root package.json. */
module YarnBerryAdapter {
  import opened Common
  import opened NpmLockfile
  import opened Host

  // ---------------------------------------------------------------------
  // Argument vectors. None of them takes the loglevel: berry's setLoglevel
  // pushes nothing.

  /** install (when not global): with packages, `add <packages> [--dev]
      [--exact]`; without, just `install`; then the additional arguments. */
  function InstallArgv(packages: seq<string>, o: Options): seq<string> {
    (if |packages| > 0 then
       ["add"] + packages + Opt(o.dependencyType == Dev, ["--dev"]) + Opt(o.exact, ["--exact"])
     else
       ["install"])
    + o.additionalArgs
  }

  /** uninstall (when not global): `remove <packages>`, then the additional
      arguments. */
  function UninstallArgv(packages: seq<string>, o: Options): seq<string> {
    ["remove"] + packages + o.additionalArgs
  }

  function RebuildArgv(packages: seq<string>): seq<string> {
    ["rebuild"] + packages
  }

  /** The words install can emit on its own. */
  predicate InstallWord(x: string) {
    x == "add" || x == "install" || x == "--dev" || x == "--exact" || x == "--production"
  }

  /** Which words install emits, for packages and additional arguments that
      are not such words: `add`, `--dev` and `--exact` only with packages and
      then exactly as the options ask; `install` only without packages; and
      never `--production`, whatever the environment. */
  lemma {:induction false} InstallArgvWords(packages: seq<string>, o: Options)
    requires forall x :: x in packages ==> !InstallWord(x)
    requires forall x :: x in o.additionalArgs ==> !InstallWord(x)
    ensures var r := InstallArgv(packages, o);
      ("add" in r <==> |packages| > 0) &&
      ("install" in r <==> |packages| == 0) &&
      ("--dev" in r <==> |packages| > 0 && o.dependencyType == Dev) &&
      ("--exact" in r <==> |packages| > 0 && o.exact) &&
      "--production" !in r
  {
    var r := InstallArgv(packages, o);
    if |packages| > 0 {
      var flags := Opt(o.dependencyType == Dev, ["--dev"]) + Opt(o.exact, ["--exact"]);
      assert r == ["add"] + packages + flags + o.additionalArgs;
      assert "add" in r;
    } else {
      assert r == ["install"] + o.additionalArgs;
      assert "install" in r;
    }
  }

  /** Without packages, install is exactly `install` and the additional
      arguments. */
  lemma InstallWithoutPackages(o: Options)
    ensures InstallArgv([], o) == ["install"] + o.additionalArgs
  {
  }

  /** uninstall never emits `--dev` of its own, not even for dev
      dependencies: the dependency type does not change the argv. */
  lemma {:induction false} UninstallIgnoresDependencyType(packages: seq<string>, o: Options)
    requires "--dev" !in packages && "--dev" !in o.additionalArgs
    ensures UninstallArgv(packages, o) == UninstallArgv(packages, o.(dependencyType := Prod))
    ensures "--dev" !in UninstallArgv(packages, o)
  {
    assert "--dev" != "remove";
  }

  /** An update of one package adds it. */
  lemma UpdateExample()
    ensures InstallArgv(["whatever"], NoOptions) == ["add", "whatever"]
  {
  }

  const GlobalInstallUnsupported := "yarn berry does not support global installs!"
  const GlobalUninstallUnsupported := "yarn berry does not support global uninstalls!"

  // ---------------------------------------------------------------------
  // The adapter

  class YarnBerry {
    var cwd: string
    var loglevel: Option<string>
    var environment: Environment
    const host: Host

    constructor(host: Host, cwd: string, loglevel: Option<string>, environment: Environment)
      ensures this.host == host && this.cwd == cwd
      ensures this.loglevel == loglevel && this.environment == environment
    {
      this.host := host;
      this.cwd := cwd;
      this.loglevel := loglevel;
      this.environment := environment;
    }

    /** `command`: runs yarn in the adapter's cwd. */
    method Command(args: seq<string>) returns (r: CommandResult)
      modifies host
      ensures r == host.run("yarn", args, cwd)
      ensures host.trace == old(host.trace) + [Ran("yarn", args, cwd)]
      ensures host.manifests == old(host.manifests) && host.lockfiles == old(host.lockfiles)
    {
      r := host.Exec("yarn", args, cwd);
    }

    /** install; a global install fails before any command runs. */
    method Install(packages: seq<string>, options: Options) returns (r: CommandResult)
      modifies host
      ensures options.global ==> r == Fail(GlobalInstallUnsupported) && unchanged(host)
      ensures !options.global ==>
        r == host.run("yarn", InstallArgv(packages, options), cwd) &&
        host.trace == old(host.trace) + [Ran("yarn", InstallArgv(packages, options), cwd)]
      ensures host.manifests == old(host.manifests) && host.lockfiles == old(host.lockfiles)
    {
      var args: seq<string> := [];
      if options.global {
        return Fail(GlobalInstallUnsupported);
      }
      if |packages| > 0 {
        args := args + ["add"];
        args := PushAll(args, packages);
        if options.dependencyType == Dev {
          args := args + ["--dev"];
        }
        if options.exact {
          args := args + ["--exact"];
        }
        assert args == ["add"] + packages + Opt(options.dependencyType == Dev, ["--dev"]) + Opt(options.exact, ["--exact"]);
      } else {
        args := args + ["install"];
        assert args == ["install"];
      }
      args := PushAll(args, options.additionalArgs);
      assert args == InstallArgv(packages, options);
      r := Command(args);
    }

    /** uninstall; a global uninstall fails before any command runs. */
    method Uninstall(packages: seq<string>, options: Options) returns (r: CommandResult)
      modifies host
      ensures options.global ==> r == Fail(GlobalUninstallUnsupported) && unchanged(host)
      ensures !options.global ==>
        r == host.run("yarn", UninstallArgv(packages, options), cwd) &&
        host.trace == old(host.trace) + [Ran("yarn", UninstallArgv(packages, options), cwd)]
      ensures host.manifests == old(host.manifests) && host.lockfiles == old(host.lockfiles)
    {
      var args: seq<string> := [];
      if options.global {
        return Fail(GlobalUninstallUnsupported);
      }
      args := args + ["remove"];
      args := PushAll(args, packages);
      args := PushAll(args, options.additionalArgs);
      assert args == UninstallArgv(packages, options);
      r := Command(args);
    }

    /** update is install (including its global failure). */
    method Update(packages: seq<string>, options: Options) returns (r: CommandResult)
      modifies host
      ensures options.global ==> r == Fail(GlobalInstallUnsupported) && unchanged(host)
      ensures !options.global ==>
        r == host.run("yarn", InstallArgv(packages, options), cwd) &&
        host.trace == old(host.trace) + [Ran("yarn", InstallArgv(packages, options), cwd)]
      ensures host.manifests == old(host.manifests) && host.lockfiles == old(host.lockfiles)
    {
      r := Install(packages, options);
    }

    method Rebuild(packages: seq<string>) returns (r: CommandResult)
      modifies host
      ensures r == host.run("yarn", RebuildArgv(packages), cwd)
      ensures host.trace == old(host.trace) + [Ran("yarn", RebuildArgv(packages), cwd)]
      ensures host.manifests == old(host.manifests) && host.lockfiles == old(host.lockfiles)
    {
      var args := ["rebuild"];
      args := PushAll(args, packages);
      r := Command(args);
    }

    /** yarn berry is detected when a root (with yarn.lock, if required) is
        found and `yarn -v` reports a 2.x, 3.x or 4.x version; only then, and
        only when asked, does cwd move to the root. */
    method Detect(requireLockfile: bool, setCwdToPackageRoot: bool) returns (detected: bool)
      modifies this, host
      ensures var root := host.findRoot(old(cwd), if requireLockfile then Some("yarn.lock") else None);
        var version := VersionOf("yarn", host.run("yarn", ["-v"], old(cwd)));
        detected == (root.Success? && version.Success? && IsBerryVersion(version.value)) &&
        cwd == (if detected && setCwdToPackageRoot then root.value else old(cwd)) &&
        host.trace == old(host.trace) + (if root.Success? then [Ran("yarn", ["-v"], old(cwd))] else [])
      ensures loglevel == old(loglevel) && environment == old(environment)
      ensures host.manifests == old(host.manifests) && host.lockfiles == old(host.lockfiles)
    {
      var root := host.findRoot(cwd, if requireLockfile then Some("yarn.lock") else None);
      if root.Failure? {
        return false;
      }
      var version := Version();
      if version.Failure? {
        return false;
      }
      var v := version.value;
      if !StartsWith(v, "2.") && !StartsWith(v, "3.") && !StartsWith(v, "4.") {
        return false;
      }
      if setCwdToPackageRoot {
        cwd := root.value;
      }
      return true;
    }

    method Version() returns (r: Result<string, string>)
      modifies host
      ensures r == VersionOf("yarn", host.run("yarn", ["-v"], cwd))
      ensures host.trace == old(host.trace) + [Ran("yarn", ["-v"], cwd)]
      ensures host.manifests == old(host.manifests) && host.lockfiles == old(host.lockfiles)
    {
      var result := Command(["-v"]);
      r := VersionOf("yarn", result);
    }

    /** overrideDependencies: the requested versions are merged into the root
        package.json's `resolutions` (requested entries winning), and install
        without packages (`yarn install`) runs in the root, after which cwd
        is back where it was. When no root with yarn.lock is found or its
        package.json cannot be read, nothing is written or run. */
    method OverrideDependencies(dependencies: map<string, string>) returns (r: CommandResult)
      modifies this, host
      ensures cwd == old(cwd) && loglevel == old(loglevel) && environment == old(environment)
      ensures var rootR := host.findRoot(old(cwd), Some("yarn.lock"));
        rootR.Failure? ==> r == Fail(RootUpdateError + rootR.error) && unchanged(host)
      ensures var rootR := host.findRoot(old(cwd), Some("yarn.lock"));
        rootR.Success? && PackageJson(rootR.value) !in old(host.manifests) ==>
          r == Fail(RootUpdateError + host.readError(PackageJson(rootR.value))) && unchanged(host)
      ensures var rootR := host.findRoot(old(cwd), Some("yarn.lock"));
        rootR.Success? && PackageJson(rootR.value) in old(host.manifests) ==>
          var path := PackageJson(rootR.value);
          host.manifests == old(host.manifests)[path := WithResolutions(old(host.manifests)[path], dependencies)] &&
          host.lockfiles == old(host.lockfiles) &&
          r == host.run("yarn", ["install"], rootR.value) &&
          host.trace == old(host.trace) + [WroteManifest(path), Ran("yarn", ["install"], rootR.value)]
    {
      var rootR := host.findRoot(cwd, Some("yarn.lock"));
      if rootR.Failure? {
        return Fail(RootUpdateError + rootR.error);
      }
      var root := rootR.value;
      var packageJsonPath := PackageJson(root);
      var packageJson := host.ReadManifest(packageJsonPath);
      if packageJson.Failure? {
        return Fail(RootUpdateError + packageJson.error);
      }
      host.WriteManifest(packageJsonPath, WithResolutions(packageJson.value, dependencies));
      var prevCwd := cwd;
      cwd := root;
      InstallWithoutPackages(NoOptions);
      assert InstallArgv([], NoOptions) == ["install"];
      r := Install([], NoOptions);
      cwd := prevCwd;
    }

    /** pack: yarn is told the tarball path, TarballName in the target
        directory, and the result's stdout becomes that path whatever yarn
        printed; cwd ends where it started. A workspace manifest that cannot
        be read or has no name rejects before yarn runs. */
    method Pack(options: PackOptions) returns (r: Outcome)
      modifies this, host
      ensures cwd == old(cwd) && loglevel == old(loglevel) && environment == old(environment)
      ensures host.manifests == old(host.manifests) && host.lockfiles == old(host.lockfiles)
      ensures var targetDir := TargetDir(options, old(cwd));
        var workspaceDir := Join(old(cwd), Workspace(options));
        var manifestPath := PackageJson(workspaceDir);
        var before := old(host.trace) + [MadeDir(targetDir)];
        (manifestPath !in old(host.manifests) ==> r == Rejected(host.readError(manifestPath)) && host.trace == before) &&
        (manifestPath in old(host.manifests) && old(host.manifests)[manifestPath].name.None? ==>
           r == Rejected(NoName) && host.trace == before) &&
        (manifestPath in old(host.manifests) && old(host.manifests)[manifestPath].name.Some? ==>
           var m := old(host.manifests)[manifestPath];
           var targetPath := Join(targetDir, TarballName(m.name.value, TemplateText(m.version)));
           r == Settled(host.run("yarn", ["pack", "--out", targetPath], workspaceDir).(stdout := targetPath)) &&
           host.trace == before + [Ran("yarn", ["pack", "--out", targetPath], workspaceDir)])
    {
      var targetDir := TargetDir(options, cwd);
      var workspaceDir := Join(cwd, Workspace(options));
      host.EnsureDir(targetDir);
      var packageJson := host.ReadManifest(PackageJson(workspaceDir));
      if packageJson.Failure? {
        return Rejected(packageJson.error);
      }
      if packageJson.value.name.None? {
        return Rejected(NoName);
      }
      var targetPath := Join(targetDir, TarballName(packageJson.value.name.value, TemplateText(packageJson.value.version)));
      var prevCwd := cwd;
      cwd := workspaceDir;
      var result := Command(["pack", "--out", targetPath]);
      cwd := prevCwd;
      return Settled(result.(stdout := targetPath));
    }
  }
}
