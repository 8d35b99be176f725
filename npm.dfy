/** The npm adapter: the test for an exact version in a package spec, the
    argument vectors of install, uninstall, update and rebuild, detection,
    the override of dependency versions through package-lock.json and the
    package.json files, and packing a tarball. */
module NpmAdapter {
  import opened Common
  import opened NpmLockfile
  import opened Host

  // ---------------------------------------------------------------------
  // The exact-version test `/.+@\d+/`

  predicate IsDigit(c: char) {
    '0' <= c <= '9'
  }

  /** The characters `.` does not match. */
  predicate LineTerminator(c: char) {
    c == '\n' || c == '\r' || c == '\U{2028}' || c == '\U{2029}'
  }

  /** `s[start..at]` consists of characters that `.` matches. */
  predicate DotRun(s: string, start: int, at: int) {
    0 <= start <= at <= |s| && forall j :: start <= j < at ==> !LineTerminator(s[j])
  }

  /** `/.+@\d+/.test(s)`: somewhere in `s` a non-empty run of non-terminators
      is followed by an `@` and a digit. */
  ghost predicate ExactVersion(s: string) {
    exists start, at :: start < at && at + 1 < |s| && DotRun(s, start, at) && s[at] == '@' && IsDigit(s[at + 1])
  }

  /** An `@` that is not the first character, follows a non-terminator and
      is followed by a digit. */
  predicate PinAt(s: string, at: int) {
    1 <= at && at + 1 < |s| && s[at] == '@' && IsDigit(s[at + 1]) && !LineTerminator(s[at - 1])
  }

  /** The regex matches exactly when some `@` is a PinAt: a run of one
      character is enough for `.+`. */
  lemma ExactVersionIff(s: string)
    ensures ExactVersion(s) <==> exists at :: PinAt(s, at)
  {
    if ExactVersion(s) {
      var start, at :| start < at && at + 1 < |s| && DotRun(s, start, at) && s[at] == '@' && IsDigit(s[at + 1]);
      assert !LineTerminator(s[at - 1]);
      assert PinAt(s, at);
    }
    if at :| PinAt(s, at) {
      assert DotRun(s, at - 1, at);
    }
  }

  /** `exactVersionRegex.test(s)`, scanning for the `@` of a match. */
  method TestExactVersion(s: string) returns (b: bool)
    ensures b == ExactVersion(s)
  {
    ExactVersionIff(s);
    var at := 1;
    while at + 1 < |s|
      invariant 1 <= at
      invariant forall k :: 1 <= k < at ==> !PinAt(s, k)
    {
      if s[at] == '@' && IsDigit(s[at + 1]) && !LineTerminator(s[at - 1]) {
        assert PinAt(s, at);
        return true;
      }
      at := at + 1;
    }
    return false;
  }

  ghost predicate AnyExactVersion(packages: seq<string>) {
    exists i :: 0 <= i < |packages| && ExactVersion(packages[i])
  }

  /** `packages.some((p) => exactVersionRegex.test(p))`. */
  method SomeExactVersion(packages: seq<string>) returns (b: bool)
    ensures b == AnyExactVersion(packages)
  {
    for i := 0 to |packages|
      invariant forall j :: 0 <= j < i ==> !ExactVersion(packages[j])
    {
      b := TestExactVersion(packages[i]);
      if b {
        return;
      }
    }
    return false;
  }

  /** The examples of the unit tests: a version after the name pins it, a
      bare name does not, and neither does a scope's leading `@`. */
  lemma ExactVersionExamples()
    ensures ExactVersion("whatever@1.2.3")
    ensures !ExactVersion("whatever")
    ensures !ExactVersion("@1")
    ensures ExactVersion("@scope/pkg@2")
  {
    ExactVersionIff("whatever@1.2.3");
    assert PinAt("whatever@1.2.3", 8);
    ExactVersionIff("whatever");
    ExactVersionIff("@1");
    ExactVersionIff("@scope/pkg@2");
    assert PinAt("@scope/pkg@2", 10);
  }

  // ---------------------------------------------------------------------
  // Argument vectors

  /** `--loglevel L` for a truthy loglevel. */
  function LoglevelArgs(loglevel: Option<string>): seq<string> {
    if Truthy(loglevel) then ["--loglevel", loglevel.value] else []
  }

  /** The argv of `install`, in the order the source pushes it: the flags,
      the packages, the flags that apply only without packages, and the
      additional arguments. */
  ghost function InstallArgv(packages: seq<string>, o: Options, loglevel: Option<string>, environment: Environment): seq<string> {
    InstallHead(packages, o, loglevel) + packages + InstallTail(packages, o, environment) + o.additionalArgs
  }

  function UninstallArgv(packages: seq<string>, o: Options, loglevel: Option<string>): seq<string> {
    ["uninstall"]
    + Opt(o.dependencyType == Dev, ["--save-dev"])
    + Opt(o.global, ["--global"])
    + LoglevelArgs(loglevel)
    + packages
    + o.additionalArgs
  }

  /** `update` spells the global flag `-g` and takes no exact or additional
      arguments. */
  function UpdateArgv(packages: seq<string>, o: Options, loglevel: Option<string>): seq<string> {
    ["update"]
    + Opt(o.dependencyType == Dev, ["--save-dev"])
    + Opt(o.global, ["-g"])
    + LoglevelArgs(loglevel)
    + packages
  }

  function RebuildArgv(packages: seq<string>, loglevel: Option<string>): seq<string> {
    ["rebuild"] + LoglevelArgs(loglevel) + packages
  }

  /** The flags the install argv may contain besides the packages. */
  predicate InstallFlag(x: string) {
    x == "--save-dev" || x == "--save-exact" || x == "--global" || x == "--force" ||
    x == "--loglevel" || x == "--production" || x == "--ignore-scripts"
  }

  /** The flags of the install argv, before the packages. */
  ghost function InstallHead(packages: seq<string>, o: Options, loglevel: Option<string>): seq<string> {
    ["install"]
    + Opt(o.dependencyType == Dev, ["--save-dev"])
    + Opt(o.exact || AnyExactVersion(packages), ["--save-exact"])
    + Opt(o.global, ["--global"])
    + Opt(o.force, ["--force"])
    + LoglevelArgs(loglevel)
  }

  /** The part between the packages and the additional arguments. */
  function InstallTail(packages: seq<string>, o: Options, environment: Environment): seq<string> {
    Opt(|packages| == 0, Opt(environment == Production, ["--production"]) + Opt(o.ignoreScripts, ["--ignore-scripts"]))
  }


  /** Each flag of the head is there exactly when its option asks for it. */
  lemma InstallHeadFlags(packages: seq<string>, o: Options, loglevel: Option<string>)
    requires loglevel.Some? ==> !InstallFlag(loglevel.value)
    ensures var h := InstallHead(packages, o, loglevel);
      ("--save-dev" in h <==> o.dependencyType == Dev) &&
      ("--save-exact" in h <==> o.exact || AnyExactVersion(packages)) &&
      ("--global" in h <==> o.global) &&
      ("--force" in h <==> o.force) &&
      ("--loglevel" in h <==> Truthy(loglevel)) &&
      "--production" !in h && "--ignore-scripts" !in h
  {
    var a := Opt(o.dependencyType == Dev, ["--save-dev"]);
    var b := Opt(o.exact || AnyExactVersion(packages), ["--save-exact"]);
    var c := Opt(o.global, ["--global"]);
    var d := Opt(o.force, ["--force"]);
    var e := LoglevelArgs(loglevel);
    assert InstallHead(packages, o, loglevel) == ["install"] + a + b + c + d + e;
    FlagInHead("--save-dev", a, b, c, d, e);
    FlagInHead("--save-exact", a, b, c, d, e);
    FlagInHead("--global", a, b, c, d, e);
    FlagInHead("--force", a, b, c, d, e);
    FlagInHead("--loglevel", a, b, c, d, e);
    FlagInHead("--production", a, b, c, d, e);
    FlagInHead("--ignore-scripts", a, b, c, d, e);
  }

  lemma FlagInHead(f: string, a: seq<string>, b: seq<string>, c: seq<string>, d: seq<string>, e: seq<string>)
    requires f != "install"
    ensures f in ["install"] + a + b + c + d + e <==> f in a || f in b || f in c || f in d || f in e
  {
  }

  /** A flag that is in neither the packages nor the additional arguments
      is in the install argv exactly when it is among the flags around them. */
  lemma FlagInArgv(f: string, h: seq<string>, packages: seq<string>, t: seq<string>, additional: seq<string>)
    requires f !in packages && f !in additional
    ensures f in h + packages + t + additional <==> f in h || f in t
  {
  }

  lemma InstallTailFlags(packages: seq<string>, o: Options, environment: Environment)
    ensures var t := InstallTail(packages, o, environment);
      ("--production" in t <==> |packages| == 0 && environment == Production) &&
      ("--ignore-scripts" in t <==> |packages| == 0 && o.ignoreScripts) &&
      "--save-dev" !in t && "--save-exact" !in t && "--global" !in t && "--force" !in t && "--loglevel" !in t
  {
  }

  /** The install argv starts with the command and ends with the additional
      arguments, verbatim; the packages follow the flags. */
  lemma InstallArgvEnds(packages: seq<string>, o: Options, loglevel: Option<string>, environment: Environment)
    ensures var r := InstallArgv(packages, o, loglevel, environment);
      var k := |InstallHead(packages, o, loglevel)|;
      r[0] == "install" && r[k..k + |packages|] == packages &&
      r[|r| - |o.additionalArgs|..] == o.additionalArgs
  {
    var h := InstallHead(packages, o, loglevel);
    var r := InstallArgv(packages, o, loglevel, environment);
    assert r == h + packages + InstallTail(packages, o, environment) + o.additionalArgs;
    assert r[0] == h[0];
  }

  /** When no package, additional argument or loglevel spells a flag, each
      flag is present exactly when its option asks for it. */
  lemma InstallArgvFlags(packages: seq<string>, o: Options, loglevel: Option<string>, environment: Environment)
    requires forall x :: x in packages ==> !InstallFlag(x)
    requires forall x :: x in o.additionalArgs ==> !InstallFlag(x)
    requires loglevel.Some? ==> !InstallFlag(loglevel.value)
    ensures var r := InstallArgv(packages, o, loglevel, environment);
      ("--save-dev" in r <==> o.dependencyType == Dev) &&
      ("--save-exact" in r <==> o.exact || AnyExactVersion(packages)) &&
      ("--global" in r <==> o.global) &&
      ("--force" in r <==> o.force) &&
      ("--loglevel" in r <==> Truthy(loglevel)) &&
      ("--production" in r <==> |packages| == 0 && environment == Production) &&
      ("--ignore-scripts" in r <==> |packages| == 0 && o.ignoreScripts)
  {
    var h := InstallHead(packages, o, loglevel);
    var t := InstallTail(packages, o, environment);
    InstallHeadFlags(packages, o, loglevel);
    InstallTailFlags(packages, o, environment);
    FlagInArgv("--save-dev", h, packages, t, o.additionalArgs);
    FlagInArgv("--save-exact", h, packages, t, o.additionalArgs);
    FlagInArgv("--global", h, packages, t, o.additionalArgs);
    FlagInArgv("--force", h, packages, t, o.additionalArgs);
    FlagInArgv("--loglevel", h, packages, t, o.additionalArgs);
    FlagInArgv("--production", h, packages, t, o.additionalArgs);
    FlagInArgv("--ignore-scripts", h, packages, t, o.additionalArgs);
  }

  /** The unit tests' install argv: no options and one package. */
  lemma InstallArgvExample(environment: Environment)
    ensures InstallArgv(["whatever"], NoOptions, None, environment) == ["install", "whatever"]
  {
    ExactVersionIff("whatever");
    assert !AnyExactVersion(["whatever"]);
  }

  /** A version after the package name adds `--save-exact`. */
  lemma InstallArgvPinnedExample(environment: Environment)
    ensures InstallArgv(["whatever@1.2.3"], NoOptions, None, environment) == ["install", "--save-exact", "whatever@1.2.3"]
  {
    ExactVersionIff("whatever@1.2.3");
    assert PinAt("whatever@1.2.3", 8);
    assert ExactVersion(["whatever@1.2.3"][0]);
  }

  /** Without packages a production environment adds `--production`. */
  lemma InstallArgvProductionExample()
    ensures InstallArgv([], NoOptions, None, Production) == ["install", "--production"]
  {
  }

  /** `update` never asks for an exact save, never appends additional
      arguments, and uses `-g` rather than `--global`. */
  lemma UpdateArgvFlags(packages: seq<string>, o: Options, loglevel: Option<string>)
    requires "--save-exact" !in packages && "--global" !in packages && "-g" !in packages
    requires loglevel.Some? ==> loglevel.value != "--save-exact" && loglevel.value != "--global" && loglevel.value != "-g"
    ensures var r := UpdateArgv(packages, o, loglevel);
      "--save-exact" !in r && "--global" !in r && ("-g" in r <==> o.global) &&
      r == UpdateArgv(packages, o.(exact := false, additionalArgs := []), loglevel) &&
      r[|r| - |packages|..] == packages
  {
  }

  // ---------------------------------------------------------------------
  // Resolving overrides against the registry

  /** `resolveDependency`: the registry's record of that version, or the
      message of the error it throws. */
  function ResolveDependency(registry: string -> Result<map<string, ResolvedDependency>, string>, dependency: string, version: string): (r: Result<ResolvedDependency, string>)
    ensures r.Success? <==> registry(dependency).Success? && version in registry(dependency).value
    ensures r.Success? ==> r.value == registry(dependency).value[version]
    ensures registry(dependency).Failure? ==>
              r == Failure("Failed to download package info from npm registry: " + registry(dependency).error)
    ensures registry(dependency).Success? && version !in registry(dependency).value ==>
              r == Failure(dependency + "@" + version + " was not found in the npm registry!")
  {
    match registry(dependency)
    case Failure(e) => Failure("Failed to download package info from npm registry: " + e)
    case Success(versions) =>
      if version in versions then Success(versions[version])
      else Failure(dependency + "@" + version + " was not found in the npm registry!")
  }

  predicate Resolvable(registry: string -> Result<map<string, ResolvedDependency>, string>, dependencies: map<string, string>) {
    forall d :: d in dependencies ==> ResolveDependency(registry, d, dependencies[d]).Success?
  }

  /** The overrides: every requested dependency's registry record. */
  function Resolved(registry: string -> Result<map<string, ResolvedDependency>, string>, dependencies: map<string, string>): (r: Overrides)
    requires Resolvable(registry, dependencies)
    ensures r.Keys == dependencies.Keys
    ensures forall d :: d in dependencies ==> ResolveDependency(registry, d, dependencies[d]) == Success(r[d])
  {
    map d | d in dependencies :: ResolveDependency(registry, d, dependencies[d]).value
  }

  /** The message of a failed resolution of one of the requested dependencies. */
  predicate ResolutionError(registry: string -> Result<map<string, ResolvedDependency>, string>, dependencies: map<string, string>, message: string) {
    exists d :: d in dependencies && ResolveDependency(registry, d, dependencies[d]) == Failure(message)
  }

  // ---------------------------------------------------------------------
  // Bumping the affected package.json files

  /** A manifest the override loop rewrites: it has dependencies and names
      an override among them. */
  predicate NeedsBump(m: Manifest, overrides: Overrides) {
    m.dependencies.Some? && Touches(m.dependencies.value, overrides)
  }

  /** The manifest as the override loop saves it. */
  function Bump(m: Manifest, overrides: Overrides): Manifest
    requires m.dependencies.Some?
  {
    m.(dependencies := Some(PinVersions(m.dependencies.value, overrides)))
  }

  /** A bump pins exactly the overridden dependencies to the override's
      version, keeps every other dependency, and changes no other member. */
  lemma BumpPinsDependencies(m: Manifest, overrides: Overrides)
    requires m.dependencies.Some?
    ensures var d := m.dependencies.value;
      var r := Bump(m, overrides);
      r.dependencies.Some? && r.dependencies.value.Keys == d.Keys &&
      (forall k :: k in d && k in overrides ==> r.dependencies.value[k] == overrides[k].version) &&
      (forall k :: k in d && k !in overrides ==> r.dependencies.value[k] == d[k]) &&
      r.name == m.name && r.version == m.version && r.resolutions == m.resolutions && r.extra == m.extra
  {
  }

  /** The files after the manifests at `paths` have been bumped. */
  function BumpAll(ms: map<string, Manifest>, paths: set<string>, overrides: Overrides): (r: map<string, Manifest>)
    ensures r.Keys == ms.Keys
  {
    map p | p in ms :: if p in paths && NeedsBump(ms[p], overrides) then Bump(ms[p], overrides) else ms[p]
  }

  /** After bumping `paths`, a file there that names an override holds its
      bump, and every other file is as it was. */
  lemma BumpAllBumpsVisited(ms: map<string, Manifest>, paths: set<string>, overrides: Overrides)
    ensures var r := BumpAll(ms, paths, overrides);
      (forall p :: p in paths && p in ms && NeedsBump(ms[p], overrides) ==> r[p] == Bump(ms[p], overrides)) &&
      (forall p :: p in ms && (p !in paths || !NeedsBump(ms[p], overrides)) ==> r[p] == ms[p])
  {
  }

  /** The manifests among `paths` that are written. */
  function BumpedPaths(ms: map<string, Manifest>, paths: set<string>, overrides: Overrides): set<string> {
    set p | p in paths && p in ms && NeedsBump(ms[p], overrides)
  }

  /** One more visited path bumps that manifest, if it needs it, and adds
      it to the written paths exactly then. */
  lemma BumpStep(ms: map<string, Manifest>, paths: set<string>, p: string, overrides: Overrides)
    requires p in ms && p !in paths
    ensures BumpAll(ms, paths + {p}, overrides) ==
            BumpAll(ms, paths, overrides)[p := if NeedsBump(ms[p], overrides) then Bump(ms[p], overrides) else ms[p]]
    ensures BumpedPaths(ms, paths + {p}, overrides) ==
            BumpedPaths(ms, paths, overrides) + (if NeedsBump(ms[p], overrides) then {p} else {})
  {
    BumpAllStep(ms, paths, p, overrides);
  }

  lemma BumpAllStep(ms: map<string, Manifest>, paths: set<string>, p: string, overrides: Overrides)
    requires p in ms
    ensures BumpAll(ms, paths + {p}, overrides) ==
            BumpAll(ms, paths, overrides)[p := if NeedsBump(ms[p], overrides) then Bump(ms[p], overrides) else ms[p]]
  {
    var after := BumpAll(ms, paths + {p}, overrides);
    var step := BumpAll(ms, paths, overrides)[p := if NeedsBump(ms[p], overrides) then Bump(ms[p], overrides) else ms[p]];
    assert after.Keys == step.Keys;
    forall q | q in after ensures after[q] == step[q] {
      if q != p {
        assert after[q] == BumpAll(ms, paths, overrides)[q];
      }
    }
  }

  /** A bumped manifest needs no second bump: running the manifest loop again
      writes nothing new. */
  lemma BumpIdempotent(m: Manifest, overrides: Overrides)
    requires m.dependencies.Some?
    ensures Bump(Bump(m, overrides), overrides) == Bump(m, overrides)
    ensures NeedsBump(Bump(m, overrides), overrides) == NeedsBump(m, overrides)
  {
    PinVersionsIdempotent(m.dependencies.value, overrides);
  }

  /** The paths of the manifest writes among the events. */
  ghost function WrittenManifests(events: seq<Event>): set<string>
    decreases |events|
  {
    if events == [] then {}
    else WrittenManifests(events[..|events| - 1])
         + (if events[|events| - 1].WroteManifest? then {events[|events| - 1].path} else {})
  }

  /** The events are writes of manifests, and exactly those at `paths` are
      written. */
  ghost predicate ManifestWritesOf(events: seq<Event>, paths: set<string>) {
    (forall i :: 0 <= i < |events| ==> events[i].WroteManifest?) && WrittenManifests(events) == paths
  }

  lemma ManifestWritesStep(events: seq<Event>, paths: set<string>, e: seq<Event>, p: string)
    requires ManifestWritesOf(events, paths)
    requires e == [] || e == [WroteManifest(p)]
    ensures ManifestWritesOf(events + e, paths + (if e == [] then {} else {p}))
  {
    if e != [] {
      assert (events + e)[..|events + e| - 1] == events;
    } else {
      assert events + e == events;
    }
  }

  // ---------------------------------------------------------------------
  // The failure paths of overrideDependencies

  /** What a bare `fail(message)` evaluates to in this module: the name is
      bound to nothing there (the base class's helper is `this.fail`), so the
      call throws a ReferenceError and the promise rejects with it. */
  function FailAsWritten(message: string): Outcome {
    Rejected(FailIsNotDefined)
  }

  const FailIsNotDefined := "ReferenceError: fail is not defined"

  /** As written, an unsupported lockfile version rejects overrideDependencies
      instead of settling with a failed result, and the message is lost. */
  lemma UnsupportedLockfileAsWritten(m1: string, m2: string)
    ensures FailAsWritten("Lockfile version " + IntToString(4) + " is not supported!").Rejected?
    ensures FailAsWritten(m1) == FailAsWritten(m2)
    ensures FailAsWritten(m1) != Settled(Fail(m1))
  {
  }

  /** The message every failure to find the root or read its lockfile gets. */
  const LoadError := "Error loading root package.json and package-lock.json: "

  /** A trace made of three parts splits back into them. */
  lemma TraceSplit(t0: seq<Event>, writes: seq<Event>, tail: seq<Event>)
    ensures var t := t0 + writes + tail;
      t[..|t0|] == t0 && t[|t0|..|t| - |tail|] == writes && t[|t| - |tail|..] == tail
  {
  }

  /** What overrideDependencies acts on once its checks pass: the package
      root, its lockfile and the resolved overrides. */
  datatype Plan = Plan(root: string, lock: Lockfile, overrides: Overrides)

  /** The lockfile path next to the root package.json. */
  function LockPath(root: string): string {
    Join(root, "package-lock.json")
  }

  // ---------------------------------------------------------------------
  // The adapter

  class Npm {
    var cwd: string
    var loglevel: Option<string>
    var environment: Environment
    const host: Host
    /** `semver.gte(version, "7.0.0")`. */
    const atLeast7: string -> bool

    constructor(host: Host, cwd: string, loglevel: Option<string>, environment: Environment, atLeast7: string -> bool)
      ensures this.host == host && this.cwd == cwd && this.loglevel == loglevel
      ensures this.environment == environment && this.atLeast7 == atLeast7
    {
      this.host := host;
      this.cwd := cwd;
      this.loglevel := loglevel;
      this.environment := environment;
      this.atLeast7 := atLeast7;
    }

    /** `command`: runs npm in the adapter's cwd. */
    method Command(args: seq<string>) returns (r: CommandResult)
      modifies host
      ensures r == host.run("npm", args, cwd)
      ensures host.trace == old(host.trace) + [Ran("npm", args, cwd)]
      ensures host.manifests == old(host.manifests) && host.lockfiles == old(host.lockfiles)
    {
      r := host.Exec("npm", args, cwd);
    }

    method Install(packages: seq<string>, options: Options) returns (r: CommandResult)
      modifies host
      ensures r == host.run("npm", InstallArgv(packages, options, loglevel, environment), cwd)
      ensures host.trace == old(host.trace) + [Ran("npm", InstallArgv(packages, options, loglevel, environment), cwd)]
      ensures host.manifests == old(host.manifests) && host.lockfiles == old(host.lockfiles)
    {
      var args := InstallFlags(packages, options);
      args := PushAll(args, packages);
      ghost var prefix := args;
      if |packages| == 0 {
        if environment == Production {
          args := args + ["--production"];
        }
        if options.ignoreScripts {
          args := args + ["--ignore-scripts"];
        }
      }
      assert args == prefix + InstallTail(packages, options, environment);
      args := PushAll(args, options.additionalArgs);
      r := Command(args);
    }

    /** The first pushes of `install`, up to the packages. */
    method InstallFlags(packages: seq<string>, options: Options) returns (args: seq<string>)
      ensures args == InstallHead(packages, options, loglevel)
    {
      args := ["install"];
      if options.dependencyType == Dev {
        args := args + ["--save-dev"];
      }
      ghost var expected := ["install"] + Opt(options.dependencyType == Dev, ["--save-dev"]);
      assert args == expected;
      var pinned := SomeExactVersion(packages);
      if options.exact || pinned {
        args := args + ["--save-exact"];
      }
      expected := expected + Opt(options.exact || AnyExactVersion(packages), ["--save-exact"]);
      assert args == expected;
      if options.global {
        args := args + ["--global"];
      }
      expected := expected + Opt(options.global, ["--global"]);
      assert args == expected;
      if options.force {
        args := args + ["--force"];
      }
      expected := expected + Opt(options.force, ["--force"]);
      assert args == expected;
      if Truthy(loglevel) {
        args := args + ["--loglevel", loglevel.value];
      }
    }

    method Uninstall(packages: seq<string>, options: Options) returns (r: CommandResult)
      modifies host
      ensures r == host.run("npm", UninstallArgv(packages, options, loglevel), cwd)
      ensures host.trace == old(host.trace) + [Ran("npm", UninstallArgv(packages, options, loglevel), cwd)]
      ensures host.manifests == old(host.manifests) && host.lockfiles == old(host.lockfiles)
    {
      var args := ["uninstall"];
      if options.dependencyType == Dev {
        args := args + ["--save-dev"];
      }
      if options.global {
        args := args + ["--global"];
      }
      if Truthy(loglevel) {
        args := args + ["--loglevel", loglevel.value];
      }
      assert args == ["uninstall"] + Opt(options.dependencyType == Dev, ["--save-dev"]) + Opt(options.global, ["--global"]) + LoglevelArgs(loglevel);
      args := PushAll(args, packages);
      args := PushAll(args, options.additionalArgs);
      assert args == UninstallArgv(packages, options, loglevel);
      r := Command(args);
    }

    method Update(packages: seq<string>, options: Options) returns (r: CommandResult)
      modifies host
      ensures r == host.run("npm", UpdateArgv(packages, options, loglevel), cwd)
      ensures host.trace == old(host.trace) + [Ran("npm", UpdateArgv(packages, options, loglevel), cwd)]
      ensures host.manifests == old(host.manifests) && host.lockfiles == old(host.lockfiles)
    {
      var args := ["update"];
      if options.dependencyType == Dev {
        args := args + ["--save-dev"];
      }
      if options.global {
        args := args + ["-g"];
      }
      if Truthy(loglevel) {
        args := args + ["--loglevel", loglevel.value];
      }
      assert args == ["update"] + Opt(options.dependencyType == Dev, ["--save-dev"]) + Opt(options.global, ["-g"]) + LoglevelArgs(loglevel);
      args := PushAll(args, packages);
      assert args == UpdateArgv(packages, options, loglevel);
      r := Command(args);
    }

    method Rebuild(packages: seq<string>) returns (r: CommandResult)
      modifies host
      ensures r == host.run("npm", RebuildArgv(packages, loglevel), cwd)
      ensures host.trace == old(host.trace) + [Ran("npm", RebuildArgv(packages, loglevel), cwd)]
      ensures host.manifests == old(host.manifests) && host.lockfiles == old(host.lockfiles)
    {
      var args := ["rebuild"];
      if Truthy(loglevel) {
        args := args + ["--loglevel", loglevel.value];
      }
      assert args == ["rebuild"] + LoglevelArgs(loglevel);
      args := PushAll(args, packages);
      assert args == RebuildArgv(packages, loglevel);
      r := Command(args);
    }

    /** npm is detected when a root (with package-lock.json, if required) is
        found; only then, and only when asked, does cwd move to it. */
    method Detect(requireLockfile: bool, setCwdToPackageRoot: bool) returns (detected: bool)
      modifies this
      ensures var root := host.findRoot(old(cwd), if requireLockfile then Some("package-lock.json") else None);
        detected == root.Success? &&
        cwd == (if detected && setCwdToPackageRoot then root.value else old(cwd))
      ensures loglevel == old(loglevel) && environment == old(environment)
    {
      var root := host.findRoot(cwd, if requireLockfile then Some("package-lock.json") else None);
      if root.Failure? {
        return false;
      }
      if setCwdToPackageRoot {
        cwd := root.value;
      }
      return true;
    }

    method Version() returns (r: Result<string, string>)
      modifies host
      ensures r == VersionOf("npm", host.run("npm", ["-v"], cwd))
      ensures host.trace == old(host.trace) + [Ran("npm", ["-v"], cwd)]
      ensures host.manifests == old(host.manifests) && host.lockfiles == old(host.lockfiles)
    {
      var result := Command(["-v"]);
      r := VersionOf("npm", result);
    }

    /** The loop over the requested dependencies: the overrides, or the
        message of the first resolution that fails. */
    method ResolveAll(dependencies: map<string, string>) returns (r: Result<Overrides, string>)
      ensures r.Success? <==> Resolvable(host.registry, dependencies)
      ensures r.Success? ==> r.value == Resolved(host.registry, dependencies)
      ensures r.Failure? ==> ResolutionError(host.registry, dependencies, r.error)
    {
      var overrides: Overrides := map[];
      var todo := dependencies.Keys;
      while todo != {}
        invariant todo <= dependencies.Keys
        invariant overrides.Keys == dependencies.Keys - todo
        invariant forall d :: d in overrides ==> ResolveDependency(host.registry, d, dependencies[d]) == Success(overrides[d])
        decreases todo
      {
        var dep :| dep in todo;
        var resolved := ResolveDependency(host.registry, dep, dependencies[dep]);
        if resolved.Failure? {
          return Failure(resolved.error);
        }
        overrides := overrides[dep := resolved.value];
        todo := todo - {dep};
      }
      assert Resolvable(host.registry, dependencies);
      assert overrides == Resolved(host.registry, dependencies);
      return Success(overrides);
    }

    /** One iteration of that loop, for a file that exists: its dependencies
        are pinned and it is saved when any of them was overridden. */
    method UpdateManifest(packPath: string, overrides: Overrides) returns (wrote: bool)
      requires packPath in host.manifests
      modifies host
      ensures wrote == NeedsBump(old(host.manifests[packPath]), overrides)
      ensures host.manifests == if wrote then old(host.manifests)[packPath := Bump(old(host.manifests[packPath]), overrides)] else old(host.manifests)
      ensures host.trace == old(host.trace) + (if wrote then [WroteManifest(packPath)] else [])
      ensures host.lockfiles == old(host.lockfiles)
    {
      var pack := host.ReadManifest(packPath);
      wrote := false;
      if pack.value.dependencies.Some? {
        var pinned, wasChanged := RewriteVersions(pack.value.dependencies.value, overrides);
        if wasChanged {
          host.WriteManifest(packPath, pack.value.(dependencies := Some(pinned)));
          wrote := true;
        }
      }
    }

    /** The loop over the affected package.json files: every one with
        dependencies that name an override is rewritten and saved, the
        others are left alone; a file that cannot be read ends the loop.
        A Set iterates in insertion order, so `first` (the root package.json,
        added before the walks) is visited before any other file; the order
        of the rest is left open. */
    method UpdateManifests(affected: set<string>, overrides: Overrides, first: string) returns (error: Option<string>, ghost done: set<string>, ghost writes: seq<Event>)
      modifies host
      ensures done <= affected && done <= old(host.manifests).Keys
      ensures error.None? ==> done == affected
      ensures first in affected && first in old(host.manifests) ==> first in done
      ensures error.Some? ==> exists p :: p in affected && p !in old(host.manifests) && error.value == host.readError(p)
      ensures host.manifests == BumpAll(old(host.manifests), done, overrides)
      ensures host.trace == old(host.trace) + writes
      ensures ManifestWritesOf(writes, BumpedPaths(old(host.manifests), done, overrides))
      ensures host.lockfiles == old(host.lockfiles)
    {
      ghost var ms := host.manifests;
      done, writes := {}, [];
      var todo := affected;
      while todo != {}
        invariant todo <= affected && done == affected - todo
        invariant done <= ms.Keys
        invariant first in affected && done != {} ==> first in done
        invariant host.lockfiles == old(host.lockfiles)
        invariant Progress(ms, old(host.trace), done, writes, overrides)
        decreases todo
      {
        var packPath :| packPath in todo && (first in todo ==> packPath == first);
        assert host.manifests.Keys == ms.Keys;
        if packPath !in host.manifests {
          return Some(host.readError(packPath)), done, writes;
        }
        writes := Visit(packPath, overrides, ms, old(host.trace), done, writes);
        todo, done := todo - {packPath}, done + {packPath};
      }
      return None, done, writes;
    }

    /** The manifests at `done` have been bumped, and `writes`, the events
        since `trace0`, saved exactly those that needed it. */
    ghost predicate Progress(ms: map<string, Manifest>, trace0: seq<Event>, done: set<string>, writes: seq<Event>, overrides: Overrides)
      reads host
    {
      host.manifests == BumpAll(ms, done, overrides) &&
      host.trace == trace0 + writes &&
      ManifestWritesOf(writes, BumpedPaths(ms, done, overrides))
    }

    /** One iteration of the manifest loop keeps that progress, one path on. */
    method Visit(packPath: string, overrides: Overrides, ghost ms: map<string, Manifest>, ghost trace0: seq<Event>,
                 ghost done: set<string>, ghost writes: seq<Event>) returns (ghost writes': seq<Event>)
      requires packPath in ms && packPath !in done && done <= ms.Keys
      requires Progress(ms, trace0, done, writes, overrides)
      modifies host
      ensures Progress(ms, trace0, done + {packPath}, writes', overrides)
      ensures host.lockfiles == old(host.lockfiles)
    {
      BumpStep(ms, done, packPath, overrides);
      var wrote := UpdateManifest(packPath, overrides);
      ghost var step := if wrote then [WroteManifest(packPath)] else [];
      ManifestWritesStep(writes, BumpedPaths(ms, done, overrides), step, packPath);
      writes' := writes + step;
    }

    /** overrideDependencies, with every failure settling as `Fail` (see
        FailAsWritten for the source as written). Nothing is written unless
        the root and its lockfile are found, the lockfile version is
        supported and every override resolves; then the affected manifests
        that name an override are bumped, the lockfile is patched and written
        after them, and install and dedupe run in the root, after which cwd
        is back where it was. */
    method OverrideDependencies(dependencies: map<string, string>) returns (r: CommandResult)
      modifies this, host
      ensures cwd == old(cwd) && loglevel == old(loglevel) && environment == old(environment)
      ensures var rootR := host.findRoot(old(cwd), Some("package-lock.json"));
        rootR.Failure? ==> r == Fail(LoadError + rootR.error) && unchanged(host)
      ensures var rootR := host.findRoot(old(cwd), Some("package-lock.json"));
        rootR.Success? && LockPath(rootR.value) !in old(host.lockfiles) ==>
          r == Fail(LoadError + host.readError(LockPath(rootR.value))) && unchanged(host)
      ensures var rootR := host.findRoot(old(cwd), Some("package-lock.json"));
        rootR.Success? && LockPath(rootR.value) in old(host.lockfiles) ==>
          var lock := old(host.lockfiles)[LockPath(rootR.value)];
          (!SupportedVersion(lock.lockfileVersion) ==>
             r == Fail("Lockfile version " + IntToString(lock.lockfileVersion) + " is not supported!") && unchanged(host)) &&
          (SupportedVersion(lock.lockfileVersion) && !Resolvable(host.registry, dependencies) ==>
             r == Fail(r.stderr) && ResolutionError(host.registry, dependencies, r.stderr) && unchanged(host))
      ensures var rootR := host.findRoot(old(cwd), Some("package-lock.json"));
        rootR.Success? && LockPath(rootR.value) in old(host.lockfiles) &&
        SupportedVersion(old(host.lockfiles)[LockPath(rootR.value)].lockfileVersion) &&
        Resolvable(host.registry, dependencies) ==>
          Applied(rootR.value, old(host.lockfiles)[LockPath(rootR.value)], Resolved(host.registry, dependencies),
                  r, old(host.manifests), old(host.lockfiles), old(host.trace))
    {
      var loaded := Load(dependencies);
      if loaded.Failure? {
        return loaded.error;
      }
      var updated;
      r, updated := Apply(loaded.value.root, loaded.value.lock, loaded.value.overrides);
    }

    /** overrideDependencies as written, with its bare `fail` calls: it
        settles exactly where the corrected operation succeeds in updating
        the files, with the same result and effects; on each of the four
        failure paths it instead rejects with the ReferenceError, after the
        same effects as the corrected operation's. */
    method OverrideDependenciesAsWritten(dependencies: map<string, string>) returns (o: Outcome)
      modifies this, host
      ensures cwd == old(cwd) && loglevel == old(loglevel) && environment == old(environment)
      ensures !old(ChecksPass(dependencies)) ==> o == Rejected(FailIsNotDefined) && unchanged(host)
      ensures old(ChecksPass(dependencies)) ==>
          var plan := old(PlanOf(dependencies));
          var updated := AffectedManifests(plan.lock, plan.root, plan.overrides) <= old(host.manifests).Keys;
          (updated <==> o.Settled?) && (!updated ==> o == Rejected(FailIsNotDefined)) &&
          exists r :: Applied(plan.root, plan.lock, plan.overrides, r, old(host.manifests), old(host.lockfiles), old(host.trace)) &&
                      (updated ==> o == Settled(r))
    {
      var loaded := Load(dependencies);
      if loaded.Failure? {
        return FailAsWritten(loaded.error.stderr);
      }
      var r, updated := Apply(loaded.value.root, loaded.value.lock, loaded.value.overrides);
      o := if updated then Settled(r) else FailAsWritten(r.stderr);
    }

    /** The root is found, its lockfile read, its version supported and every
        requested dependency resolves. */
    ghost predicate ChecksPass(dependencies: map<string, string>)
      reads this, host
    {
      var rootR := host.findRoot(cwd, Some("package-lock.json"));
      rootR.Success? && LockPath(rootR.value) in host.lockfiles &&
      SupportedVersion(host.lockfiles[LockPath(rootR.value)].lockfileVersion) &&
      Resolvable(host.registry, dependencies)
    }

    /** What those checks yield when they pass. */
    ghost function PlanOf(dependencies: map<string, string>): Plan
      requires ChecksPass(dependencies)
      reads this, host
    {
      var root := host.findRoot(cwd, Some("package-lock.json")).value;
      Plan(root, host.lockfiles[LockPath(root)], Resolved(host.registry, dependencies))
    }

    /** The checks overrideDependencies makes before it changes anything: the
        root, its lockfile's version and the overrides; a failed check gives
        the failure the operation settles with. */
    method Load(dependencies: map<string, string>) returns (loaded: Result<Plan, CommandResult>)
      ensures var rootR := host.findRoot(cwd, Some("package-lock.json"));
        rootR.Failure? ==> loaded == Failure(Fail(LoadError + rootR.error))
      ensures var rootR := host.findRoot(cwd, Some("package-lock.json"));
        rootR.Success? && LockPath(rootR.value) !in host.lockfiles ==>
          loaded == Failure(Fail(LoadError + host.readError(LockPath(rootR.value))))
      ensures var rootR := host.findRoot(cwd, Some("package-lock.json"));
        rootR.Success? && LockPath(rootR.value) in host.lockfiles ==>
          var lock := host.lockfiles[LockPath(rootR.value)];
          (!SupportedVersion(lock.lockfileVersion) ==>
             loaded == Failure(Fail("Lockfile version " + IntToString(lock.lockfileVersion) + " is not supported!"))) &&
          (SupportedVersion(lock.lockfileVersion) && !Resolvable(host.registry, dependencies) ==>
             loaded.Failure? && loaded.error == Fail(loaded.error.stderr) &&
             ResolutionError(host.registry, dependencies, loaded.error.stderr)) &&
          (SupportedVersion(lock.lockfileVersion) && Resolvable(host.registry, dependencies) ==>
             loaded == Success(Plan(rootR.value, lock, Resolved(host.registry, dependencies))))
      ensures loaded.Success? ==> SupportedVersion(loaded.value.lock.lockfileVersion)
      ensures loaded.Success? <==> ChecksPass(dependencies)
      ensures loaded.Success? ==> loaded.value == PlanOf(dependencies)
    {
      var rootR := host.findRoot(cwd, Some("package-lock.json"));
      if rootR.Failure? {
        return Failure(Fail(LoadError + rootR.error));
      }
      var root := rootR.value;
      var lockR := host.ReadLockfile(LockPath(root));
      if lockR.Failure? {
        return Failure(Fail(LoadError + lockR.error));
      }
      var lock := lockR.value;
      var v := lock.lockfileVersion;
      if v != 1 && v != 2 && v != 3 {
        return Failure(Fail("Lockfile version " + IntToString(v) + " is not supported!"));
      }
      var resolved := ResolveAll(dependencies);
      if resolved.Failure? {
        return Failure(Fail(resolved.error));
      }
      return Success(Plan(root, lock, resolved.value));
    }

    /** What overrideDependencies does once its checks pass: the manifest
        writes, then the lockfile write, then install and dedupe in the root. */
    method Apply(root: string, lock: Lockfile, overrides: Overrides) returns (r: CommandResult, updated: bool)
      requires SupportedVersion(lock.lockfileVersion)
      modifies this, host
      ensures cwd == old(cwd) && loglevel == old(loglevel) && environment == old(environment)
      ensures updated <==> AffectedManifests(lock, root, overrides) <= old(host.manifests).Keys
      ensures Applied(root, lock, overrides, r, old(host.manifests), old(host.lockfiles), old(host.trace))
    {
      var patched, affected := PatchAll(lock, root, overrides);
      var error, done, writes := UpdateManifests(affected, overrides, PackageJson(root));
      if error.Some? {
        assert host.trace[|old(host.trace)|..] == writes;
        return Fail("Error updating package files: " + error.value), false;
      }
      updated := true;
      ghost var mid := host.trace;
      r := Finish(root, patched);
      TraceSplit(old(host.trace), writes, host.trace[|mid|..]);
    }

    /** The last steps of overrideDependencies: the lockfile write, then
        install and dedupe in the root, with cwd restored. */
    method Finish(root: string, patched: Lockfile) returns (r: CommandResult)
      modifies this, host
      ensures cwd == old(cwd) && loglevel == old(loglevel) && environment == old(environment)
      ensures var install := InstallArgv([], NoOptions, loglevel, environment);
        r == host.run("npm", install, root) &&
        host.trace == old(host.trace) + [WroteLockfile(LockPath(root)), Ran("npm", install, root), Ran("npm", ["dedupe"], root)]
      ensures host.manifests == old(host.manifests)
      ensures host.lockfiles == old(host.lockfiles)[LockPath(root) := patched]
    {
      host.WriteLockfile(LockPath(root), patched);
      var prevCwd := cwd;
      cwd := root;
      r := Install([], NoOptions);
      var deduped := Command(["dedupe"]);
      cwd := prevCwd;
    }

    /** The state after the checks of overrideDependencies pass, given the
        state before: when a manifest to update cannot be read, the operation
        settles with that failure before the lockfile is written, the
        manifests visited before it (the root package.json first, when it
        exists) having been bumped and saved already; otherwise
        every affected manifest that names an override is bumped, the patched
        lockfile is written after them, and install followed by dedupe runs in
        the root, install's result being the operation's. */
    ghost predicate Applied(root: string, lock: Lockfile, overrides: Overrides, r: CommandResult,
                            manifests0: map<string, Manifest>, lockfiles0: map<string, Lockfile>, trace0: seq<Event>)
      requires SupportedVersion(lock.lockfileVersion)
      reads this, host
    {
      var affected := AffectedManifests(lock, root, overrides);
      var n := |trace0|;
      |host.trace| >= n && host.trace[..n] == trace0 &&
      (!(affected <= manifests0.Keys) ==>
         (exists p :: p in affected && p !in manifests0 && r == Fail("Error updating package files: " + host.readError(p))) &&
         host.lockfiles == lockfiles0 &&
         (exists done :: done <= affected && done <= manifests0.Keys &&
            (PackageJson(root) in manifests0 ==> PackageJson(root) in done) &&
            host.manifests == BumpAll(manifests0, done, overrides) &&
            ManifestWritesOf(host.trace[n..], BumpedPaths(manifests0, done, overrides)))) &&
      (affected <= manifests0.Keys ==>
         var install := InstallArgv([], NoOptions, loglevel, environment);
         r == host.run("npm", install, root) &&
         host.manifests == BumpAll(manifests0, affected, overrides) &&
         host.lockfiles == lockfiles0[LockPath(root) := PatchLockfile(lock, root, overrides)] &&
         |host.trace| >= n + 3 &&
         ManifestWritesOf(host.trace[n..|host.trace| - 3], BumpedPaths(manifests0, affected, overrides)) &&
         host.trace[|host.trace| - 3..] == [WroteLockfile(LockPath(root)), Ran("npm", install, root), Ran("npm", ["dedupe"], root)])
    }

    /** The walks overrideDependencies runs: the flat one for versions 2 and
        3, then the nested one for versions 1 and 2, both adding to a set
        that starts with the root package.json. */
    method PatchAll(lock: Lockfile, root: string, overrides: Overrides) returns (patched: Lockfile, affected: set<string>)
      requires SupportedVersion(lock.lockfileVersion)
      ensures patched == PatchLockfile(lock, root, overrides)
      ensures affected == AffectedManifests(lock, root, overrides)
    {
      var v := lock.lockfileVersion;
      affected := {PackageJson(root)};
      patched := lock;
      if v == 2 || v == 3 {
        var packages, affected2 := WalkLockfileV2V3(lock.packages, root, overrides, affected);
        patched, affected := patched.(packages := packages), affected2;
      }
      if v <= 2 {
        var deps, affected1 := WalkLockfileV1(lock.dependencies, root, overrides, affected);
        patched, affected := patched.(dependencies := deps), affected1;
      }
    }

    /** pack. From npm 7 on, npm writes the tarball into the target directory
        itself and the result's stdout becomes its full path. Before npm 7 a
        workspace other than "." fails; otherwise the tarball npm writes is
        moved to TarballName in the target directory, unless it is already
        there, and the result's stdout becomes that path. cwd ends where it
        started. */
    method Pack(options: PackOptions) returns (r: Outcome)
      modifies this, host
      ensures cwd == old(cwd) && loglevel == old(loglevel) && environment == old(environment)
      ensures host.manifests == old(host.manifests) && host.lockfiles == old(host.lockfiles)
      ensures var v := VersionOf("npm", host.run("npm", ["-v"], old(cwd)));
        v.Failure? ==> r == Rejected(v.error) && host.trace == old(host.trace) + [Ran("npm", ["-v"], old(cwd))]
      ensures var v := VersionOf("npm", host.run("npm", ["-v"], old(cwd)));
        var targetDir := TargetDir(options, old(cwd));
        var workspaceDir := Join(old(cwd), Workspace(options));
        v.Success? && atLeast7(v.value) ==>
          var packed := host.run("npm", ["pack", "--pack-destination", targetDir], workspaceDir);
          r == Settled(packed.(stdout := Join(targetDir, packed.stdout))) &&
          host.trace == old(host.trace) + [Ran("npm", ["-v"], old(cwd)), MadeDir(targetDir), Ran("npm", ["pack", "--pack-destination", targetDir], workspaceDir)]
      ensures var v := VersionOf("npm", host.run("npm", ["-v"], old(cwd)));
        v.Success? && !atLeast7(v.value) && Workspace(options) != "." ==>
          r == Settled(Fail("npm " + v.value + " does not support monorepos")) &&
          host.trace == old(host.trace) + [Ran("npm", ["-v"], old(cwd))]
      ensures var v := VersionOf("npm", host.run("npm", ["-v"], old(cwd)));
        v.Success? && !atLeast7(v.value) && Workspace(options) == "." ==>
          PackedAndMoved(TargetDir(options, old(cwd)), Join(old(cwd), Workspace(options)), r,
                         old(host.manifests), old(host.trace) + [Ran("npm", ["-v"], old(cwd))])
    {
      var targetDir := TargetDir(options, cwd);
      var workspace := Workspace(options);
      var workspaceDir := Join(cwd, workspace);
      var npmVersion := Version();
      if npmVersion.Failure? {
        return Rejected(npmVersion.error);
      }
      if atLeast7(npmVersion.value) {
        var result := PackInto(targetDir, workspaceDir);
        return Settled(result);
      }
      if workspace != "." {
        return Settled(Fail("npm " + npmVersion.value + " does not support monorepos"));
      }
      r := PackAndMove(targetDir, workspaceDir);
    }

    /** The outcome of pack before npm 7, given the manifests and the trace
        before: the target directory is made; a workspace manifest that
        cannot be read or has no name rejects; otherwise `npm pack` runs in
        the workspace and, when it succeeds, the tarball is moved to
        TarballName in the target directory unless it is already there, and
        the result's stdout becomes that path. */
    ghost predicate PackedAndMoved(targetDir: string, workspaceDir: string, r: Outcome,
                                   manifests0: map<string, Manifest>, trace0: seq<Event>)
      reads host
    {
      var manifestPath := PackageJson(workspaceDir);
      var before := trace0 + [MadeDir(targetDir)];
      (manifestPath !in manifests0 ==> r == Rejected(host.readError(manifestPath)) && host.trace == before) &&
      (manifestPath in manifests0 && manifests0[manifestPath].name.None? ==>
         r == Rejected(NoName) && host.trace == before) &&
      (manifestPath in manifests0 && manifests0[manifestPath].name.Some? ==>
         var m := manifests0[manifestPath];
         var targetPath := Join(targetDir, TarballName(m.name.value, TemplateText(m.version)));
         var packed := host.run("npm", ["pack"], workspaceDir);
         var written := Join(workspaceDir, packed.stdout);
         (!packed.success ==> r == Settled(packed) && host.trace == before + [Ran("npm", ["pack"], workspaceDir)]) &&
         (packed.success ==>
            r == Settled(packed.(stdout := targetPath)) &&
            host.trace == before + [Ran("npm", ["pack"], workspaceDir)] + (if written != targetPath then [Moved(written, targetPath)] else [])))
    }

    /** pack from npm 7 on: npm writes the tarball into the target directory. */
    method PackInto(targetDir: string, workspaceDir: string) returns (r: CommandResult)
      modifies this, host
      ensures cwd == old(cwd) && loglevel == old(loglevel) && environment == old(environment)
      ensures host.manifests == old(host.manifests) && host.lockfiles == old(host.lockfiles)
      ensures var packed := host.run("npm", ["pack", "--pack-destination", targetDir], workspaceDir);
        r == packed.(stdout := Join(targetDir, packed.stdout)) &&
        host.trace == old(host.trace) + [MadeDir(targetDir), Ran("npm", ["pack", "--pack-destination", targetDir], workspaceDir)]
    {
      host.EnsureDir(targetDir);
      var prevCwd := cwd;
      cwd := workspaceDir;
      var result := Command(["pack", "--pack-destination", targetDir]);
      cwd := prevCwd;
      return result.(stdout := Join(targetDir, result.stdout));
    }

    /** pack before npm 7: npm writes the tarball into the workspace, from
        where it is moved to TarballName in the target directory. */
    method PackAndMove(targetDir: string, workspaceDir: string) returns (r: Outcome)
      modifies this, host
      ensures cwd == old(cwd) && loglevel == old(loglevel) && environment == old(environment)
      ensures host.manifests == old(host.manifests) && host.lockfiles == old(host.lockfiles)
      ensures PackedAndMoved(targetDir, workspaceDir, r, old(host.manifests), old(host.trace))
    {
      host.EnsureDir(targetDir);
      var packageJson := host.ReadManifest(PackageJson(workspaceDir));
      if packageJson.Failure? {
        return Rejected(packageJson.error);
      }
      if packageJson.value.name.None? {
        return Rejected(NoName);
      }
      var targetPath := Join(targetDir, TarballName(packageJson.value.name.value, TemplateText(packageJson.value.version)));
      var prevCwd := cwd;
      cwd := workspaceDir;
      var result := Command(["pack"]);
      if !result.success {
        cwd := prevCwd;
        return Settled(result);
      }
      var npmTarballPath := Join(workspaceDir, result.stdout);
      if npmTarballPath != targetPath {
        host.Move(npmTarballPath, targetPath);
      }
      cwd := prevCwd;
      return Settled(result.(stdout := targetPath));
    }
  }
}
