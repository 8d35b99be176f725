/** Types and helpers shared by every package-manager adapter: the result
    record of an operation, the option records, JavaScript truthiness, the
    string operations the adapters use, path joining, and the two rules that
    several adapters repeat word for word (the yarn `resolutions` merge and
    the tarball file name). */
module Common {

  datatype Option<+T> = None | Some(value: T)

  datatype Result<+T, +E> = Success(value: T) | Failure(error: E)

  /** What every adapter operation settles with. `stdall` is the interleaved
      output of both streams. */
  datatype CommandResult = CommandResult(
    success: bool,
    exitCode: int,
    stdout: string,
    stderr: string,
    stdall: string)

  /** The failed result of an operation that ran no command. This is the
      record the yarn adapters build literally; the shared base class's `fail`
      helper is taken to build the same one. */
  function Fail(message: string): (r: CommandResult)
    ensures !r.success && r.exitCode == 1
    ensures r.stdout == "" && r.stderr == message && r.stdall == r.stderr
  {
    CommandResult(false, 1, "", message, message)
  }

  datatype DependencyType = Prod | Dev

  datatype Environment = Production | Development

  /** The recognised members of the install, uninstall and update option
      records. An absent flag is `false`, an absent dependency type is `Prod`
      and absent `additionalArgs` are `[]` (pushing an empty list is a no-op). */
  datatype Options = Options(
    dependencyType: DependencyType,
    global: bool,
    exact: bool,
    force: bool,
    ignoreScripts: bool,
    additionalArgs: seq<string>)

  const NoOptions := Options(Prod, false, false, false, false, [])

  /** `pack` options: both default when absent (targetDir to the adapter's cwd,
      workspace to "."). */
  datatype PackOptions = PackOptions(targetDir: Option<string>, workspace: Option<string>)

  /** The directory the tarball goes to: `targetDir`, defaulting to the
      adapter's cwd. */
  function TargetDir(o: PackOptions, cwd: string): string {
    if o.targetDir.Some? then o.targetDir.value else cwd
  }

  /** The workspace to pack, relative to cwd, defaulting to ".". */
  function Workspace(o: PackOptions): string {
    if o.workspace.Some? then o.workspace.value else "."
  }

  /** The members of a package.json the adapters read or write; `extra` stands
      for every other member, which is carried along unchanged. */
  datatype Manifest = Manifest(
    name: Option<string>,
    version: Option<string>,
    dependencies: Option<map<string, string>>,
    resolutions: Option<map<string, string>>,
    extra: map<string, string>)

  /** JavaScript truthiness of an optional string: present and non-empty. */
  predicate Truthy(s: Option<string>) {
    s.Some? && s.value != ""
  }

  /** `xs` when the condition holds, nothing otherwise: one conditional `push`. */
  function Opt(condition: bool, xs: seq<string>): seq<string> {
    if condition then xs else []
  }

  predicate StartsWith(s: string, prefix: string) {
    |prefix| <= |s| && s[..|prefix|] == prefix
  }

  /** `args.push(...xs)`, one element at a time. */
  method PushAll(args: seq<string>, xs: seq<string>) returns (r: seq<string>)
    ensures r == args + xs
  {
    r := args;
    for i := 0 to |xs|
      invariant r == args + xs[..i]
    {
      r := r + [xs[i]];
    }
    assert xs[..|xs|] == xs;
  }

  /** `path.join(a, b)` for the shapes the adapters produce: an empty or "."
      segment is dropped, a separator is inserted unless `a` already ends in one. */
  function Join(a: string, b: string): (r: string)
    ensures b == "" || b == "." ==> r == a
    ensures a != "" && a[|a| - 1] != '/' && b != "" && b != "." ==> r == a + "/" + b
  {
    if b == "" || b == "." then a
    else if a == "" then b
    else if a[|a| - 1] == '/' then a + b
    else a + "/" + b
  }

  /** `String.prototype.indexOf` for one character: the first index at which
      `c` occurs in `s`, or -1 when it does not occur. */
  function IndexOfChar(s: string, c: char): (r: int)
    ensures r < 0 <==> c !in s
    ensures r >= 0 ==> r < |s| && s[r] == c && c !in s[..r]
  {
    if s == [] then -1
    else if s[0] == c then 0
    else
      var r := IndexOfChar(s[1..], c);
      if r < 0 then -1
      else
        assert s[..r + 1] == [s[0]] + s[1..][..r];
        r + 1
  }

  /** `String.prototype.replace` with a one-character string pattern: only the
      first occurrence is replaced. */
  function ReplaceFirst(s: string, from: char, to: char): (r: string)
    ensures var i := IndexOfChar(s, from);
      if i < 0 then r == s else r == s[..i] + [to] + s[i + 1..]
  {
    var i := IndexOfChar(s, from);
    if i < 0 then s else s[..i] + [to] + s[i + 1..]
  }

  /** `name.replace("/", "-").replace(/^@/, "")`: the first slash becomes a
      dash, then one leading at-sign is dropped. */
  function PackageFileStem(name: string): string {
    var dashed := ReplaceFirst(name, '/', '-');
    if |dashed| > 0 && dashed[0] == '@' then dashed[1..] else dashed
  }

  /** The file name `npm pack` (before npm 7) and `yarn pack --out` are made to
      produce: `<stem>-<version>.tgz`. */
  function TarballName(name: string, version: string): string {
    PackageFileStem(name) + "-" + version + ".tgz"
  }

  /** A scoped name `@scope/pkg` becomes `scope-pkg`. */
  lemma TarballNameScoped(scope: string, pkg: string, version: string)
    requires '/' !in scope
    ensures TarballName("@" + scope + "/" + pkg, version) == scope + "-" + pkg + "-" + version + ".tgz"
  {
    var name := "@" + scope + "/" + pkg;
    var i := |scope| + 1;
    assert name[..i] == "@" + scope;
    assert name[i] == '/';
    assert name[i + 1..] == pkg;
    var r := IndexOfChar(name, '/');
    assert '/' !in name[..i];
    assert r == i;
    var dashed := ReplaceFirst(name, '/', '-');
    assert dashed == "@" + (scope + "-" + pkg);
    assert PackageFileStem(name) == scope + "-" + pkg;
  }

  /** An unscoped name without a slash is kept as it is. */
  lemma TarballNameUnscoped(name: string, version: string)
    requires '/' !in name && (name == "" || name[0] != '@')
    ensures TarballName(name, version) == name + "-" + version + ".tgz"
  {
  }

  /** The scoped pre-release example: `@scope/test` at `0.0.1-beta.0+1234`. */
  lemma TarballNameExample()
    ensures TarballName("@scope/test", "0.0.1-beta.0+1234") == "scope-test-0.0.1-beta.0+1234.tgz"
  {
    assert "@scope/test" == "@" + "scope" + "/" + "test";
    assert "scope-test-0.0.1-beta.0+1234.tgz" == "scope" + "-" + "test" + "-" + "0.0.1-beta.0+1234" + ".tgz";
    TarballNameScoped("scope", "test", "0.0.1-beta.0+1234");
  }

  /** `{ ...(existing ?? {}), ...requested }`: the requested entries win, every
      other existing entry is kept, and nothing else is added. */
  function MergeResolutions(existing: Option<map<string, string>>, requested: map<string, string>): (r: map<string, string>)
    ensures r.Keys == requested.Keys + (if existing.Some? then existing.value.Keys else {})
    ensures forall k :: k in requested ==> r[k] == requested[k]
    ensures forall k :: existing.Some? && k in existing.value && k !in requested ==> r[k] == existing.value[k]
  {
    (if existing.Some? then existing.value else map[]) + requested
  }

  /** The root package.json after the yarn `resolutions` update: the merged
      map replaces `resolutions`, and no other member changes. */
  function WithResolutions(m: Manifest, requested: map<string, string>): (r: Manifest)
    ensures r.resolutions.Some? && r.resolutions.value == MergeResolutions(m.resolutions, requested)
    ensures r.name == m.name && r.version == m.version && r.dependencies == m.dependencies && r.extra == m.extra
  {
    m.(resolutions := Some(MergeResolutions(m.resolutions, requested)))
  }

  /** Requesting the same resolutions again changes nothing. */
  lemma MergeResolutionsIdempotent(existing: Option<map<string, string>>, requested: map<string, string>)
    ensures MergeResolutions(Some(MergeResolutions(existing, requested)), requested) == MergeResolutions(existing, requested)
  {
  }

  /** Updating a manifest with the same resolutions twice is updating it once. */
  lemma WithResolutionsIdempotent(m: Manifest, requested: map<string, string>)
    ensures WithResolutions(WithResolutions(m, requested), requested) == WithResolutions(m, requested)
  {
    MergeResolutionsIdempotent(m.resolutions, requested);
  }

  /** The message every failed yarn `resolutions` update starts with. */
  const RootUpdateError := "Error updating root package.json: "

  /** The rejection of reading `name.replace` on a manifest without a name. */
  const NoName := "TypeError: Cannot read properties of undefined (reading 'replace')"

  /** `setLoglevel` of yarn classic and of legacy yarn: a `--<level>` flag for
      exactly the levels "silent" and "verbose", nothing for any other. */
  function YarnLoglevelArgs(loglevel: Option<string>): (r: seq<string>)
    ensures r != [] <==> loglevel == Some("silent") || loglevel == Some("verbose")
    ensures loglevel == Some("silent") ==> r == ["--silent"]
    ensures loglevel == Some("verbose") ==> r == ["--verbose"]
  {
    assert "--" + "silent" == "--silent" && "--" + "verbose" == "--verbose";
    if loglevel == Some("silent") || loglevel == Some("verbose") then ["--" + loglevel.value] else []
  }

  /** The in-place form of that rule: it pushes the flag onto `args`. */
  method SetLoglevel(args: seq<string>, loglevel: Option<string>) returns (r: seq<string>)
    ensures r == args + YarnLoglevelArgs(loglevel)
  {
    r := args;
    if loglevel == Some("silent") || loglevel == Some("verbose") {
      r := r + ["--" + loglevel.value];
    }
  }

  /** The yarn adapters' version rules: yarn 1 is classic (and legacy) yarn,
      yarn 2, 3 and 4 are berry. */
  predicate IsClassicVersion(v: string) {
    StartsWith(v, "1.")
  }

  predicate IsBerryVersion(v: string) {
    StartsWith(v, "2.") || StartsWith(v, "3.") || StartsWith(v, "4.")
  }

  /** No version is accepted by both rules, so at most one of the classic and
      berry adapters detects a given yarn. */
  lemma {:induction false} VersionRulesExclusive(v: string)
    ensures !(IsClassicVersion(v) && IsBerryVersion(v))
  {
    if IsClassicVersion(v) {
      assert v[0] == "1."[0] == '1';
    }
  }

  /** The decimal text of an integer, as a template literal prints it. */
  function IntToString(n: int): (s: string)
    decreases if n < 0 then 1 - n else n
  {
    if n < 0 then "-" + IntToString(-n)
    else if n < 10 then [Digit(n)]
    else IntToString(n / 10) + [Digit(n % 10)]
  }

  function Digit(d: int): char
    requires 0 <= d < 10
  {
    "0123456789"[d]
  }

  /** The shared `version()` rule: the tool's `-v` output when the command
      succeeds, otherwise the message of the error it throws. */
  function VersionOf(tool: string, c: CommandResult): Result<string, string> {
    if c.success then Success(c.stdout)
    else Failure("Could not detect " + tool + " version: " + c.stderr + "! Exit code: " + IntToString(c.exitCode) + ".")
  }

  /** A template literal's rendering of an optional string member. */
  function TemplateText(s: Option<string>): string {
    if s.Some? then s.value else "undefined"
  }

  /** `pat` occurs in `s` starting at index `j`. */
  predicate OccursAt(s: string, pat: string, j: int) {
    0 <= j && j + |pat| <= |s| && s[j..j + |pat|] == pat
  }

  /** `String.prototype.lastIndexOf`: the greatest index at which `pat` occurs
      in `s`, or -1 when it does not occur. */
  function LastIndexOf(s: string, pat: string): (r: int)
    ensures r == -1 || OccursAt(s, pat, r)
    ensures forall j :: r < j ==> !OccursAt(s, pat, j)
  {
    if |s| < |pat| then -1
    else if s[|s| - |pat|..] == pat then |s| - |pat|
    else
      var r := LastIndexOf(s[..|s| - 1], pat);
      assert forall j :: OccursAt(s, pat, j) && j + |pat| < |s| ==> OccursAt(s[..|s| - 1], pat, j) by {
        forall j | OccursAt(s, pat, j) && j + |pat| < |s| ensures OccursAt(s[..|s| - 1], pat, j) {
          assert s[..|s| - 1][j..j + |pat|] == s[j..j + |pat|];
        }
      }
      assert OccursAt(s, pat, r) <== OccursAt(s[..|s| - 1], pat, r) by {
        if OccursAt(s[..|s| - 1], pat, r) { assert s[..|s| - 1][r..r + |pat|] == s[r..r + |pat|]; }
      }
      r
  }

  /** `s.substr(start)` for a non-negative start: empty past the end. */
  function Substr(s: string, start: nat): (r: string)
    ensures start <= |s| ==> r == s[start..]
    ensures start >= |s| ==> r == ""
  {
    if start >= |s| then "" else s[start..]
  }
}
