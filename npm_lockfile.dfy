/** The package-lock.json patcher of the npm adapter: the records that
    replace one overridden entry, the walk over the nested `dependencies`
    tree (lockfile versions 1 and 2) and the walk over the flat `packages`
    map (versions 2 and 3). Each walk is specified by a pair of functions
    (the patched structure and the set of package.json paths it reports)
    and implemented by a method with the source's loops. */
module NpmLockfile {
  import opened Common

  /** What the registry reports for one published version: its `version`,
      `dist.integrity`, `dist.tarball` and `dependencies` (the last two may be
      missing from the registry document). */
  datatype ResolvedDependency = ResolvedDependency(
    version: string,
    integrity: Option<string>,
    tarball: string,
    dependencies: Option<map<string, string>>)

  /** The resolved overrides, by package name. */
  type Overrides = map<string, ResolvedDependency>

  /** One entry of the nested `dependencies` tree. `extra` stands for every
      member the patcher never touches (`dev`, `optional`, `bundled`, ...). */
  datatype Node = Node(
    version: Option<string>,
    tarball: Option<string>,
    resolved: Option<string>,
    integrity: Option<string>,
    requirements: Option<map<string, string>>,  // the `requires` member
    dependencies: Children,
    extra: map<string, string>)

  /** The `dependencies` member of a node or of the lockfile itself: absent,
      or the nested entries by package name. (A dedicated type rather than
      `Option<map<string, Node>>` so that Dafny sees that the entries are
      smaller than the node that holds them.) */
  datatype Children = Absent | Present(entries: map<string, Node>)

  /** One entry of the flat `packages` map of lockfile versions 2 and 3. Its
      `dependencies` are version ranges, not nested entries. */
  datatype Package = Package(
    name: Option<string>,
    version: Option<string>,
    tarball: Option<string>,
    resolved: Option<string>,
    integrity: Option<string>,
    dependencies: Option<map<string, string>>,
    extra: map<string, string>)

  /** The members of package-lock.json the patcher reads or writes. */
  datatype Lockfile = Lockfile(
    lockfileVersion: int,
    dependencies: Children,
    packages: Option<map<string, Package>>,
    extra: map<string, string>)

  predicate SupportedVersion(v: int) {
    v == 1 || v == 2 || v == 3
  }

  /** The replacement for an overridden entry of the nested tree: a copy of
      the original in which only the listed members change. */
  function OverrideV1(original: Node, override: ResolvedDependency): (r: Node)
    ensures r.version == Some(override.version)
    ensures r.requirements == override.dependencies
    ensures Truthy(original.tarball) ==>
              r.tarball == Some(override.tarball) && r.resolved == original.resolved && r.integrity == original.integrity
    ensures !Truthy(original.tarball) ==>
              r.tarball == original.tarball && r.resolved == Some(override.tarball) &&
              r.integrity == (if Truthy(override.integrity) then override.integrity else original.integrity)
    ensures r.dependencies == original.dependencies && r.extra == original.extra
  {
    var ret := original.(version := Some(override.version));
    var located :=
      if Truthy(ret.tarball) then ret.(tarball := Some(override.tarball))
      else if Truthy(override.integrity) then ret.(resolved := Some(override.tarball), integrity := override.integrity)
      else ret.(resolved := Some(override.tarball));
    located.(requirements := override.dependencies)
  }

  /** The replacement for an overridden entry of the flat map. Unlike
      OverrideV1 it sets `dependencies`, and on the `resolved` path it drops a
      stale integrity hash when the registry reports none. */
  function OverrideV2(original: Package, override: ResolvedDependency): (r: Package)
    ensures r.version == Some(override.version)
    ensures r.dependencies == override.dependencies
    ensures Truthy(original.tarball) ==>
              r.tarball == Some(override.tarball) && r.resolved == original.resolved && r.integrity == original.integrity
    ensures !Truthy(original.tarball) ==>
              r.tarball == original.tarball && r.resolved == Some(override.tarball) &&
              r.integrity == (if Truthy(override.integrity) then override.integrity else None)
    ensures r.name == original.name && r.extra == original.extra
  {
    var ret := original.(version := Some(override.version));
    var located :=
      if Truthy(ret.tarball) then ret.(tarball := Some(override.tarball))
      else if Truthy(override.integrity) then ret.(resolved := Some(override.tarball), integrity := override.integrity)
      else ret.(resolved := Some(override.tarball), integrity := None);
    located.(dependencies := override.dependencies)
  }

  /** Some overridden package is named in the map. */
  predicate Touches(m: map<string, string>, overrides: Overrides) {
    exists k :: k in overrides && k in m
  }

  /** The map with every overridden package it names set to the override's
      version; every other entry and the key set stay as they were. */
  function PinVersions(m: map<string, string>, overrides: Overrides): (r: map<string, string>)
    ensures r.Keys == m.Keys
    ensures forall k :: k in m && k in overrides ==> r[k] == overrides[k].version
    ensures forall k :: k in m && k !in overrides ==> r[k] == m[k]
  {
    map k | k in m :: if k in overrides then overrides[k].version else m[k]
  }

  function PinOptional(m: Option<map<string, string>>, overrides: Overrides): Option<map<string, string>> {
    if m.Some? then Some(PinVersions(m.value, overrides)) else None
  }

  /** The inner loop of both walks and of the manifest update: every override
      that the map names is set to its version, and `wasChanged` records
      whether any was. */
  method RewriteVersions(m: map<string, string>, overrides: Overrides) returns (pinned: map<string, string>, wasChanged: bool)
    ensures pinned == PinVersions(m, overrides)
    ensures wasChanged == Touches(m, overrides)
  {
    pinned, wasChanged := m, false;
    var todo := overrides.Keys;
    while todo != {}
      invariant todo <= overrides.Keys
      invariant pinned.Keys == m.Keys
      invariant forall k :: k in m ==> pinned[k] == if k in overrides && k !in todo then overrides[k].version else m[k]
      invariant wasChanged <==> exists k :: k in overrides && k !in todo && k in m
      decreases todo
    {
      var ovrr :| ovrr in todo;
      if ovrr in pinned {
        pinned := pinned[ovrr := overrides[ovrr].version];
        wasChanged := true;
      }
      todo := todo - {ovrr};
    }
  }

  /** `path.join(dir, "node_modules", dep)`. */
  function ChildDir(dir: string, dep: string): string {
    Join(Join(dir, "node_modules"), dep)
  }

  /** `path.join(dir, "package.json")`. */
  function PackageJson(dir: string): string {
    Join(dir, "package.json")
  }

  // ---------------------------------------------------------------------
  // The nested tree (lockfile versions 1 and 2)

  /** The nested tree after the walk: every entry keeps its key and is
      replaced by WalkV1Entry. */
  function WalkV1(deps: Children, dir: string, overrides: Overrides): (r: Children)
    ensures r.Absent? <==> deps.Absent?
    ensures deps.Present? ==> r.entries.Keys == deps.entries.Keys
    decreases deps, 0
  {
    match deps
    case Absent => Absent
    case Present(d) => Present(map k | k in d :: WalkV1Entry(k, d[k], dir, overrides))
  }

  /** An overridden entry is replaced and not descended into; any other entry
      has the overridden names of its `requires` pinned and its own subtree
      walked one `node_modules` level deeper. */
  function WalkV1Entry(key: string, n: Node, dir: string, overrides: Overrides): Node
    decreases n.dependencies, 1
  {
    if key in overrides then OverrideV1(n, overrides[key])
    else n.(requirements := PinOptional(n.requirements, overrides),
            dependencies := WalkV1(n.dependencies, ChildDir(dir, key), overrides))
  }

  /** The package.json paths the nested walk reports. */
  function AffectedV1(deps: Children, dir: string, overrides: Overrides): set<string>
    decreases deps, 0
  {
    match deps
    case Absent => {}
    case Present(d) =>
      set k, p | k in d && k !in overrides && p in AffectedV1Entry(k, d[k], dir, overrides) :: p
  }

  /** A non-overridden entry reports its own package.json when its `requires`
      names an override, and whatever its subtree reports. */
  function AffectedV1Entry(key: string, n: Node, dir: string, overrides: Overrides): set<string>
    decreases n.dependencies, 1
  {
    (if n.requirements.Some? && Touches(n.requirements.value, overrides) then {PackageJson(ChildDir(dir, key))} else {})
    + AffectedV1(n.dependencies, ChildDir(dir, key), overrides)
  }

  /** What the entries with keys in `keys` report (the loop's progress). */
  function AffectedOver(keys: set<string>, d: map<string, Node>, dir: string, overrides: Overrides): set<string> {
    set k, p | k in keys && k in d && k !in overrides && p in AffectedV1Entry(k, d[k], dir, overrides) :: p
  }

  lemma AffectedOverStep(keys: set<string>, k: string, d: map<string, Node>, dir: string, overrides: Overrides)
    requires k in d
    ensures AffectedOver(keys + {k}, d, dir, overrides) ==
            AffectedOver(keys, d, dir, overrides) + (if k in overrides then {} else AffectedV1Entry(k, d[k], dir, overrides))
  {
  }

  /** walkLockfileV1: the loop over `dependencies`, recursing into every
      non-overridden entry and adding to the shared set of affected paths. */
  method WalkLockfileV1(deps: Children, dir: string, overrides: Overrides, affected: set<string>)
    returns (walked: Children, affected': set<string>)
    ensures walked == WalkV1(deps, dir, overrides)
    ensures affected' == affected + AffectedV1(deps, dir, overrides)
    decreases deps, 0
  {
    if deps.Absent? {
      return deps, affected;
    }
    var d := deps.entries;
    var out := d;
    var acc := affected;
    var todo := d.Keys;
    ghost var done: set<string> := {};
    while todo != {}
      invariant todo <= d.Keys && out.Keys == d.Keys
      invariant done == d.Keys - todo
      invariant forall k :: k in done ==> out[k] == WalkV1Entry(k, d[k], dir, overrides)
      invariant acc == affected + AffectedOver(done, d, dir, overrides)
      decreases todo
    {
      var dep :| dep in todo;
      AffectedOverStep(done, dep, d, dir, overrides);
      var entry, acc2 := WalkLockfileV1Entry(dep, d[dep], dir, overrides, acc);
      out, acc := out[dep := entry], acc2;
      todo, done := todo - {dep}, done + {dep};
    }
    WalkV1Extensional(d, out, dir, overrides);
    walked, affected' := Present(out), acc;
  }

  /** A map with the same keys whose every entry is walked is the walk. */
  lemma WalkV1Extensional(d: map<string, Node>, out: map<string, Node>, dir: string, overrides: Overrides)
    requires out.Keys == d.Keys
    requires forall k :: k in d ==> out[k] == WalkV1Entry(k, d[k], dir, overrides)
    ensures WalkV1(Present(d), dir, overrides) == Present(out)
  {
    var walked := WalkV1(Present(d), dir, overrides).entries;
    assert walked.Keys == out.Keys;
    assert forall k :: k in walked ==> walked[k] == out[k];
    assert walked == out;
  }

  /** The body of that loop for one key: replace an overridden entry, or pin
      the entry's `requires`, report its package.json if that changed
      anything, and walk its subtree. */
  method WalkLockfileV1Entry(dep: string, n: Node, dir: string, overrides: Overrides, affected: set<string>)
    returns (walked: Node, affected': set<string>)
    ensures walked == WalkV1Entry(dep, n, dir, overrides)
    ensures affected' == affected + (if dep in overrides then {} else AffectedV1Entry(dep, n, dir, overrides))
    decreases n.dependencies, 1
  {
    if dep in overrides {
      return OverrideV1(n, overrides[dep]), affected;
    }
    var depRoot := n;
    affected' := affected;
    if depRoot.requirements.Some? {
      var pinned, wasChanged := RewriteVersions(depRoot.requirements.value, overrides);
      depRoot := depRoot.(requirements := Some(pinned));
      if wasChanged {
        affected' := affected' + {PackageJson(ChildDir(dir, dep))};
      }
    }
    var sub;
    sub, affected' := WalkLockfileV1(depRoot.dependencies, ChildDir(dir, dep), overrides, affected');
    walked := depRoot.(dependencies := sub);
  }

  // ---------------------------------------------------------------------
  // The flat map (lockfile versions 2 and 3)

  const NodeModules := "node_modules/"

  /** `pkgRoot.name ?? pkg.substr(pkg.lastIndexOf("node_modules/") + 13)`.
      A key without "node_modules/" therefore loses its first 12 characters. */
  function PackageName(key: string, p: Package): string {
    if p.name.Some? then p.name.value
    else Substr(key, LastIndexOf(key, NodeModules) + |NodeModules|)
  }

  /** An entry without a `name` under `node_modules/` is named by what follows
      the last `node_modules/` of its key; the name may be scoped
      (`@types/node`), as long as it holds no `node_modules/` itself. */
  lemma PackageNameOfInstalledKey(prefix: string, name: string, p: Package)
    requires p.name.None? && forall j :: !OccursAt(name, NodeModules, j)
    ensures PackageName(prefix + NodeModules + name, p) == name
  {
    var key := prefix + NodeModules + name;
    var m := |prefix| + |NodeModules|;
    var i := LastIndexOf(key, NodeModules);
    assert key[|prefix|..m] == NodeModules;
    assert OccursAt(key, NodeModules, |prefix|);
    assert key[m..] == name;
    forall j | |prefix| < j ensures !OccursAt(key, NodeModules, j) {
      if j < m {
        NodeModulesNoOverlap(key, |prefix|, j);
      } else {
        OccursInSuffix(prefix + NodeModules, name, j);
      }
    }
    assert i == |prefix|;
  }

  /** "node_modules/" does not overlap itself: no later 'n' in it can start
      a second occurrence. */
  lemma NodeModulesNoOverlap(key: string, at: int, j: int)
    requires OccursAt(key, NodeModules, at) && at < j < at + |NodeModules|
    ensures !OccursAt(key, NodeModules, j)
  {
    assert key[j] == key[at..at + |NodeModules|][j - at] == NodeModules[j - at];
  }

  /** An occurrence that starts past `a` in `a + b` is one in `b`. */
  lemma OccursInSuffix(a: string, b: string, j: int)
    requires j >= |a|
    ensures OccursAt(a + b, NodeModules, j) ==> OccursAt(b, NodeModules, j - |a|)
  {
    if j + |NodeModules| <= |a + b| {
      assert (a + b)[j..j + |NodeModules|] == b[j - |a|..j - |a| + |NodeModules|];
    }
  }

  /** The scoped key from the flat lockfile: `node_modules/@types/node`. */
  lemma PackageNameOfScopedKeyExample(p: Package)
    requires p.name.None?
    ensures PackageName("node_modules/@types/node", p) == "@types/node"
  {
    assert forall j :: !OccursAt("@types/node", NodeModules, j);
    PackageNameOfInstalledKey("", "@types/node", p);
    assert "" + NodeModules + "@types/node" == "node_modules/@types/node";
  }

  /** An entry without a `name` whose key has no `node_modules/` is named by
      the key without its first 12 characters. */
  lemma PackageNameOfOtherKey(key: string, p: Package)
    requires p.name.None? && forall j :: !OccursAt(key, NodeModules, j)
    ensures PackageName(key, p) == Substr(key, 12)
  {
  }

  /** A non-overridden entry with `dependencies` that name an override: its
      package.json has to be bumped. */
  predicate RewritesV2(key: string, p: Package, overrides: Overrides) {
    PackageName(key, p) !in overrides && p.dependencies.Some? && Touches(p.dependencies.value, overrides)
  }

  function WalkV2Entry(key: string, p: Package, overrides: Overrides): Package {
    var name := PackageName(key, p);
    if name in overrides then OverrideV2(p, overrides[name])
    else if p.dependencies.Some? then p.(dependencies := Some(PinVersions(p.dependencies.value, overrides)))
    else p
  }

  /** The flat map after the walk: every entry keeps its key and is replaced
      by WalkV2Entry; an absent map stays absent. */
  function WalkV2(packages: Option<map<string, Package>>, overrides: Overrides): (r: Option<map<string, Package>>)
    ensures r.None? <==> packages.None?
    ensures packages.Some? ==> r.value.Keys == packages.value.Keys
  {
    match packages
    case None => None
    case Some(pk) => Some(map k | k in pk :: WalkV2Entry(k, pk[k], overrides))
  }

  /** The package.json paths the flat walk reports: `<dir>/<key>/package.json`
      for every entry that RewritesV2. */
  function AffectedV2(packages: Option<map<string, Package>>, dir: string, overrides: Overrides): set<string> {
    match packages
    case None => {}
    case Some(pk) => AffectedV2Over(pk.Keys, pk, dir, overrides)
  }

  /** What the entries with keys in `keys` report (the loop's progress). */
  function AffectedV2Over(keys: set<string>, pk: map<string, Package>, dir: string, overrides: Overrides): set<string> {
    set k | k in keys && k in pk && RewritesV2(k, pk[k], overrides) :: PackageJson(Join(dir, k))
  }

  /** One more visited key `k` adds what `k` reports. */
  lemma AffectedV2OverStep(keys: set<string>, k: string, pk: map<string, Package>, dir: string, overrides: Overrides)
    requires k in pk
    ensures AffectedV2Over(keys + {k}, pk, dir, overrides) ==
            AffectedV2Over(keys, pk, dir, overrides) + (if RewritesV2(k, pk[k], overrides) then {PackageJson(Join(dir, k))} else {})
  {
  }

  /** walkLockfileV2V3: the loop over `packages`. */
  method WalkLockfileV2V3(packages: Option<map<string, Package>>, dir: string, overrides: Overrides, affected: set<string>)
    returns (walked: Option<map<string, Package>>, affected': set<string>)
    ensures walked == WalkV2(packages, overrides)
    ensures affected' == affected + AffectedV2(packages, dir, overrides)
  {
    if packages.None? {
      return packages, affected;
    }
    var pk := packages.value;
    var out := pk;
    var acc := affected;
    var todo := pk.Keys;
    ghost var done: set<string> := {};
    while todo != {}
      invariant todo <= pk.Keys && out.Keys == pk.Keys
      invariant done == pk.Keys - todo
      invariant forall k :: k in done ==> out[k] == WalkV2Entry(k, pk[k], overrides)
      invariant acc == affected + AffectedV2Over(done, pk, dir, overrides)
      decreases todo
    {
      var pkg :| pkg in todo;
      AffectedV2OverStep(done, pkg, pk, dir, overrides);
      var entry, acc2 := WalkLockfileV2V3Entry(pkg, pk[pkg], dir, overrides, acc);
      out, acc := out[pkg := entry], acc2;
      todo, done := todo - {pkg}, done + {pkg};
    }
    WalkV2Extensional(pk, out, overrides);
    walked, affected' := Some(out), acc;
  }

  /** A map with the same keys whose every entry is walked is the walk. */
  lemma WalkV2Extensional(pk: map<string, Package>, out: map<string, Package>, overrides: Overrides)
    requires out.Keys == pk.Keys
    requires forall k :: k in pk ==> out[k] == WalkV2Entry(k, pk[k], overrides)
    ensures WalkV2(Some(pk), overrides) == Some(out)
  {
    var walked := WalkV2(Some(pk), overrides).value;
    assert walked.Keys == out.Keys;
    assert forall k :: k in walked ==> walked[k] == out[k];
    assert walked == out;
  }

  /** The body of that loop for one key. */
  method WalkLockfileV2V3Entry(pkg: string, pkgRoot: Package, dir: string, overrides: Overrides, affected: set<string>)
    returns (walked: Package, affected': set<string>)
    ensures walked == WalkV2Entry(pkg, pkgRoot, overrides)
    ensures affected' == affected + (if RewritesV2(pkg, pkgRoot, overrides) then {PackageJson(Join(dir, pkg))} else {})
  {
    walked, affected' := pkgRoot, affected;
    var name := PackageName(pkg, pkgRoot);
    if name in overrides {
      walked := OverrideV2(pkgRoot, overrides[name]);
    } else if pkgRoot.dependencies.Some? {
      var deps, wasChanged := RewriteVersions(pkgRoot.dependencies.value, overrides);
      walked := pkgRoot.(dependencies := Some(deps));
      if wasChanged {
        affected' := affected' + {PackageJson(Join(dir, pkg))};
      }
    }
  }

  // ---------------------------------------------------------------------
  // The whole lockfile

  /** The lockfile after both walks: versions 2 and 3 get the flat walk,
      versions 1 and 2 the nested one, so version 2 gets both. */
  function PatchLockfile(lock: Lockfile, root: string, overrides: Overrides): (r: Lockfile)
    requires SupportedVersion(lock.lockfileVersion)
    ensures r.lockfileVersion == lock.lockfileVersion && r.extra == lock.extra
    ensures lock.lockfileVersion == 1 ==> r.packages == lock.packages
    ensures lock.lockfileVersion == 3 ==> r.dependencies == lock.dependencies
  {
    var v := lock.lockfileVersion;
    lock.(packages := if v == 2 || v == 3 then WalkV2(lock.packages, overrides) else lock.packages,
          dependencies := if v <= 2 then WalkV1(lock.dependencies, root, overrides) else lock.dependencies)
  }

  /** Every package.json the override may have to bump: the root one, and
      those the walks for this version report. */
  function AffectedManifests(lock: Lockfile, root: string, overrides: Overrides): (r: set<string>)
    requires SupportedVersion(lock.lockfileVersion)
    ensures PackageJson(root) in r
    ensures lock.lockfileVersion == 1 ==> r == {PackageJson(root)} + AffectedV1(lock.dependencies, root, overrides)
    ensures lock.lockfileVersion == 2 ==>
      r == {PackageJson(root)} + AffectedV2(lock.packages, root, overrides) + AffectedV1(lock.dependencies, root, overrides)
    ensures lock.lockfileVersion == 3 ==> r == {PackageJson(root)} + AffectedV2(lock.packages, root, overrides)
  {
    var v := lock.lockfileVersion;
    {PackageJson(root)}
    + (if v == 2 || v == 3 then AffectedV2(lock.packages, root, overrides) else {})
    + (if v <= 2 then AffectedV1(lock.dependencies, root, overrides) else {})
  }

  // ---------------------------------------------------------------------
  // Properties

  /** Registry tarball URLs are never empty; with an empty one the `tarball`
      member of an entry would stop being truthy after one override. */
  predicate ProperTarballs(overrides: Overrides) {
    forall k :: k in overrides ==> overrides[k].tarball != ""
  }

  lemma PinVersionsIdempotent(m: map<string, string>, overrides: Overrides)
    ensures PinVersions(PinVersions(m, overrides), overrides) == PinVersions(m, overrides)
    ensures Touches(PinVersions(m, overrides), overrides) == Touches(m, overrides)
  {
  }

  /** Walking the nested tree a second time changes nothing and reports the
      same paths. */
  lemma {:induction false} WalkV1Idempotent(deps: Children, dir: string, overrides: Overrides)
    requires ProperTarballs(overrides)
    ensures WalkV1(WalkV1(deps, dir, overrides), dir, overrides) == WalkV1(deps, dir, overrides)
    ensures AffectedV1(WalkV1(deps, dir, overrides), dir, overrides) == AffectedV1(deps, dir, overrides)
    decreases deps, 0
  {
    match deps
    case Absent =>
    case Present(d) =>
      var w := WalkV1(deps, dir, overrides).entries;
      forall k | k in d
        ensures WalkV1Entry(k, w[k], dir, overrides) == w[k]
        ensures k !in overrides ==> AffectedV1Entry(k, w[k], dir, overrides) == AffectedV1Entry(k, d[k], dir, overrides)
      {
        WalkV1EntryIdempotent(k, d[k], dir, overrides);
      }
      assert WalkV1(Present(w), dir, overrides).entries == w;
      var a1 := AffectedV1(Present(w), dir, overrides);
      var a0 := AffectedV1(deps, dir, overrides);
      assert a1 == a0 by {
        forall p | p in a1 ensures p in a0 {
          var k :| k in w && k !in overrides && p in AffectedV1Entry(k, w[k], dir, overrides);
          assert p in AffectedV1Entry(k, d[k], dir, overrides);
        }
        forall p | p in a0 ensures p in a1 {
          var k :| k in d && k !in overrides && p in AffectedV1Entry(k, d[k], dir, overrides);
          assert p in AffectedV1Entry(k, w[k], dir, overrides);
        }
      }
  }

  lemma {:induction false} WalkV1EntryIdempotent(key: string, n: Node, dir: string, overrides: Overrides)
    requires ProperTarballs(overrides)
    ensures WalkV1Entry(key, WalkV1Entry(key, n, dir, overrides), dir, overrides) == WalkV1Entry(key, n, dir, overrides)
    ensures key !in overrides ==>
              AffectedV1Entry(key, WalkV1Entry(key, n, dir, overrides), dir, overrides) == AffectedV1Entry(key, n, dir, overrides)
    decreases n.dependencies, 1
  {
    if key !in overrides {
      WalkV1Idempotent(n.dependencies, ChildDir(dir, key), overrides);
      if n.requirements.Some? {
        PinVersionsIdempotent(n.requirements.value, overrides);
      }
    }
  }

  /** With nothing to override the nested walk is the identity and reports
      nothing. */
  lemma {:induction false} WalkV1NoOverrides(deps: Children, dir: string)
    ensures WalkV1(deps, dir, map[]) == deps
    ensures AffectedV1(deps, dir, map[]) == {}
    decreases deps
  {
    match deps
    case Absent =>
    case Present(d) =>
      forall k | k in d
        ensures WalkV1Entry(k, d[k], dir, map[]) == d[k]
        ensures AffectedV1Entry(k, d[k], dir, map[]) == {}
      {
        var n := d[k];
        WalkV1NoOverrides(n.dependencies, ChildDir(dir, k));
        if n.requirements.Some? {
          assert PinVersions(n.requirements.value, map[]) == n.requirements.value;
        }
      }
      assert WalkV1(deps, dir, map[]).entries == d;
  }

  /** Walking the flat map a second time changes nothing and reports the same
      paths (an entry's name survives the walk). */
  lemma WalkV2Idempotent(packages: Option<map<string, Package>>, dir: string, overrides: Overrides)
    requires ProperTarballs(overrides)
    ensures WalkV2(WalkV2(packages, overrides), overrides) == WalkV2(packages, overrides)
    ensures AffectedV2(WalkV2(packages, overrides), dir, overrides) == AffectedV2(packages, dir, overrides)
  {
    if packages.Some? {
      var pk := packages.value;
      var w := WalkV2(packages, overrides).value;
      forall k | k in pk
        ensures WalkV2Entry(k, w[k], overrides) == w[k]
        ensures RewritesV2(k, w[k], overrides) == RewritesV2(k, pk[k], overrides)
      {
        assert PackageName(k, w[k]) == PackageName(k, pk[k]);
        if pk[k].dependencies.Some? {
          PinVersionsIdempotent(pk[k].dependencies.value, overrides);
        }
      }
      assert WalkV2(Some(w), overrides).value == w;
    }
  }

  /** The whole patch is idempotent: patching an already patched lockfile
      yields the same lockfile and the same set of package.json paths. */
  lemma PatchLockfileIdempotent(lock: Lockfile, root: string, overrides: Overrides)
    requires SupportedVersion(lock.lockfileVersion) && ProperTarballs(overrides)
    ensures PatchLockfile(PatchLockfile(lock, root, overrides), root, overrides) == PatchLockfile(lock, root, overrides)
    ensures AffectedManifests(PatchLockfile(lock, root, overrides), root, overrides) == AffectedManifests(lock, root, overrides)
  {
    WalkV1Idempotent(lock.dependencies, root, overrides);
    WalkV2Idempotent(lock.packages, root, overrides);
  }
}
