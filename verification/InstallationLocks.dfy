/** Building the installation components of a release, and verifying them. */
module InstallationLocks {
  import opened Wrappers
  import opened DependencyClosure
  import opened PlatformLocks

  type Versions = map<string, string>

  datatype Project = Project(version: string, dependencies: seq<Requirement>)
  type Projects = map<string, Project>

  /** One package block of a lock. */
  datatype Locked = Locked(version: string, marker: Option<Marker>)
  type Lock = map<string, Locked>

  /** One value for each supported platform. */
  datatype PerPlatform<T> = PerPlatform(linux: T, macos: T, windows: T) {
    function At(p: Platform): T
    {
      match p
      case LinuxX64 => linux
      case MacosArm64 => macos
      case WindowsX64 => windows
    }
  }

  type Names = PerPlatform<set<string>>

  datatype Component = Component(
    root: string,
    lock: Lock,
    resolved: Versions,
    closure: PerPlatform<Versions>,
    requirements: PerPlatform<Versions>)

  datatype Manifest = Manifest(wheels: set<string>, components: seq<Component>)

  /** What the build reads besides the projects. `exported` is the lock uv writes for a root, and
      `installable` says whether a locked package has a wheel for a platform. */
  datatype Inputs = Inputs(
    projects: Projects,
    base: Environment,
    eval: Evaluator,
    exported: string -> Lock,
    installable: (string, Platform) -> bool)

  function Holds(x: Inputs, p: Platform): string -> bool
  {
    m => x.eval(m, EnvironmentOf(x.base, p))
  }

  // ---------------------------------------------------------------- the graph

  function KeepNamed(rs: seq<Requirement>, names: set<string>): (r: seq<Requirement>)
    ensures forall q :: q in r <==> q in rs && q.name in names
  {
    if rs == [] then []
    else
      assert forall q :: q in rs <==> q == rs[0] || q in rs[1..];
      if rs[0].name in names then [rs[0]] + KeepNamed(rs[1..], names) else KeepNamed(rs[1..], names)
  }

  /** `project_dependency_graph` keeps the requirements that name projects. */
  function ProjectGraph(projects: Projects): (g: Graph)
    ensures g.Keys == projects.Keys
  {
    map n | n in projects :: KeepNamed(projects[n].dependencies, projects.Keys)
  }

  /** One project lists another among its dependencies, under a marker that holds on the platform. */
  ghost predicate DependsOn(x: Inputs, p: Platform, a: string, b: string)
  {
    a in x.projects && b in x.projects &&
    exists r :: r in x.projects[a].dependencies && r.name == b && Chosen(Holds(x, p), r)
  }

  ghost predicate IsTrail(x: Inputs, p: Platform, trail: seq<string>)
  {
    trail != [] && forall i :: 0 < i < |trail| ==> DependsOn(x, p, trail[i - 1], trail[i])
  }

  /** A chain of dependencies leads from the root to the name. */
  ghost predicate LeadsTo(x: Inputs, p: Platform, root: string, name: string)
  {
    exists trail :: IsTrail(x, p, trail) && trail[0] == root && trail[|trail| - 1] == name
  }

  lemma NeedsIsDependsOn(x: Inputs, p: Platform, a: string, b: string)
    ensures Needs(ProjectGraph(x.projects), Holds(x, p), a, b) <==> DependsOn(x, p, a, b)
  {
  }

  lemma ReachableIsLeadsTo(x: Inputs, p: Platform, root: string, name: string)
    ensures Reachable(ProjectGraph(x.projects), Holds(x, p), root, name) <==> LeadsTo(x, p, root, name)
  {
    var g, holds := ProjectGraph(x.projects), Holds(x, p);
    forall a, b
      ensures Needs(g, holds, a, b) <==> DependsOn(x, p, a, b)
    {
      NeedsIsDependsOn(x, p, a, b);
    }
    if route :| IsRoute(g, holds, route) && route[0] == root && route[|route| - 1] == name {
      assert IsTrail(x, p, route);
    }
    if trail :| IsTrail(x, p, trail) && trail[0] == root && trail[|trail| - 1] == name {
      assert IsRoute(g, holds, trail);
    }
  }

  /** From a project only projects are reached. */
  lemma ProjectsReachProjects(x: Inputs, p: Platform, root: string, name: string)
    requires root in x.projects && LeadsTo(x, p, root, name)
    ensures name in x.projects
  {
    var trail :| IsTrail(x, p, trail) && trail[0] == root && trail[|trail| - 1] == name;
    if |trail| > 1 {
      assert DependsOn(x, p, trail[|trail| - 2], trail[|trail| - 1]);
    }
  }

  lemma LeadsToItself(x: Inputs, p: Platform, root: string)
    ensures LeadsTo(x, p, root, root)
  {
    assert IsTrail(x, p, [root]);
  }

  /** The names a root leads to on a platform. */
  ghost predicate ClosureOn(x: Inputs, root: string, p: Platform, s: set<string>)
  {
    s <= x.projects.Keys && forall n :: n in s <==> LeadsTo(x, p, root, n)
  }

  ghost predicate AreClosures(x: Inputs, root: string, c: Names)
  {
    ClosureOn(x, root, LinuxX64, c.linux) && ClosureOn(x, root, MacosArm64, c.macos) &&
    ClosureOn(x, root, WindowsX64, c.windows)
  }

  method PlatformClosure(x: Inputs, root: string, p: Platform) returns (r: Result<set<string>, Error>)
    ensures r.Ok? ==> ClosureOn(x, root, p, r.value)
    ensures r.Err? <==> root !in x.projects
    ensures r.Err? ==> r.error == NoSuchProject(KeyError(root))
  {
    var found := Closure(ProjectGraph(x.projects), root, Holds(x, p));
    forall n
      ensures Reachable(ProjectGraph(x.projects), Holds(x, p), root, n) <==> LeadsTo(x, p, root, n)
    {
      ReachableIsLeadsTo(x, p, root, n);
    }
    LeadsToItself(x, p, root);
    if found.Err? {
      OnlyTheRootIsMissing(x, p, root, found.error.name);
      return Err(NoSuchProject(found.error));
    }
    return Ok(found.value);
  }

  lemma OnlyTheRootIsMissing(x: Inputs, p: Platform, root: string, name: string)
    requires LeadsTo(x, p, root, name) && name !in x.projects
    ensures name == root
  {
    var trail :| IsTrail(x, p, trail) && trail[0] == root && trail[|trail| - 1] == name;
    assert |trail| > 1 ==> DependsOn(x, p, trail[|trail| - 2], trail[|trail| - 1]);
  }

  /** `platform_dependency_closures` */
  method PlatformClosures(x: Inputs, root: string) returns (r: Result<Names, Error>)
    ensures r.Ok? ==> AreClosures(x, root, r.value)
    ensures r.Err? <==> root !in x.projects
    ensures r.Err? ==> r.error == NoSuchProject(KeyError(root))
  {
    var linux := PlatformClosure(x, root, LinuxX64);
    var macos := PlatformClosure(x, root, MacosArm64);
    var windows := PlatformClosure(x, root, WindowsX64);
    if linux.Err? {
      return Err(linux.error);
    }
    return Ok(PerPlatform(linux.value, macos.value, windows.value));
  }

  // ----------------------------------------------------------------- the lock

  function Union(c: Names): set<string>
  {
    c.linux + c.macos + c.windows
  }

  /** The platforms whose closure holds a name. */
  function PlatformsOf(c: Names, name: string): (s: set<Platform>)
    ensures forall p :: p in s <==> name in c.At(p)
    ensures name in Union(c) <==> s != {}
  {
    (if name in c.linux then {LinuxX64} else {}) + (if name in c.macos then {MacosArm64} else {}) +
    (if name in c.windows then {WindowsX64} else {})
  }

  type Markers = map<string, Option<Marker>>

  /** The markers compiled from the closures, for every name in one of them. */
  function PackageMarkers(c: Names): (m: Markers)
    ensures m.Keys == Union(c)
  {
    map n | n in Union(c) :: PlatformMarker(PlatformsOf(c, n)).value
  }

  lemma PackageMarkerIsExact(x: Inputs, c: Names, n: string, p: Platform)
    requires n in Union(c)
    ensures Selected(x.eval, PackageMarkers(c)[n], EnvironmentOf(x.base, p)) <==> n in c.At(p)
  {
    MarkerIsExact(x.eval, x.base, PlatformsOf(c, n), p);
  }

  predicate Overlap(exported: Lock, versions: Versions)
  {
    exists n :: n in exported && n in versions
  }

  /** A lock made from exported blocks and first-party blocks. */
  ghost predicate IsLock(exported: Lock, markers: Markers, versions: Versions, lock: Lock)
  {
    (forall n :: n in exported ==> n !in versions) &&
    (forall n :: n in markers ==> n in versions) &&
    (forall n :: n in lock <==> n in exported || n in markers) &&
    (forall n :: n in exported ==> lock[n] == exported[n]) &&
    forall n :: n in markers ==> lock[n] == Locked(versions[n], markers[n])
  }

  /** `_write_component_lock` */
  method WriteLock(exported: Lock, markers: Markers, versions: Versions) returns (r: Result<Lock, Error>)
    requires forall n :: n in markers ==> n in versions
    ensures r.Ok? ==> IsLock(exported, markers, versions, r.value)
    ensures r.Err? <==> Overlap(exported, versions)
  {
    if Overlap(exported, versions) {
      return Err(Escaped);
    }
    var blocks := exported;
    var left := markers.Keys;
    while left != {}
      invariant forall n :: n in left ==> n in markers
      invariant forall n :: n in blocks <==> n in exported || (n in markers && n !in left)
      invariant forall n :: n in exported ==> blocks[n] == exported[n]
      invariant forall n :: n in markers && n !in left ==> blocks[n] == Locked(versions[n], markers[n])
      decreases |left|
    {
      var n :| n in left;
      blocks := blocks[n := Locked(versions[n], markers[n])];
      left := left - {n};
    }
    return Ok(blocks);
  }

  /** The packages of a lock whose markers hold on a platform, with their versions. */
  ghost predicate IsProjection(x: Inputs, lock: Lock, p: Platform, v: Versions)
  {
    v.Keys <= lock.Keys &&
    (forall n :: n in lock ==> (n in v <==> Selected(x.eval, lock[n].marker, EnvironmentOf(x.base, p)))) &&
    forall n :: n in v ==> v[n] == lock[n].version
  }

  predicate Missing(x: Inputs, lock: Lock, p: Platform, n: string)
  {
    n in lock && Selected(x.eval, lock[n].marker, EnvironmentOf(x.base, p)) && !x.installable(n, p)
  }

  ghost predicate MissingOn(x: Inputs, lock: Lock, p: Platform)
  {
    exists n :: Missing(x, lock, p, n)
  }

  /** `_platform_requirements` */
  method PlatformRequirements(x: Inputs, lock: Lock, p: Platform) returns (r: Result<Versions, Error>)
    ensures r.Ok? ==> IsProjection(x, lock, p, r.value)
    ensures r.Err? <==> MissingOn(x, lock, p)
  {
    var env := EnvironmentOf(x.base, p);
    var versions: Versions := map[];
    var left := lock.Keys;
    while left != {}
      invariant left <= lock.Keys && versions.Keys <= lock.Keys - left
      invariant forall n :: n in lock.Keys - left ==> (n in versions <==> Selected(x.eval, lock[n].marker, env))
      invariant forall n :: n in versions ==> versions[n] == lock[n].version && x.installable(n, p)
      decreases |left|
    {
      var n :| n in left;
      left := left - {n};
      if Selected(x.eval, lock[n].marker, env) {
        if !x.installable(n, p) {
          assert Missing(x, lock, p, n);
          return Err(NoWheel(n));
        }
        versions := versions[n := lock[n].version];
      }
    }
    return Ok(versions);
  }

  // ------------------------------------------------------------- the manifest

  function VersionsOf(lock: Lock): Versions
  {
    map n | n in lock :: lock[n].version
  }

  function ProjectVersions(projects: Projects): (v: Versions)
    ensures v.Keys == projects.Keys
  {
    map n | n in projects :: projects[n].version
  }

  function Restrict(v: Versions, names: set<string>): Versions
  {
    map n | n in v && n in names :: v[n]
  }

  /** The closures as they are recorded. */
  function ClosureVersions(x: Inputs, closures: Names): PerPlatform<Versions>
  {
    var v := ProjectVersions(x.projects);
    PerPlatform(Restrict(v, closures.linux), Restrict(v, closures.macos), Restrict(v, closures.windows))
  }

  ghost predicate AreProjections(x: Inputs, lock: Lock, r: PerPlatform<Versions>)
  {
    IsProjection(x, lock, LinuxX64, r.linux) && IsProjection(x, lock, MacosArm64, r.macos) &&
    IsProjection(x, lock, WindowsX64, r.windows)
  }

  ghost predicate IsComponentLock(x: Inputs, root: string, closures: Names, lock: Lock)
  {
    IsLock(x.exported(root), PackageMarkers(closures), ProjectVersions(x.projects), lock)
  }

  /** A component as the build makes it from the closures of its root. */
  ghost predicate Made(x: Inputs, c: Component, closures: Names)
  {
    IsComponentLock(x, c.root, closures, c.lock) && c.resolved == VersionsOf(c.lock) &&
    c.closure == ClosureVersions(x, closures) && AreProjections(x, c.lock, c.requirements)
  }

  method AllRequirements(x: Inputs, lock: Lock) returns (r: Result<PerPlatform<Versions>, Error>)
    ensures r.Ok? ==> AreProjections(x, lock, r.value)
    ensures r.Err? <==> MissingOn(x, lock, LinuxX64) || MissingOn(x, lock, MacosArm64) || MissingOn(x, lock, WindowsX64)
  {
    var linux :- PlatformRequirements(x, lock, LinuxX64);
    var macos :- PlatformRequirements(x, lock, MacosArm64);
    var windows :- PlatformRequirements(x, lock, WindowsX64);
    return Ok(PerPlatform(linux, macos, windows));
  }

  /** The lock that was exported for a root names a project. */
  ghost predicate Escapes(x: Inputs, root: string)
  {
    exists n :: n in x.exported(root) && n in x.projects
  }

  /** A package that a root needs on a platform, from its exported lock or as a project, and that has no wheel. */
  ghost predicate Lacks(x: Inputs, root: string, p: Platform, n: string)
  {
    !x.installable(n, p) &&
    (LeadsTo(x, p, root, n) ||
     (n in x.exported(root) && Selected(x.eval, x.exported(root)[n].marker, EnvironmentOf(x.base, p))))
  }

  lemma MissingIsLacking(x: Inputs, root: string, closures: Names, lock: Lock, p: Platform, n: string)
    requires AreClosures(x, root, closures) && IsComponentLock(x, root, closures, lock)
    ensures Missing(x, lock, p, n) <==> Lacks(x, root, p, n)
  {
    assert ClosureOn(x, root, p, closures.At(p));
    if n in Union(closures) {
      PackageMarkerIsExact(x, closures, n, p);
    } else {
      assert n !in closures.At(p);
    }
  }

  ghost predicate LacksOn(x: Inputs, root: string, p: Platform)
  {
    exists n :: Lacks(x, root, p, n)
  }

  /** Why there can be no component for a root. */
  ghost predicate NoComponent(x: Inputs, root: string)
  {
    Escapes(x, root) || LacksOn(x, root, LinuxX64) || LacksOn(x, root, MacosArm64) || LacksOn(x, root, WindowsX64)
  }

  lemma MissingIsLackingOn(x: Inputs, root: string, closures: Names, lock: Lock, p: Platform)
    requires AreClosures(x, root, closures) && IsComponentLock(x, root, closures, lock)
    ensures MissingOn(x, lock, p) <==> LacksOn(x, root, p)
  {
    forall n
      ensures Missing(x, lock, p, n) <==> Lacks(x, root, p, n)
    {
      MissingIsLacking(x, root, closures, lock, p, n);
    }
  }

  method ComponentLock(x: Inputs, root: string, closures: Names) returns (r: Result<Lock, Error>)
    requires Union(closures) <= x.projects.Keys
    ensures r.Ok? ==> IsComponentLock(x, root, closures, r.value)
    ensures r.Err? <==> Escapes(x, root)
  {
    r := WriteLock(x.exported(root), PackageMarkers(closures), ProjectVersions(x.projects));
  }

  /** The part of the build that makes one component. */
  method MakeComponent(x: Inputs, root: string, closures: Names) returns (r: Result<Component, Error>)
    requires AreClosures(x, root, closures)
    ensures r.Ok? ==> r.value.root == root && Made(x, r.value, closures)
    ensures r.Err? <==> NoComponent(x, root)
  {
    ClosuresInside(x, root, closures);
    var lock :- ComponentLock(x, root, closures);
    MissingIsLackingOn(x, root, closures, lock, LinuxX64);
    MissingIsLackingOn(x, root, closures, lock, MacosArm64);
    MissingIsLackingOn(x, root, closures, lock, WindowsX64);
    var requirements :- AllRequirements(x, lock);
    return Ok(Component(root, lock, VersionsOf(lock), ClosureVersions(x, closures), requirements));
  }

  /** Evaluating the markers of a built lock on a platform recovers exactly that platform's closure. The
      names looked at may be any set of projects that holds the closures. */
  lemma ProjectionIsClosure(x: Inputs, c: Component, closures: Names, wheels: set<string>, p: Platform)
    requires Made(x, c, closures) && Union(closures) <= wheels <= x.projects.Keys
    ensures Restrict(c.requirements.At(p), wheels) == c.closure.At(p)
  {
    assert IsProjection(x, c.lock, p, c.requirements.At(p));
    assert c.closure.At(p) == Restrict(ProjectVersions(x.projects), closures.At(p));
    forall n
      ensures n in c.requirements.At(p) && n in wheels <==> n in closures.At(p)
      ensures n in closures.At(p) ==> c.requirements.At(p)[n] == x.projects[n].version
    {
      SelectedIffReachable(x, c, closures, wheels, p, n);
    }
    SameVersions(x.projects, c.requirements.At(p), wheels, closures.At(p));
  }

  lemma SameVersions(projects: Projects, v: Versions, wheels: set<string>, names: set<string>)
    requires forall n :: n in v && n in wheels <==> n in names
    requires forall n :: n in names ==> n in projects && v[n] == projects[n].version
    ensures Restrict(v, wheels) == Restrict(ProjectVersions(projects), names)
  {
    var a, b := Restrict(v, wheels), Restrict(ProjectVersions(projects), names);
    assert forall n :: n in a <==> n in b;
    assert forall n :: n in a ==> a[n] == b[n];
  }

  lemma SelectedIffReachable(x: Inputs, c: Component, closures: Names, wheels: set<string>, p: Platform, n: string)
    requires IsComponentLock(x, c.root, closures, c.lock)
    requires IsProjection(x, c.lock, p, c.requirements.At(p)) && Union(closures) <= wheels <= x.projects.Keys
    ensures n in c.requirements.At(p) && n in wheels <==> n in closures.At(p)
    ensures n in closures.At(p) ==> n in x.projects && c.requirements.At(p)[n] == x.projects[n].version
  {
    if n in Union(closures) {
      PackageMarkerIsExact(x, closures, n, p);
      assert c.lock[n] == Locked(x.projects[n].version, PackageMarkers(closures)[n]);
    } else if n in wheels {
      assert n !in c.lock;
    }
  }

  // ------------------------------------------------------------- the verifier

  /** What the verifier compares of one component. */
  predicate ComponentVerifies(wheels: set<string>, c: Component)
  {
    VersionsOf(c.lock) == c.resolved &&
    Restrict(c.requirements.linux, wheels) == c.closure.linux &&
    Restrict(c.requirements.macos, wheels) == c.closure.macos &&
    Restrict(c.requirements.windows, wheels) == c.closure.windows
  }

  predicate Verifies(m: Manifest)
  {
    forall i :: 0 <= i < |m.components| ==> ComponentVerifies(m.wheels, m.components[i])
  }

  /** The closure check of `verify_installation_artifacts`. */
  method VerifyComponents(m: Manifest) returns (ok: bool)
    ensures ok <==> Verifies(m)
  {
    for i := 0 to |m.components|
      invariant forall k :: 0 <= k < i ==> ComponentVerifies(m.wheels, m.components[k])
    {
      var c := m.components[i];
      if VersionsOf(c.lock) != c.resolved {
        return false;
      }
      for j := 0 to |SUPPORTED|
        invariant forall k :: 0 <= k < j ==> Restrict(c.requirements.At(SUPPORTED[k]), m.wheels) == c.closure.At(SUPPORTED[k])
      {
        if Restrict(c.requirements.At(SUPPORTED[j]), m.wheels) != c.closure.At(SUPPORTED[j]) {
          assert !ComponentVerifies(m.wheels, c);
          return false;
        }
      }
      assert SUPPORTED[0] == LinuxX64 && SUPPORTED[1] == MacosArm64 && SUPPORTED[2] == WindowsX64;
      assert ComponentVerifies(m.wheels, c);
    }
    return true;
  }

  lemma MadeVerifies(x: Inputs, c: Component, closures: Names, wheels: set<string>)
    requires Made(x, c, closures) && Union(closures) <= wheels <= x.projects.Keys
    ensures ComponentVerifies(wheels, c)
  {
    ProjectionIsClosure(x, c, closures, wheels, LinuxX64);
    ProjectionIsClosure(x, c, closures, wheels, MacosArm64);
    ProjectionIsClosure(x, c, closures, wheels, WindowsX64);
  }

  // ---------------------------------------------------------------- the build

  lemma ClosuresInside(x: Inputs, root: string, c: Names)
    requires AreClosures(x, root, c)
    ensures Union(c) <= x.projects.Keys
  {
  }

  /** A root leads to the name on some platform. */
  ghost predicate LeadsSomewhere(x: Inputs, root: string, n: string)
  {
    exists p :: LeadsTo(x, p, root, n)
  }

  lemma UnionIsSomewhere(x: Inputs, root: string, c: Names, n: string)
    requires AreClosures(x, root, c)
    ensures n in Union(c) <==> LeadsSomewhere(x, root, n)
  {
    ClosureAt(x, root, c, LinuxX64, n);
    ClosureAt(x, root, c, MacosArm64, n);
    ClosureAt(x, root, c, WindowsX64, n);
    if p :| LeadsTo(x, p, root, n) {
      ClosureAt(x, root, c, p, n);
    }
  }

  lemma ClosureAt(x: Inputs, root: string, c: Names, p: Platform, n: string)
    requires AreClosures(x, root, c)
    ensures n in c.At(p) <==> LeadsTo(x, p, root, n)
  {
    match p
    case LinuxX64 => assert ClosureOn(x, root, p, c.linux);
    case MacosArm64 => assert ClosureOn(x, root, p, c.macos);
    case WindowsX64 => assert ClosureOn(x, root, p, c.windows);
  }

  ghost predicate SomeRootLeadsTo(x: Inputs, roots: seq<string>, m: nat, n: string)
    requires m <= |roots|
  {
    exists i :: 0 <= i < m && LeadsSomewhere(x, roots[i], n)
  }

  ghost predicate Gathered(x: Inputs, roots: seq<string>, m: nat, found: seq<Names>, all: set<string>)
    requires m <= |roots|
  {
    |found| == m && (forall k :: 0 <= k < m ==> roots[k] in x.projects && AreClosures(x, roots[k], found[k])) &&
    forall n :: n in all <==> SomeRootLeadsTo(x, roots, m, n)
  }

  lemma GatheredMore(x: Inputs, roots: seq<string>, m: nat, found: seq<Names>, all: set<string>, c: Names)
    requires m < |roots| && roots[m] in x.projects && Gathered(x, roots, m, found, all) && AreClosures(x, roots[m], c)
    ensures Gathered(x, roots, m + 1, found + [c], all + Union(c))
  {
    forall n
      ensures n in all + Union(c) <==> SomeRootLeadsTo(x, roots, m + 1, n)
    {
      UnionIsSomewhere(x, roots[m], c, n);
      if i :| 0 <= i < m && LeadsSomewhere(x, roots[i], n) {
        assert SomeRootLeadsTo(x, roots, m + 1, n);
      }
      if i :| 0 <= i < m + 1 && LeadsSomewhere(x, roots[i], n) {
        assert i < m ==> SomeRootLeadsTo(x, roots, m, n);
      }
    }
  }

  /** The closures of every root, and the union of them all. */
  method RootClosures(x: Inputs, roots: seq<string>) returns (r: Result<seq<Names>, Error>, all: set<string>)
    ensures r.Ok? ==> Gathered(x, roots, |roots|, r.value, all)
    ensures r.Err? <==> exists i :: 0 <= i < |roots| && roots[i] !in x.projects
  {
    var found: seq<Names> := [];
    all := {};
    for i := 0 to |roots|
      invariant Gathered(x, roots, i, found, all)
    {
      var c := PlatformClosures(x, roots[i]);
      if c.Err? {
        return Err(c.error), all;
      }
      GatheredMore(x, roots, i, found, all, c.value);
      found := found + [c.value];
      all := all + Union(c.value);
    }
    return Ok(found), all;
  }

  ghost predicate SomeChosenLeadsTo(x: Inputs, chosen: seq<(string, Platform)>, m: nat, n: string)
    requires m <= |chosen|
  {
    exists i :: 0 <= i < m && LeadsTo(x, chosen[i].1, chosen[i].0, n)
  }

  lemma ChosenMore(x: Inputs, chosen: seq<(string, Platform)>, m: nat, c: set<string>, n: string)
    requires m < |chosen| && ClosureOn(x, chosen[m].0, chosen[m].1, c)
    ensures SomeChosenLeadsTo(x, chosen, m + 1, n) <==> SomeChosenLeadsTo(x, chosen, m, n) || n in c
  {
    if i :| 0 <= i < m && LeadsTo(x, chosen[i].1, chosen[i].0, n) {
      assert SomeChosenLeadsTo(x, chosen, m + 1, n);
    }
    if n in c {
      assert LeadsTo(x, chosen[m].1, chosen[m].0, n);
    }
    if i :| 0 <= i < m + 1 && LeadsTo(x, chosen[i].1, chosen[i].0, n) {
      assert i < m ==> SomeChosenLeadsTo(x, chosen, m, n);
    }
  }

  ghost predicate IsReference(x: Inputs, chosen: seq<(string, Platform)>, m: nat, all: set<string>)
    requires m <= |chosen|
  {
    forall n :: n in all <==> SomeChosenLeadsTo(x, chosen, m, n)
  }

  lemma ReferenceMore(x: Inputs, chosen: seq<(string, Platform)>, m: nat, all: set<string>, c: set<string>)
    requires m < |chosen| && IsReference(x, chosen, m, all) && ClosureOn(x, chosen[m].0, chosen[m].1, c)
    ensures IsReference(x, chosen, m + 1, all + c)
  {
    forall n
      ensures n in all + c <==> SomeChosenLeadsTo(x, chosen, m + 1, n)
    {
      ChosenMore(x, chosen, m, c, n);
    }
  }

  /** The closures of the distributions chosen for reference qualification. */
  method ReferenceClosures(x: Inputs, chosen: seq<(string, Platform)>) returns (r: Result<set<string>, Error>)
    ensures r.Ok? ==> IsReference(x, chosen, |chosen|, r.value)
    ensures r.Err? <==> exists i :: 0 <= i < |chosen| && chosen[i].0 !in x.projects
  {
    var all: set<string> := {};
    for i := 0 to |chosen|
      invariant forall k :: 0 <= k < i ==> chosen[k].0 in x.projects
      invariant IsReference(x, chosen, i, all)
    {
      var c :- PlatformClosure(x, chosen[i].0, chosen[i].1);
      ReferenceMore(x, chosen, i, all, c);
      all := all + c;
    }
    return Ok(all);
  }

  /** A component records, platform by platform, exactly the names its root leads to there, and its lock is made
      from them. */
  ghost predicate RecordsClosures(x: Inputs, root: string, c: Component)
  {
    c.root == root && exists closures :: AreClosures(x, root, closures) && Made(x, c, closures)
  }

  /** Why there can be no installation. */
  ghost predicate NoInstallation(x: Inputs, wheels: set<string>, roots: seq<string>, chosen: seq<(string, Platform)>)
  {
    || wheels != x.projects.Keys
    || (exists i :: 0 <= i < |roots| && roots[i] !in x.projects)
    || (exists i :: 0 <= i < |chosen| && chosen[i].0 !in x.projects)
    || (exists i :: 0 <= i < |roots| && NoComponent(x, roots[i]))
  }

  /** Everything the roots and the chosen distributions lead to are projects. */
  lemma IndexInside(
      x: Inputs, roots: seq<string>, found: seq<Names>, required: set<string>, chosen: seq<(string, Platform)>, index: set<string>)
    requires Gathered(x, roots, |roots|, found, required)
    requires forall i :: 0 <= i < |chosen| ==> chosen[i].0 in x.projects
    requires forall n :: n in index <==> n in required || SomeChosenLeadsTo(x, chosen, |chosen|, n)
    ensures index <= x.projects.Keys
  {
    forall n | n in index
      ensures n in x.projects
    {
      if n in required {
        var i :| 0 <= i < |roots| && LeadsSomewhere(x, roots[i], n);
        var p :| LeadsTo(x, p, roots[i], n);
        ProjectsReachProjects(x, p, roots[i], n);
      } else {
        var i :| 0 <= i < |chosen| && LeadsTo(x, chosen[i].1, chosen[i].0, n);
        ProjectsReachProjects(x, chosen[i].1, chosen[i].0, n);
      }
    }
  }

  lemma UnionGathered(x: Inputs, roots: seq<string>, found: seq<Names>, all: set<string>, i: nat)
    requires Gathered(x, roots, |roots|, found, all) && i < |roots|
    ensures Union(found[i]) <= all
  {
    forall n | n in Union(found[i])
      ensures n in all
    {
      UnionIsSomewhere(x, roots[i], found[i], n);
      assert SomeRootLeadsTo(x, roots, |roots|, n);
    }
  }

  /** The components made so far. */
  ghost predicate Built(x: Inputs, roots: seq<string>, index: set<string>, components: seq<Component>)
  {
    |components| <= |roots| &&
    forall k :: 0 <= k < |components| ==>
      RecordsClosures(x, roots[k], components[k]) && ComponentVerifies(index, components[k]) && !NoComponent(x, roots[k])
  }

  lemma BuiltMore(x: Inputs, roots: seq<string>, index: set<string>, components: seq<Component>, c: Component, names: Names)
    requires Built(x, roots, index, components) && |components| < |roots|
    requires AreClosures(x, roots[|components|], names) && Made(x, c, names) && c.root == roots[|components|]
    requires !NoComponent(x, roots[|components|]) && Union(names) <= index <= x.projects.Keys
    ensures Built(x, roots, index, components + [c])
  {
    MadeVerifies(x, c, names, index);
    assert RecordsClosures(x, roots[|components|], c);
  }

  /** The build fails only for one of these reasons. Otherwise, whatever the graph, the markers, the exported locks
      and the roots, the closure check passes, the closures recorded are the true ones, and the wheel index holds
      exactly what the roots and the chosen distributions lead to. */
  method BuildInstallation(x: Inputs, wheels: set<string>, roots: seq<string>, chosen: seq<(string, Platform)>)
    returns (r: Result<Manifest, Error>)
    ensures r.Err? <==> NoInstallation(x, wheels, roots, chosen)
    ensures r.Ok? ==> Verifies(r.value) && |r.value.components| == |roots|
    ensures r.Ok? ==> forall i :: 0 <= i < |roots| ==> RecordsClosures(x, roots[i], r.value.components[i])
    ensures r.Ok? ==> forall n :: n in r.value.wheels <==>
      SomeRootLeadsTo(x, roots, |roots|, n) || SomeChosenLeadsTo(x, chosen, |chosen|, n)
  {
    var closures, required := RootClosures(x, roots);
    if closures.Err? {
      return Err(closures.error);
    }
    var reference :- ReferenceClosures(x, chosen);
    var index := required + reference;
    if wheels != x.projects.Keys {
      return Err(WheelsDiffer);
    }
    IndexInside(x, roots, closures.value, required, chosen, index);
    var components: seq<Component> := [];
    for i := 0 to |roots|
      invariant |components| == i && Built(x, roots, index, components)
    {
      var names := closures.value[i];
      UnionGathered(x, roots, closures.value, required, i);
      var c :- MakeComponent(x, roots[i], names);
      BuiltMore(x, roots, index, components, c, names);
      components := components + [c];
    }
    return Ok(Manifest(index, components));
  }
}
