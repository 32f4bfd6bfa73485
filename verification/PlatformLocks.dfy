/** Per-platform closures written into a lock as markers, and the verifier that reads them back. */
module PlatformLocks {
  import opened Wrappers
  import opened DependencyClosure

  datatype Platform = LinuxX64 | MacosArm64 | WindowsX64

  const SUPPORTED: seq<Platform> := [LinuxX64, MacosArm64, WindowsX64]
  const ALL: set<Platform> := {LinuxX64, MacosArm64, WindowsX64}

  type Environment = map<string, string>

  const SYS_PLATFORM := "sys_platform"

  /** The disjunctions of comparisons that a generated lock holds; an exported block may hold any marker. */
  datatype Marker = Is(variable: string, value: string) | Or(left: Marker, right: Marker) | Exported(text: string)

  /** How requirement markers and exported markers are evaluated. */
  type Evaluator = (string, Environment) -> bool

  function Evaluate(eval: Evaluator, m: Marker, env: Environment): bool
  {
    match m
    case Is(variable, value) => variable in env && env[variable] == value
    case Or(left, right) => Evaluate(eval, left, env) || Evaluate(eval, right, env)
    case Exported(x) => eval(x, env)
  }

  function SysPlatform(p: Platform): string
  {
    match p
    case LinuxX64 => "linux"
    case MacosArm64 => "darwin"
    case WindowsX64 => "win32"
  }

  /** `_marker_environment`; the variables that do not depend on the platform are in the base. */
  function EnvironmentOf(base: Environment, p: Platform): Environment
  {
    var (os, machine, system) :=
      match p
      case LinuxX64 => ("posix", "x86_64", "Linux")
      case MacosArm64 => ("posix", "arm64", "Darwin")
      case WindowsX64 => ("nt", "AMD64", "Windows");
    base["os_name" := os]["platform_machine" := machine]["platform_system" := system][SYS_PLATFORM := SysPlatform(p)]
  }

  datatype Error =
    | NoSuchProject(missing: KeyError)
    | NoProjection
    | WheelsDiffer
    | Escaped
    | NoWheel(package: string)

  function Comparison(p: Platform): Marker
  {
    Is(SYS_PLATFORM, SysPlatform(p))
  }

  /** `" or ".join(...)` over the supported platforms in order. */
  function Joined(platforms: set<Platform>, order: seq<Platform>): Option<Marker>
  {
    if order == [] then None
    else
      var rest := Joined(platforms, order[1..]);
      if order[0] !in platforms then rest
      else if rest.None? then Some(Comparison(order[0]))
      else Some(Or(Comparison(order[0]), rest.value))
  }

  /** `_platform_marker` */
  function PlatformMarker(platforms: set<Platform>): Result<Option<Marker>, Error>
  {
    if platforms == ALL then Ok(None)
    else if platforms == {} then Err(NoProjection)
    else Ok(Joined(platforms, SUPPORTED))
  }

  predicate Selected(eval: Evaluator, marker: Option<Marker>, env: Environment)
  {
    marker.None? || Evaluate(eval, marker.value, env)
  }

  lemma AllSupported(p: Platform)
    ensures p in SUPPORTED && p in ALL
  {
    assert SUPPORTED[0] == LinuxX64 && SUPPORTED[1] == MacosArm64 && SUPPORTED[2] == WindowsX64;
  }

  lemma SysPlatformsDiffer(p: Platform, q: Platform)
    ensures SysPlatform(p) == SysPlatform(q) <==> p == q
  {
    assert SysPlatform(p)[0] == match p case LinuxX64 => 'l' case MacosArm64 => 'd' case WindowsX64 => 'w';
    assert SysPlatform(q)[0] == match q case LinuxX64 => 'l' case MacosArm64 => 'd' case WindowsX64 => 'w';
  }

  lemma ComparisonHolds(eval: Evaluator, base: Environment, p: Platform, q: Platform)
    ensures Evaluate(eval, Comparison(p), EnvironmentOf(base, q)) <==> p == q
  {
    SysPlatformsDiffer(p, q);
  }

  lemma {:induction false} JoinedHolds(eval: Evaluator, base: Environment, platforms: set<Platform>, order: seq<Platform>, p: Platform)
    ensures var m := Joined(platforms, order);
            (m.None? <==> forall q :: q in order ==> q !in platforms) &&
            (m.Some? ==> (Evaluate(eval, m.value, EnvironmentOf(base, p)) <==> p in platforms && p in order))
  {
    if order != [] {
      JoinedHolds(eval, base, platforms, order[1..], p);
      ComparisonHolds(eval, base, order[0], p);
      assert order[0] in order && forall q :: q in order <==> q == order[0] || q in order[1..];
    }
  }

  /** A compiled marker holds on exactly the platforms it was compiled from. */
  lemma MarkerIsExact(eval: Evaluator, base: Environment, platforms: set<Platform>, p: Platform)
    ensures PlatformMarker(platforms).Err? <==> platforms == {}
    ensures platforms != {} ==> (Selected(eval, PlatformMarker(platforms).value, EnvironmentOf(base, p)) <==> p in platforms)
  {
    AllSupported(p);
    JoinedHolds(eval, base, platforms, SUPPORTED, p);
    if platforms != {} {
      var q :| q in platforms;
      AllSupported(q);
    }
  }
}
