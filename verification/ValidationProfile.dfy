/** From changed paths to the validation profile and the required gates. */
module ValidationProfile {
  import opened Common

  datatype Profile = Lean | Scoped | Strong | Full

  datatype Stage = Iteration | Integration | Release

  datatype Risk =
    | DocsGovernance | Python | Ui | RuntimeContract | E2e | Packaging | Security
    | ValidationInfra | UnknownExecutable | RepositoryMetadata

  datatype Gate =
    | RepositoryGuards | Lint | PythonFast | PythonMatrix | BrowserE2e | PackageSmoke
    | SecurityAudit | L2Specialists

  function Rank(p: Profile): nat {
    match p
    case Lean => 0
    case Scoped => 1
    case Strong => 2
    case Full => 3
  }

  // ---- Paths ---------------------------------------------------------------

  const EXECUTABLE_SUFFIXES: set<string> := {".py", ".js", ".ts", ".sh", ".yml", ".yaml", ".toml", ".json"}

  const FULL_PREFIXES: seq<string> := [".github/workflows/"]

  const FULL_PATHS: set<string> := {
    ".engineering/baseline.json", ".engineering/commands.json", "scripts/select_validation_profile.py",
    "scripts/verify_operations.py", "scripts/verify_repository.py", "scripts/verify_e2e.py",
    "scripts/verify_artifact_lifecycle.py", "pyproject.toml", "uv.lock", "package.json", "package-lock.json",
    "deploy.sh", "release.sh"}

  const STRONG_PREFIXES: seq<string> := [
    "src/local_llm_server/core/", "src/local_llm_server/static/", "tests/e2e/", "tests/real_runtime/", "design/"]

  const STRONG_PATHS: set<string> := {
    ".engineering/e2e.json", "SECURITY.md", "scripts/verify_security_exceptions.py",
    "scripts/verify_built_surface_e2e.py", "scripts/verify_resource_regression.py",
    "scripts/verify_fault_injection.py", "scripts/verify_repeatability_contracts.py"}

  const LEAN_PREFIXES: seq<string> := ["docs/", "skills/"]

  const LEAN_PATHS: set<string> := {
    "README.md", "CHANGELOG.md", "AGENTS.md", "CONTRIBUTING.md", ".github/pull_request_template.md"}

  const CODE_PREFIXES: seq<string> := ["src/", "tests/", "scripts/"]

  const KNOWN_PREFIXES: seq<string> := ["src/", "tests/", "scripts/", ".github/", ".engineering/", "design/"]

  predicate HasPrefix(path: string, prefixes: seq<string>) {
    exists p :: p in prefixes && p <= path
  }

  predicate EndsWith(path: string, end: string) {
    |end| <= |path| && path[|path| - |end|..] == end
  }

  /** What follows the last `c`, or all of `s`. */
  function AfterLast(s: string, c: char): string {
    if s == "" || s[|s| - 1] == c then "" else AfterLast(s[..|s| - 1], c) + [s[|s| - 1]]
  }

  /** The file suffix of a path: from the last dot of its name, unless that dot
      begins or ends the name. */
  function Suffix(path: string): string {
    var name := AfterLast(path, '/');
    var end := AfterLast(name, '.');
    if end == "" || |end| >= |name| - 1 then "" else "." + end
  }

  predicate IsFull(p: string) {
    p in FULL_PATHS || HasPrefix(p, FULL_PREFIXES)
  }

  predicate IsUnknownExecutable(p: string) {
    Lower(Suffix(p)) in EXECUTABLE_SUFFIXES && !HasPrefix(p, KNOWN_PREFIXES)
  }

  predicate IsStrong(p: string) {
    p in STRONG_PATHS || HasPrefix(p, STRONG_PREFIXES)
  }

  predicate IsLean(p: string) {
    p in LEAN_PATHS || HasPrefix(p, LEAN_PREFIXES) || EndsWith(p, ".md")
  }

  predicate IsCode(p: string) {
    HasPrefix(p, CODE_PREFIXES)
  }

  // ---- Risks --------------------------------------------------------------------

  predicate IsPython(p: string) {
    IsCode(p) && Suffix(p) == ".py"
  }

  predicate IsUi(p: string) {
    HasPrefix(p, ["src/local_llm_server/static/", "design/", "tests/e2e/"]) || Suffix(p) in {".js", ".ts"}
  }

  predicate IsRuntimeContract(p: string) {
    HasPrefix(p, ["src/local_llm_server/core/", "tests/real_runtime/"])
  }

  predicate IsE2e(p: string) {
    "tests/e2e/" <= p || p == ".engineering/e2e.json"
  }

  predicate IsPackaging(p: string) {
    p in {"deploy.sh", "release.sh", "pyproject.toml", "uv.lock", "package.json", "package-lock.json",
          "scripts/verify_artifact_lifecycle.py"}
  }

  predicate IsSecurity(p: string) {
    p in {"SECURITY.md", "scripts/verify_security_exceptions.py"} || EndsWith(p, "security.yml")
  }

  predicate Carries(p: string, r: Risk) {
    match r
    case DocsGovernance => IsLean(p)
    case Python => IsPython(p)
    case Ui => IsUi(p)
    case RuntimeContract => IsRuntimeContract(p)
    case E2e => IsE2e(p)
    case Packaging => IsPackaging(p)
    case Security => IsSecurity(p)
    case ValidationInfra => IsFull(p)
    case UnknownExecutable => false
    case RepositoryMetadata => false
  }

  function PathRisks(p: string): set<Risk> {
    set r: Risk | Carries(p, r)
  }

  function AllRisks(paths: seq<string>): set<Risk> {
    if paths == [] then {} else AllRisks(paths[..|paths| - 1]) + PathRisks(paths[|paths| - 1])
  }

  function RisksOf(paths: seq<string>): set<Risk> {
    if AllRisks(paths) == {} then {RepositoryMetadata} else AllRisks(paths)
  }

  /** Adds the risks one path carries. */
  method AddRisks(risks: set<Risk>, path: string) returns (more: set<Risk>)
    ensures more == risks + PathRisks(path)
  {
    hide IsLean, IsPython, IsUi, IsRuntimeContract, IsE2e, IsPackaging, IsSecurity, IsFull;
    more := risks;
    if IsLean(path) { more := more + {DocsGovernance}; }
    if IsPython(path) { more := more + {Python}; }
    if IsUi(path) { more := more + {Ui}; }
    if IsRuntimeContract(path) { more := more + {RuntimeContract}; }
    if IsE2e(path) { more := more + {E2e}; }
    if IsPackaging(path) { more := more + {Packaging}; }
    if IsSecurity(path) { more := more + {Security}; }
    if IsFull(path) { more := more + {ValidationInfra}; }
    forall r: Risk ensures r in more <==> r in risks || Carries(path, r) {}
  }

  method RisksFor(paths: seq<string>) returns (risks: set<Risk>)
    ensures risks == RisksOf(paths)
  {
    hide Carries;
    risks := {};
    for i := 0 to |paths|
      invariant risks == AllRisks(paths[..i])
    {
      assert paths[..i + 1][..i] == paths[..i];
      risks := AddRisks(risks, paths[i]);
    }
    assert paths[..|paths|] == paths;
    if risks == {} {
      risks := {RepositoryMetadata};
    }
  }

  // ---- Classification ---------------------------------------------------------------

  function Classify(paths: seq<string>): (Profile, set<Risk>) {
    if paths == [] then (Lean, {DocsGovernance})
    else if exists p :: p in paths && IsFull(p) then (Full, RisksOf(paths) + {ValidationInfra})
    else if exists p :: p in paths && IsUnknownExecutable(p) then (Full, RisksOf(paths) + {UnknownExecutable})
    else if exists p :: p in paths && IsStrong(p) then (Strong, RisksOf(paths))
    else if forall p :: p in paths ==> IsLean(p) then (Lean, {DocsGovernance})
    else if forall p :: p in paths ==> IsCode(p) then (Scoped, RisksOf(paths))
    else (Strong, RisksOf(paths))
  }

  // ---- Gates --------------------------------------------------------------------------

  const EXECUTABLE_RISKS: set<Risk> := {
    Python, RuntimeContract, E2e, Ui, Packaging, ValidationInfra, UnknownExecutable}

  predicate Executable(risks: set<Risk>) {
    risks * EXECUTABLE_RISKS != {}
  }

  /** When a gate is required. */
  predicate Requires(profile: Profile, stage: Stage, risks: set<Risk>, g: Gate) {
    var code := Executable(risks) && profile != Lean;
    match g
    case RepositoryGuards => true
    case Lint => code
    case PythonFast => code && stage == Iteration
    case PythonMatrix => code && stage != Iteration
    case BrowserE2e =>
      stage == Release || (stage == Integration && (profile == Strong || profile == Full)
                           && risks * {Ui, E2e, RuntimeContract, ValidationInfra} != {})
    case PackageSmoke => stage == Release || (stage == Integration && (profile == Full || Packaging in risks))
    case SecurityAudit =>
      stage == Release || (stage == Integration && (profile == Full || risks * {Security, Packaging} != {}))
    case L2Specialists => stage == Release || (stage == Integration && profile == Full)
  }

  method GatesFor(profile: Profile, stage: Stage, risks: set<Risk>) returns (gates: set<Gate>)
    ensures forall g :: g in gates <==> Requires(profile, stage, risks, g)
  {
    gates := {RepositoryGuards};
    var executable := Executable(risks);
    hide Executable;
    if Packaging in risks {
      assert Packaging in risks * {Packaging};
    }
    if stage == Iteration {
      if executable && profile != Lean {
        gates := gates + {Lint, PythonFast};
      }
      return;
    }
    if executable && profile != Lean {
      gates := gates + {Lint, PythonMatrix};
    }
    if (profile == Strong || profile == Full) && risks * {Ui, E2e, RuntimeContract, ValidationInfra} != {} {
      gates := gates + {BrowserE2e};
    }
    if profile == Full || risks * {Packaging} != {} {
      gates := gates + {PackageSmoke};
    }
    if profile == Full || risks * {Security, Packaging} != {} {
      gates := gates + {SecurityAudit};
    }
    if profile == Full {
      gates := gates + {L2Specialists};
    }
    if stage == Release {
      gates := gates + {BrowserE2e, PackageSmoke, SecurityAudit, L2Specialists};
    }
  }

  // ---- Selection -------------------------------------------------------------------------

  datatype Selection = Selection(profile: Profile, automatic: Profile, risks: set<Risk>)

  function Automatic(paths: seq<string>, stage: Stage): Profile {
    if stage == Release then Full else Classify(paths).0
  }

  /** None when the requested profile is weaker than the automatic one. */
  function Choose(paths: seq<string>, stage: Stage, requested: Option<Profile>): Option<Selection> {
    var automatic := Automatic(paths, stage);
    if requested.Some? && Rank(requested.value) < Rank(automatic) then None
    else Some(Selection(if requested.Some? then requested.value else automatic, automatic, Classify(paths).1))
  }

  ghost predicate Gated(paths: seq<string>, stage: Stage, requested: Option<Profile>, g: Gate) {
    var s := Choose(paths, stage, requested);
    s.Some? && Requires(s.value.profile, stage, s.value.risks, g)
  }

  method Select(paths: seq<string>, stage: Stage, requested: Option<Profile>)
    returns (s: Option<Selection>, gates: set<Gate>)
    ensures s == Choose(paths, stage, requested)
    ensures s.Some? ==> forall g :: g in gates <==> Gated(paths, stage, requested, g)
  {
    hide Classify, Requires;
    var (automatic, risks) := Classify(paths);
    if stage == Release {
      automatic := Full;
    }
    gates := {};
    if requested.Some? && Rank(requested.value) < Rank(automatic) {
      return None, gates;
    }
    var selected := if requested.Some? then requested.value else automatic;
    gates := GatesFor(selected, stage, risks);
    s := Some(Selection(selected, automatic, risks));
  }

  // ---- Monotonicity ------------------------------------------------------------------------

  ghost predicate Extends(a: seq<string>, b: seq<string>) {
    forall p :: p in a ==> p in b
  }

  lemma {:induction false} AllRisksMembers(paths: seq<string>)
    ensures forall r :: r in AllRisks(paths) <==> exists p :: p in paths && Carries(p, r)
  {
    hide Carries;
    if paths != [] {
      AllRisksMembers(paths[..|paths| - 1]);
      assert paths == paths[..|paths| - 1] + [paths[|paths| - 1]];
    }
  }

  /** More paths carry more risks, up to the placeholder for none. */
  lemma RisksGrow(a: seq<string>, b: seq<string>)
    requires Extends(a, b)
    ensures RisksOf(a) - {RepositoryMetadata} <= RisksOf(b)
  {
    hide Carries;
    AllRisksMembers(a);
    AllRisksMembers(b);
    assert AllRisks(a) <= AllRisks(b);
  }

  /** Adding changed paths never weakens the profile. */
  lemma ProfileGrows(a: seq<string>, b: seq<string>, stage: Stage)
    requires Extends(a, b)
    ensures Rank(Automatic(a, stage)) <= Rank(Automatic(b, stage))
  {
    hide IsFull, IsUnknownExecutable, IsStrong, IsLean, IsCode, RisksOf;
  }

  /** Every risk that matters for gates survives when paths are added: an unknown
      executable at least as some executable risk. */
  lemma ClassifiedRisksGrow(a: seq<string>, b: seq<string>)
    requires Extends(a, b)
    ensures var (p, ra) := Classify(a);
      var (q, rb) := Classify(b);
      && (p != Lean ==> ra - {RepositoryMetadata, UnknownExecutable} <= rb)
      && (p != Lean && Executable(ra) ==> Executable(rb))
      && (p == Lean ==> ra == {DocsGovernance})
  {
    hide Classify, RisksOf;
    RisksGrow(a, b);
    ProfileGrows(a, b, Iteration);
    ClassifyRisks(a);
    ClassifyRisks(b);
    var (p, ra) := Classify(a);
    var (q, rb) := Classify(b);
    assert Rank(p) <= Rank(q);
    if p != Lean {
      assert q != Lean && RisksOf(b) <= rb;
      forall r | r in ra - {RepositoryMetadata, UnknownExecutable} ensures r in rb {
        assert r in RisksOf(a) - {RepositoryMetadata};
      }
    }
    if p != Lean && Executable(ra) && q != Full {
      assert p != Full && UnknownExecutable !in ra;
      var r :| r in ra * EXECUTABLE_RISKS;
      assert r in rb * EXECUTABLE_RISKS;
    }
  }

  /** Classification adds no risk but the unknown executable, and every full
      profile comes with an executable risk. */
  lemma ClassifyRisks(paths: seq<string>)
    ensures var (p, risks) := Classify(paths);
      && (p == Lean ==> risks == {DocsGovernance})
      && (p != Lean ==> risks - {UnknownExecutable} == RisksOf(paths))
      && (UnknownExecutable in risks ==> p == Full)
      && (p == Full ==> Executable(risks))
  {
    RisksAreKnown(paths);
    var (p, risks) := Classify(paths);
    hide IsUnknownExecutable, IsStrong, IsLean, IsCode, RisksOf, Executable;
    if q :| q in paths && IsFull(q) {
      FullPathRisk(paths, q);
    }
    hide IsFull;
    if p == Full {
      FullIsExecutable(risks);
    }
  }

  lemma FullPathRisk(paths: seq<string>, q: string)
    requires q in paths && IsFull(q)
    ensures ValidationInfra in RisksOf(paths)
  {
    AllRisksMembers(paths);
    assert Carries(q, ValidationInfra);
  }

  lemma FullIsExecutable(risks: set<Risk>)
    requires ValidationInfra in risks || UnknownExecutable in risks
    ensures Executable(risks)
  {
    if ValidationInfra in risks {
      assert ValidationInfra in risks * EXECUTABLE_RISKS;
    } else {
      assert UnknownExecutable in risks * EXECUTABLE_RISKS;
    }
  }

  lemma RisksAreKnown(paths: seq<string>)
    ensures UnknownExecutable !in RisksOf(paths)
  {
    AllRisksMembers(paths);
  }

  /** A stronger profile with at least the relevant risks requires at least the
      same gates. */
  lemma GatesGrow(p: Profile, ra: set<Risk>, q: Profile, rb: set<Risk>, stage: Stage, g: Gate)
    requires Rank(p) <= Rank(q)
    requires p != Lean ==> (Executable(ra) ==> Executable(rb))
    requires Executable(ra) || Packaging in ra || Security in ra ==> ra - {RepositoryMetadata, UnknownExecutable} <= rb
    ensures Requires(p, stage, ra, g) ==> Requires(q, stage, rb, g)
  {
    if g == BrowserE2e && ra * {Ui, E2e, RuntimeContract, ValidationInfra} != {} {
      var r :| r in ra * {Ui, E2e, RuntimeContract, ValidationInfra};
      assert r in ra * EXECUTABLE_RISKS;
      assert r in rb * {Ui, E2e, RuntimeContract, ValidationInfra};
    }
    if g == SecurityAudit && ra * {Security, Packaging} != {} {
      var r :| r in ra * {Security, Packaging};
      assert r in rb * {Security, Packaging};
    }
  }

  /** For a fixed stage, adding changed paths removes no required gate, with the
      automatic profile as well as with any explicit one that is still accepted. */
  lemma GatesAreMonotone(a: seq<string>, b: seq<string>, stage: Stage, requested: Option<Profile>, g: Gate)
    requires Extends(a, b) && Choose(b, stage, requested).Some?
    ensures Choose(a, stage, requested).Some?
    ensures Rank(Choose(a, stage, requested).value.profile) <= Rank(Choose(b, stage, requested).value.profile)
    ensures Gated(a, stage, requested, g) ==> Gated(b, stage, requested, g)
  {
    ProfileGrows(a, b, stage);
    ProfileGrows(a, b, Iteration);
    ClassifiedRisksGrow(a, b);
    hide Classify, Requires, Executable;
    var s, t := Choose(a, stage, requested).value, Choose(b, stage, requested).value;
    LeanIsHarmless();
    GatesGrow(s.profile, s.risks, t.profile, t.risks, stage, g);
  }

  lemma LeanIsHarmless()
    ensures !Executable({DocsGovernance})
  {
  }

  /** The release gates of a change include its integration gates. */
  lemma ReleaseIncludesIntegration(paths: seq<string>, g: Gate)
    requires Gated(paths, Integration, None, g)
    ensures Gated(paths, Release, None, g)
  {
    ClassifiedRisksGrow(paths, paths);
    hide Classify;
  }

  /** The choice depends only on which paths changed, not on their order or
      multiplicity. */
  lemma OnlyTheSetMatters(a: seq<string>, b: seq<string>, stage: Stage, requested: Option<Profile>)
    requires Extends(a, b) && Extends(b, a)
    ensures Choose(a, stage, requested) == Choose(b, stage, requested)
  {
    hide IsFull, IsUnknownExecutable, IsStrong, IsLean, IsCode, RisksOf;
    SameRisks(a, b);
    assert a == [] <==> b == [] by {
      if a != [] { assert a[0] in b; }
      if b != [] { assert b[0] in a; }
    }
  }

  lemma SameRisks(a: seq<string>, b: seq<string>)
    requires Extends(a, b) && Extends(b, a)
    ensures RisksOf(a) == RisksOf(b)
  {
    hide Carries;
    AllRisksMembers(a);
    AllRisksMembers(b);
    assert AllRisks(a) == AllRisks(b);
  }
}
