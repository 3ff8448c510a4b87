/**
  The CI impact classifier: a set of changed paths becomes a verification plan. The
  classifier leaves early for state-only and docs-only changes; the plan nevertheless is
  the join of the plans of the parts of a change.

  Paths are normalised; the pattern tables are predicates on paths.
 */
module ImpactClassifier {

  type Path = string

  datatype Class =
    | StateOnly | DocsOnly | CrossSurfaceOrUnknown
    | VerificationTooling | CiGovernance | DependencyToolchain | Frontend | Backend | DatabaseMigration
    | DeviceAgent | DeploymentRuntime | SecurityTooling | SecuritySupplyChain

  datatype Rule = Rule(applies: Path -> bool, classes: set<Class>)

  /** A dashboard domain with a test selection of its own. */
  datatype Domain = Domain(applies: Path -> bool, test: string)

  datatype Tables = Tables(
    state: set<Path>, isDocs: Path -> bool, rules: seq<Rule>,
    offline: Path -> bool, refrigeration: Path -> bool, shared: Path -> bool, domains: seq<Domain>,
    telegram: Path -> bool, supplyChain: Path -> bool, edgeImage: Path -> bool, scale: Path -> bool,
      tools: Path -> bool)

  datatype Workflow =
    | Dashboard
    | OfflineBundle
    | Refrigeration
    | TelegramGateway
    | SupplyChain
    | EdgeImage
    | AcquisitionScale
    | Rs485Tools

  datatype Mode = NoDashboard | Focused(test: string) | Full

  datatype Plan = Plan(mode: Mode, offline: bool, refrigeration: bool, required: seq<Workflow>)

  datatype Result = Result(
    files: set<Path>, classes: set<Class>, stateOnly: bool, docsOnly: bool,
    needsFullQuality: bool, failClosed: bool, unknown: set<Path>, plan: Plan)

  const ORDER := [Dashboard, OfflineBundle, Refrigeration, TelegramGateway, SupplyChain, EdgeImage,
    AcquisitionScale, Rs485Tools]

  predicate Any(files: set<Path>, applies: Path -> bool) {
    exists p | p in files :: applies(p)
  }

  // ---- what a plan should be ----

  /** The selections of the domains that some file belongs to. */
  function FocusedTests(domains: seq<Domain>, files: set<Path>): seq<string>
    decreases |domains|
  {
    if domains == [] then []
    else
      var init := FocusedTests(domains[..|domains| - 1], files);
      if Any(files, domains[|domains| - 1].applies) then init + [domains[|domains| - 1].test] else init
  }

  function ModeOf(t: Tables, files: set<Path>, failClosed: bool): Mode {
    var tests := FocusedTests(t.domains, files);
    if failClosed || Any(files, t.shared) || |tests| > 1 then Full
    else if |tests| == 1 then Focused(tests[0])
    else NoDashboard
  }

  predicate Needs(t: Tables, files: set<Path>, failClosed: bool, w: Workflow) {
    match w
    case Dashboard => ModeOf(t, files, failClosed) != NoDashboard
    case OfflineBundle => failClosed || Any(files, t.offline)
    case Refrigeration => failClosed || Any(files, t.refrigeration)
    case TelegramGateway => Any(files, t.telegram)
    case SupplyChain => Any(files, t.supplyChain)
    case EdgeImage => Any(files, t.edgeImage)
    case AcquisitionScale => Any(files, t.scale)
    case Rs485Tools => Any(files, t.tools)
  }

  /** The chosen workflows in their fixed order. */
  function Select(order: seq<Workflow>, chosen: Workflow -> bool): seq<Workflow>
    decreases |order|
  {
    if order == [] then []
    else Select(order[..|order| - 1], chosen) + if chosen(order[|order| - 1]) then [order[|order| - 1]] else []
  }

  function PlanOf(t: Tables, files: set<Path>, failClosed: bool): Plan {
    Plan(
      ModeOf(t, files, failClosed),
      Needs(t, files, failClosed, OfflineBundle),
      Needs(t, files, failClosed, Refrigeration),
      Select(ORDER, w => Needs(t, files, failClosed, w)))
  }

  function ClassesOf(rules: seq<Rule>, p: Path): set<Class>
    decreases |rules|
  {
    if rules == [] then {}
    else ClassesOf(rules[..|rules| - 1], p) + if rules[|rules| - 1].applies(p) then rules[|rules| - 1].classes else {}
  }

  predicate Matched(rules: seq<Rule>, p: Path) {
    exists i | 0 <= i < |rules| :: rules[i].applies(p)
  }

  predicate Known(t: Tables, p: Path) { Matched(t.rules, p) || t.isDocs(p) || p in t.state }

  function Unknown(t: Tables, files: set<Path>): set<Path> { set p | p in files && !Known(t, p) }

  function AllClasses(t: Tables, files: set<Path>): set<Class> {
    set p, c | p in files && c in ClassesOf(t.rules, p) :: c
  }

  predicate Crosses(t: Tables, files: set<Path>) {
    Unknown(t, files) != {} || |AllClasses(t, files) - {CrossSurfaceOrUnknown}| > 1
  }

  function ClassesFor(t: Tables, files: set<Path>): set<Class> {
    var classes := AllClasses(t, files) + if Crosses(t, files) then {CrossSurfaceOrUnknown} else {};
    if classes == {} then {CrossSurfaceOrUnknown} else classes
  }

  const NO_PLAN := Plan(NoDashboard, false, false, [])

  /** The result for a set of files, early exits and all. */
  function Classification(t: Tables, files: set<Path>): Result {
    if files == {} then
      Result({}, {CrossSurfaceOrUnknown}, false, false, true, true, {}, PlanOf(t, {}, true))
    else if files <= t.state then
      Result(files, {StateOnly}, true, false, false, false, {}, NO_PLAN)
    else if forall p | p in files :: t.isDocs(p) then
      Result(files, {DocsOnly}, false, true, true, false, {}, PlanOf(t, files, false))
    else GeneralResult(t, files)
  }

  function GeneralResult(t: Tables, files: set<Path>): Result {
    Result(files, ClassesFor(t, files), false, false, true, Unknown(t, files) != {}, Unknown(t, files),
           PlanOf(t, files, Unknown(t, files) != {}))
  }

  // ---- what the plan and the flags say, one by one ----

  ghost predicate Touches(files: set<Path>, table: Path -> bool) { exists p :: p in files && table(p) }

  ghost predicate Focuses(domains: seq<Domain>, files: set<Path>, i: int) {
    0 <= i < |domains| && Touches(files, domains[i].applies)
  }

  ghost predicate TwoFocus(domains: seq<Domain>, files: set<Path>) {
    exists i, j :: Focuses(domains, files, i) && Focuses(domains, files, j) && i != j
  }

  /** The place of a workflow in the list of those required. */
  function Rank(w: Workflow): nat {
    match w
    case Dashboard => 0
    case OfflineBundle => 1
    case Refrigeration => 2
    case TelegramGateway => 3
    case SupplyChain => 4
    case EdgeImage => 5
    case AcquisitionScale => 6
    case Rs485Tools => 7
  }

  predicate Ranked(workflows: seq<Workflow>) {
    forall i, j :: 0 <= i < j < |workflows| ==> Rank(workflows[i]) < Rank(workflows[j])
  }

  /** The dashboard runs in full for a shared file or two domains, focused for one domain. */
  ghost predicate ModeFits(t: Tables, files: set<Path>, failClosed: bool, mode: Mode) {
    var full := failClosed || Touches(files, t.shared) || TwoFocus(t.domains, files);
    match mode
    case Full => full
    case Focused(test) => !full && exists i :: Focuses(t.domains, files, i) && t.domains[i].test == test
    case NoDashboard => !full && forall i :: !Focuses(t.domains, files, i)
  }

  /** Each workflow is required for its own table, the first three also when the
      classification fails closed, and they are listed in their order. */
  ghost predicate PlanFits(t: Tables, files: set<Path>, failClosed: bool, plan: Plan) {
    && ModeFits(t, files, failClosed, plan.mode)
    && (plan.offline <==> failClosed || Touches(files, t.offline))
    && (plan.refrigeration <==> failClosed || Touches(files, t.refrigeration))
    && (Dashboard in plan.required <==> plan.mode != NoDashboard)
    && (OfflineBundle in plan.required <==> failClosed || Touches(files, t.offline))
    && (Refrigeration in plan.required <==> failClosed || Touches(files, t.refrigeration))
    && (TelegramGateway in plan.required <==> Touches(files, t.telegram))
    && (SupplyChain in plan.required <==> Touches(files, t.supplyChain))
    && (EdgeImage in plan.required <==> Touches(files, t.edgeImage))
    && (AcquisitionScale in plan.required <==> Touches(files, t.scale))
    && (Rs485Tools in plan.required <==> Touches(files, t.tools))
    && Ranked(plan.required)
  }

  lemma {:induction false} SelectIsRanked(order: seq<Workflow>, chosen: Workflow -> bool)
    requires Ranked(order)
    ensures Ranked(Select(order, chosen))
    decreases |order|
  {
    if order != [] {
      var init, last := order[..|order| - 1], order[|order| - 1];
      SelectIsRanked(init, chosen);
      forall w | w in Select(init, chosen) ensures Rank(w) < Rank(last) {
        SelectExactly(init, chosen, w);
        var i :| 0 <= i < |init| && init[i] == w;
        assert order[i] == w;
      }
    }
  }

  /** Lists in order with the same workflows are equal. */
  lemma {:induction false} RankedIsUnique(a: seq<Workflow>, b: seq<Workflow>)
    requires Ranked(a) && Ranked(b) && forall w :: w in a <==> w in b
    ensures a == b
  {
    if a == [] {
      if b != [] { NothingIn(b); }
    } else {
      assert a[0] in a && a[0] in b;
      assert b[0] in b && b[0] in a;
      var i :| 0 <= i < |b| && b[i] == a[0];
      var j :| 0 <= j < |a| && a[j] == b[0];
      assert a[0] == b[0];
      RankedTail(a);
      RankedTail(b);
      RankedIsUnique(a[1..], b[1..]);
    }
  }

  lemma NothingIn(b: seq<Workflow>)
    requires b != []
    ensures exists w :: w in b
  {
    assert b[0] in b;
  }

  lemma RankedTail(a: seq<Workflow>)
    requires a != [] && Ranked(a)
    ensures Ranked(a[1..]) && forall w :: w in a[1..] <==> w in a && w != a[0]
  {
    forall w | w in a && w != a[0] ensures w in a[1..] {
      var i :| 0 <= i < |a| && a[i] == w;
      assert a[1..][i - 1] == w;
    }
    forall w | w in a[1..] ensures w in a && w != a[0] {
      var i :| 0 <= i < |a[1..]| && a[1..][i] == w;
      assert a[i + 1] == w;
    }
  }

  lemma AnyExactly(files: set<Path>, applies: Path -> bool)
    ensures Any(files, applies) <==> Touches(files, applies)
  {
  }

  lemma {:induction false} TestsExactly(domains: seq<Domain>, files: set<Path>)
    ensures var tests := FocusedTests(domains, files);
            && (|tests| > 1 <==> TwoFocus(domains, files))
            && (|tests| == 0 <==> forall i :: !Focuses(domains, files, i))
            && (|tests| == 1 ==> exists i :: Focuses(domains, files, i) && domains[i].test == tests[0])
    decreases |domains|
  {
    if domains != [] {
      var n := |domains| - 1;
      TestsExactly(domains[..n], files);
      AnyExactly(files, domains[n].applies);
      assert Focuses(domains, files, n) <==> Touches(files, domains[n].applies);
      FocusGrows(domains, files);
      assert forall i :: Focuses(domains[..n], files, i) ==> Focuses(domains, files, i) && i < n;
      hide Any, Touches, TwoFocus, Focuses;
    }
  }

  lemma FocusGrows(domains: seq<Domain>, files: set<Path>)
    requires domains != []
    ensures var n := |domains| - 1;
            && (forall i :: Focuses(domains, files, i) <==>
              Focuses(domains[..n], files, i) || (i == n && Touches(files, domains[n].applies)))
            && (TwoFocus(domains, files) <==>
              TwoFocus(domains[..n], files)
                || (Touches(files, domains[n].applies) && exists i :: Focuses(domains[..n], files, i)))
  {
    hide Touches;
    var n := |domains| - 1;
    if TwoFocus(domains, files) && !TwoFocus(domains[..n], files) {
      var i, j :| Focuses(domains, files, i) && Focuses(domains, files, j) && i != j;
      assert Focuses(domains[..n], files, if i == n then j else i);
    }
    if TwoFocus(domains[..n], files) {
      var i, j :| Focuses(domains[..n], files, i) && Focuses(domains[..n], files, j) && i != j;
      assert Focuses(domains, files, i) && Focuses(domains, files, j);
    }
    if i :| Touches(files, domains[n].applies) && Focuses(domains[..n], files, i) {
      assert Focuses(domains, files, i) && Focuses(domains, files, n);
    }
  }

  lemma ModeFitsExactly(t: Tables, files: set<Path>, failClosed: bool)
    ensures ModeFits(t, files, failClosed, ModeOf(t, files, failClosed))
  {
    TestsExactly(t.domains, files);
    AnyExactly(files, t.shared);
    hide Any, Touches, Focuses, TwoFocus, FocusedTests;
  }

  lemma RequiredExactly(t: Tables, files: set<Path>, failClosed: bool, w: Workflow)
    ensures w in PlanOf(t, files, failClosed).required <==> Needs(t, files, failClosed, w)
  {
    EveryWorkflowIsListed();
    SelectExactly(ORDER, w => Needs(t, files, failClosed, w), w);
    hide Needs, Select;
  }

  lemma OrderIsRanked()
    ensures Ranked(ORDER)
  {
  }

  lemma PlanOfFits(t: Tables, files: set<Path>, failClosed: bool)
    ensures PlanFits(t, files, failClosed, PlanOf(t, files, failClosed))
  {
    hide Any, Touches, ModeFits, Select, Ranked, ModeOf;
    ModeFitsExactly(t, files, failClosed);
    RequiredExactly(t, files, failClosed, Dashboard);
    RequiredExactly(t, files, failClosed, OfflineBundle);
    RequiredExactly(t, files, failClosed, Refrigeration);
    RequiredExactly(t, files, failClosed, TelegramGateway);
    RequiredExactly(t, files, failClosed, SupplyChain);
    RequiredExactly(t, files, failClosed, EdgeImage);
    RequiredExactly(t, files, failClosed, AcquisitionScale);
    RequiredExactly(t, files, failClosed, Rs485Tools);
    AnyExactly(files, t.offline);
    AnyExactly(files, t.refrigeration);
    AnyExactly(files, t.telegram);
    AnyExactly(files, t.supplyChain);
    AnyExactly(files, t.edgeImage);
    AnyExactly(files, t.scale);
    AnyExactly(files, t.tools);
    OrderIsRanked();
    SelectIsRanked(ORDER, w => Needs(t, files, failClosed, w));
  }

  /** These conditions leave one plan, and it is the one that the classifier gives. */
  lemma PlanFitsExactly(t: Tables, files: set<Path>, failClosed: bool, plan: Plan)
    ensures PlanFits(t, files, failClosed, plan) <==> plan == PlanOf(t, files, failClosed)
  {
    var given := PlanOf(t, files, failClosed);
    PlanOfFits(t, files, failClosed);
    if PlanFits(t, files, failClosed, plan) {
      ModeIsUnique(t, files, failClosed, plan.mode, given.mode);
      hide PlanOf, Touches, ModeFits, Ranked;
      forall w ensures w in plan.required <==> w in given.required {
        match w
        case Dashboard =>
        case OfflineBundle =>
        case Refrigeration =>
        case TelegramGateway =>
        case SupplyChain =>
        case EdgeImage =>
        case AcquisitionScale =>
        case Rs485Tools =>
      }
      RankedIsUnique(plan.required, given.required);
    }
    hide PlanOf, PlanFits;
  }

  lemma {:induction false} EdgeImageOnly(t: Tables, p: Path, plan: Plan)
    requires PlanFits(t, {p}, false, plan)
    requires t.edgeImage(p) && !t.offline(p) && !t.refrigeration(p) && !t.shared(p)
    requires !t.telegram(p) && !t.supplyChain(p) && !t.scale(p) && !t.tools(p)
    requires forall i :: 0 <= i < |t.domains| ==> !t.domains[i].applies(p)
    ensures plan == Plan(NoDashboard, false, false, [EdgeImage])
  {
    assert p in {p};
    assert plan.mode == NoDashboard;
    forall w ensures w in plan.required <==> w in [EdgeImage] {
      match w
      case Dashboard =>
      case OfflineBundle =>
      case Refrigeration =>
      case TelegramGateway =>
      case SupplyChain =>
      case EdgeImage =>
      case AcquisitionScale =>
      case Rs485Tools =>
    }
    RankedIsUnique(plan.required, [EdgeImage]);
  }

  lemma ModeIsUnique(t: Tables, files: set<Path>, failClosed: bool, a: Mode, b: Mode)
    requires ModeFits(t, files, failClosed, a) && ModeFits(t, files, failClosed, b)
    ensures a == b
  {
    hide Touches;
  }

  /** What each field of the result says about the files. */
  ghost predicate ResultFits(t: Tables, files: set<Path>, r: Result) {
    var allState := files != {} && forall p :: p in files ==> p in t.state;
    var allDocs := files != {} && forall p :: p in files ==> t.isDocs(p);
    && r.files == files
    && (r.stateOnly <==> allState)
    && (r.docsOnly <==> allDocs && !allState)
    && (r.needsFullQuality <==> !allState)
    && (forall p :: p in r.unknown <==>
      p in files && !allState && !allDocs && p !in t.state && !t.isDocs(p)
        && forall i :: 0 <= i < |t.rules| ==> !t.rules[i].applies(p))
    && (r.failClosed <==> files == {} || r.unknown != {})
    && if allState then r.plan == Plan(NoDashboard, false, false, []) else PlanFits(t, files, r.failClosed, r.plan)
  }

  lemma ResultFitsExactly(t: Tables, files: set<Path>)
    ensures ResultFits(t, files, Classification(t, files))
  {
    PlanOfFits(t, files, Classification(t, files).failClosed);
    hide PlanFits, PlanOf, ClassesFor;
    assert files <= t.state <==> forall p :: p in files ==> p in t.state;
    var unknown := Unknown(t, files);
    forall p ensures p in unknown <==>
      p in files && p !in t.state && !t.isDocs(p) && forall i :: 0 <= i < |t.rules| ==> !t.rules[i].applies(p)
    {}
  }

  // ---- how the classifier computes it ----

  method VerificationForPaths(t: Tables, files: set<Path>, stateOnly: bool, failClosed: bool) returns (plan: Plan)
    ensures plan == if stateOnly then NO_PLAN else PlanOf(t, files, failClosed)
    ensures if stateOnly then plan == Plan(NoDashboard, false, false, []) else PlanFits(t, files, failClosed, plan)
  {
    PlanFitsExactly(t, files, failClosed, PlanOf(t, files, failClosed));
    hide PlanFits;
    if stateOnly { return NO_PLAN; }
    var offline := failClosed || Any(files, t.offline);
    var refrigeration := failClosed || Any(files, t.refrigeration);
    var shared := failClosed || Any(files, t.shared);
    var tests := [];
    for i := 0 to |t.domains|
      invariant tests == FocusedTests(t.domains[..i], files)
    {
      assert t.domains[..i + 1][..i] == t.domains[..i];
      if Any(files, t.domains[i].applies) { tests := tests + [t.domains[i].test]; }
    }
    assert t.domains[..|t.domains|] == t.domains;
    var mode := NoDashboard;
    if shared || |tests| > 1 {
      mode := Full;
    } else if |tests| == 1 {
      mode := Focused(tests[0]);
    }
    var required := RequiredWorkflows(t, files, mode, offline, refrigeration);
    hide FocusedTests, Any, Select;
    assert mode == ModeOf(t, files, failClosed);
    SelectDependsOnMembers(ORDER, Chosen(t, files, mode, offline, refrigeration), w => Needs(t, files, failClosed, w));
    plan := Plan(mode, offline, refrigeration, required);
  }

  function Chosen(t: Tables, files: set<Path>, mode: Mode, offline: bool, refrigeration: bool): Workflow -> bool {
    (w: Workflow) => match w
      case Dashboard => mode != NoDashboard
      case OfflineBundle => offline
      case Refrigeration => refrigeration
      case TelegramGateway => Any(files, t.telegram)
      case SupplyChain => Any(files, t.supplyChain)
      case EdgeImage => Any(files, t.edgeImage)
      case AcquisitionScale => Any(files, t.scale)
      case Rs485Tools => Any(files, t.tools)
  }

  function Only(c: bool, w: Workflow): seq<Workflow> { if c then [w] else [] }

  method RequiredWorkflows(t: Tables, files: set<Path>, mode: Mode, offline: bool, refrigeration: bool)
    returns (required: seq<Workflow>)
    ensures required == Select(ORDER, Chosen(t, files, mode, offline, refrigeration))
  {
    ghost var chosen := Chosen(t, files, mode, offline, refrigeration);
    SelectAll(chosen);
    required := Only(mode != NoDashboard, Dashboard);
    required := required + Only(offline, OfflineBundle);
    required := required + Only(refrigeration, Refrigeration);
    required := required + Only(Any(files, t.telegram), TelegramGateway);
    required := required + Only(Any(files, t.supplyChain), SupplyChain);
    required := required + Only(Any(files, t.edgeImage), EdgeImage);
    required := required + Only(Any(files, t.scale), AcquisitionScale);
    required := required + Only(Any(files, t.tools), Rs485Tools);
    hide Only, Any, Select;
  }

  lemma SelectStep(order: seq<Workflow>, w: Workflow, chosen: Workflow -> bool)
    ensures Select(order + [w], chosen) == Select(order, chosen) + Only(chosen(w), w)
  {
    assert (order + [w])[..|order|] == order;
  }

  lemma SelectAll(chosen: Workflow -> bool)
    ensures Select(ORDER, chosen) ==
              Only(chosen(Dashboard), Dashboard) + Only(chosen(OfflineBundle), OfflineBundle)
              + Only(chosen(Refrigeration), Refrigeration) + Only(chosen(TelegramGateway), TelegramGateway)
              + Only(chosen(SupplyChain), SupplyChain) + Only(chosen(EdgeImage), EdgeImage)
              + Only(chosen(AcquisitionScale), AcquisitionScale) + Only(chosen(Rs485Tools), Rs485Tools)
  {
    assert Select([], chosen) == [];
    hide Select, Only;
    var one := [Dashboard];
    var two := one + [OfflineBundle];
    var three := two + [Refrigeration];
    var four := three + [TelegramGateway];
    var five := four + [SupplyChain];
    var six := five + [EdgeImage];
    var seven := six + [AcquisitionScale];
    SelectStep([], Dashboard, chosen);
    SelectStep(one, OfflineBundle, chosen);
    SelectStep(two, Refrigeration, chosen);
    SelectStep(three, TelegramGateway, chosen);
    SelectStep(four, SupplyChain, chosen);
    SelectStep(five, EdgeImage, chosen);
    SelectStep(six, AcquisitionScale, chosen);
    SelectStep(seven, Rs485Tools, chosen);
    assert [] + [Dashboard] == one && seven + [Rs485Tools] == ORDER;
    assert [] + Only(chosen(Dashboard), Dashboard) == Only(chosen(Dashboard), Dashboard);
  }

  lemma EveryWorkflowIsListed()
    ensures forall w :: w in ORDER
  {
    forall w ensures w in ORDER {
      match w
      case Dashboard => assert ORDER[0] == w;
      case OfflineBundle => assert ORDER[1] == w;
      case Refrigeration => assert ORDER[2] == w;
      case TelegramGateway => assert ORDER[3] == w;
      case SupplyChain => assert ORDER[4] == w;
      case EdgeImage => assert ORDER[5] == w;
      case AcquisitionScale => assert ORDER[6] == w;
      case Rs485Tools => assert ORDER[7] == w;
    }
  }

  /** The rules of one path, in any order the same. */
  method ClassifyPath(t: Tables, p: Path) returns (classes: set<Class>, known: bool)
    ensures classes == ClassesOf(t.rules, p) && known == Known(t, p)
  {
    classes, known := {}, false;
    for i := 0 to |t.rules|
      invariant classes == ClassesOf(t.rules[..i], p) && known == Matched(t.rules[..i], p)
    {
      assert t.rules[..i + 1][..i] == t.rules[..i] && t.rules[..i + 1] == t.rules[..i] + [t.rules[i]];
      if t.rules[i].applies(p) { classes, known := classes + t.rules[i].classes, true; }
    }
    assert t.rules[..|t.rules|] == t.rules;
    if t.isDocs(p) { known := true; }
    if p in t.state { known := true; }
  }

  method Classify(t: Tables, files: set<Path>) returns (r: Result)
    ensures r == Classification(t, files)
    ensures ResultFits(t, files, r)
  {
    ResultFitsExactly(t, files);
    hide ResultFits;
    if files == {} {
      var plan := VerificationForPaths(t, {}, false, true);
      return Result({}, {CrossSurfaceOrUnknown}, false, false, true, true, {}, plan);
    }
    if files <= t.state {
      var plan := VerificationForPaths(t, files, true, false);
      return Result(files, {StateOnly}, true, false, false, false, {}, plan);
    }
    if forall p | p in files :: t.isDocs(p) {
      var plan := VerificationForPaths(t, files, false, false);
      return Result(files, {DocsOnly}, false, true, true, false, {}, plan);
    }
    r := ClassifyGeneral(t, files);
  }

  lemma NothingCollected(t: Tables)
    ensures AllClasses(t, {}) == {} && Unknown(t, {}) == {}
  {
  }

  lemma OneMoreFile(t: Tables, files: set<Path>, p: Path)
    ensures AllClasses(t, files + {p}) == AllClasses(t, files) + ClassesOf(t.rules, p)
    ensures Unknown(t, files + {p}) == Unknown(t, files) + if Known(t, p) then {} else {p}
  {
  }

  /** The loop over the files. */
  method CollectClasses(t: Tables, files: set<Path>) returns (classes: set<Class>, unknown: set<Path>)
    ensures classes == AllClasses(t, files) && unknown == Unknown(t, files)
  {
    classes, unknown := {}, {};
    var todo := files;
    hide *;
    NothingCollected(t);
    assert files - todo == {};
    while todo != {}
      invariant todo <= files
      invariant classes == AllClasses(t, files - todo) && unknown == Unknown(t, files - todo)
      decreases |todo|
    {
      var p :| p in todo;
      var more, known := ClassifyPath(t, p);
      assert files - (todo - {p}) == files - todo + {p};
      OneMoreFile(t, files - todo, p);
      todo := todo - {p};
      classes := classes + more;
      if !known { unknown := unknown + {p}; }
    }
    assert files - todo == files;
  }

  method ClassifyGeneral(t: Tables, files: set<Path>) returns (r: Result)
    ensures r == GeneralResult(t, files)
  {
    var classes, unknown := CollectClasses(t, files);
    hide AllClasses, Unknown, PlanOf;
    var found := classes;
    if unknown != {} { classes := classes + {CrossSurfaceOrUnknown}; }
    assert classes - {CrossSurfaceOrUnknown} == found - {CrossSurfaceOrUnknown};
    if |classes - {CrossSurfaceOrUnknown}| > 1 { classes := classes + {CrossSurfaceOrUnknown}; }
    assert (if classes == {} then {CrossSurfaceOrUnknown} else classes) == ClassesFor(t, files);
    var plan := VerificationForPaths(t, files, false, unknown != {});
    if classes == {} { classes := {CrossSurfaceOrUnknown}; }
    r := Result(files, classes, false, false, true, unknown != {}, unknown, plan);
  }

  // ---- the plan is a join ----

  function JoinMode(a: Mode, b: Mode): Mode {
    if a == NoDashboard then b else if b == NoDashboard || a == b then a else Full
  }

  function Join(a: Plan, b: Plan): Plan {
    Plan(
      JoinMode(a.mode, b.mode), a.offline || b.offline, a.refrigeration || b.refrigeration,
      Select(ORDER, w => w in a.required || w in b.required))
  }

  predicate DistinctTests(domains: seq<Domain>) {
    forall i, j :: 0 <= i < j < |domains| ==> domains[i].test != domains[j].test
  }

  /** No verification table covers the path. */
  predicate Uncovered(t: Tables, p: Path) {
    && !t.offline(p) && !t.refrigeration(p) && !t.shared(p)
      && (forall i :: 0 <= i < |t.domains| ==> !t.domains[i].applies(p))
    && !t.telegram(p) && !t.supplyChain(p) && !t.edgeImage(p) && !t.scale(p) && !t.tools(p)
  }

  /** What the tables owe: state files need no verification, and a test selection names
      its domain. */
  predicate WellFormed(t: Tables) {
    (forall p :: p in t.state ==> Uncovered(t, p)) && DistinctTests(t.domains)
  }

  lemma {:induction false} SelectExactly(order: seq<Workflow>, chosen: Workflow -> bool, w: Workflow)
    ensures w in Select(order, chosen) <==> w in order && chosen(w)
    decreases |order|
  {
    if order != [] {
      var init, last := order[..|order| - 1], order[|order| - 1];
      SelectExactly(init, chosen, w);
      assert order == init + [last];
    }
  }

  lemma {:induction false} SelectDependsOnMembers(order: seq<Workflow>, a: Workflow -> bool, b: Workflow -> bool)
    requires forall w :: a(w) == b(w)
    ensures Select(order, a) == Select(order, b)
    decreases |order|
  {
    if order != [] { SelectDependsOnMembers(order[..|order| - 1], a, b); }
  }

  lemma AnyJoins(p: set<Path>, q: set<Path>, applies: Path -> bool)
    ensures Any(p + q, applies) == (Any(p, applies) || Any(q, applies))
  {
    if x :| x in p && applies(x) { assert x in p + q; }
    if x :| x in q && applies(x) { assert x in p + q; }
  }

  lemma {:induction false} TestsComeFromDomains(domains: seq<Domain>, files: set<Path>)
    ensures forall test :: test in FocusedTests(domains, files) ==>
        exists i :: 0 <= i < |domains| && domains[i].test == test
    decreases |domains|
  {
    if domains != [] {
      var init, last := domains[..|domains| - 1], domains[|domains| - 1];
      TestsComeFromDomains(init, files);
      forall test | test in FocusedTests(domains, files)
        ensures exists i :: 0 <= i < |domains| && domains[i].test == test
      {
        if test in FocusedTests(init, files) {
          var i :| 0 <= i < |init| && init[i].test == test;
          assert domains[i].test == test;
        } else {
          assert domains[|domains| - 1].test == test;
        }
      }
    }
  }

  /** How the focused domains of a union compare with those of its parts. */
  ghost predicate Merges(a: seq<string>, b: seq<string>, c: seq<string>) {
    && (a == [] ==> c == b) && (b == [] ==> c == a) && (a == b ==> c == a)
    && |a| <= |c| && |b| <= |c|
    && (a != [] && b != [] && a != b ==> |c| > 1)
  }

  lemma {:induction false} FocusedTestsMerge(domains: seq<Domain>, p: set<Path>, q: set<Path>)
    requires DistinctTests(domains)
    ensures Merges(FocusedTests(domains, p), FocusedTests(domains, q), FocusedTests(domains, p + q))
    decreases |domains|
  {
    if domains != [] {
      var init, last := domains[..|domains| - 1], domains[|domains| - 1];
      FocusedTestsMerge(init, p, q);
      AnyJoins(p, q, last.applies);
      TestsComeFromDomains(init, p);
      TestsComeFromDomains(init, q);
      MergesGrow(FocusedTests(init, p), FocusedTests(init, q), FocusedTests(init, p + q), last.test,
                 Any(p, last.applies), Any(q, last.applies));
    }
  }

  lemma MergesGrow(a: seq<string>, b: seq<string>, c: seq<string>, test: string, inA: bool, inB: bool)
    requires Merges(a, b, c) && test !in a && test !in b
    ensures Merges(if inA then a + [test] else a, if inB then b + [test] else b, if inA || inB then c + [test] else c)
  {
    if inA && !inB { assert (a + [test])[|a|] == test; assert a + [test] != b; }
    if inB && !inA { assert (b + [test])[|b|] == test; assert b + [test] != a; }
    if inA && inB { assert a + [test] == b + [test] ==> a == (a + [test])[..|a|] == (b + [test])[..|b|] == b; }
  }

  lemma ModeJoins(t: Tables, p: set<Path>, q: set<Path>, f: bool, g: bool)
    requires DistinctTests(t.domains)
    ensures ModeOf(t, p + q, f || g) == JoinMode(ModeOf(t, p, f), ModeOf(t, q, g))
  {
    FocusedTestsMerge(t.domains, p, q);
    AnyJoins(p, q, t.shared);
    hide Any, FocusedTests;
  }

  lemma NeedsJoin(t: Tables, p: set<Path>, q: set<Path>, f: bool, g: bool, w: Workflow)
    requires DistinctTests(t.domains)
    ensures Needs(t, p + q, f || g, w) == (Needs(t, p, f, w) || Needs(t, q, g, w))
  {
    ModeJoins(t, p, q, f, g);
    AnyJoins(p, q, t.offline);
    AnyJoins(p, q, t.refrigeration);
    AnyJoins(p, q, t.telegram);
    AnyJoins(p, q, t.supplyChain);
    AnyJoins(p, q, t.edgeImage);
    AnyJoins(p, q, t.scale);
    AnyJoins(p, q, t.tools);
    hide Any, ModeOf;
  }

  lemma PlanJoins(t: Tables, p: set<Path>, q: set<Path>, f: bool, g: bool)
    requires DistinctTests(t.domains)
    ensures PlanOf(t, p + q, f || g) == Join(PlanOf(t, p, f), PlanOf(t, q, g))
  {
    ModeJoins(t, p, q, f, g);
    var a, b := PlanOf(t, p, f).required, PlanOf(t, q, g).required;
    forall w
      ensures Needs(t, p + q, f || g, w) == (Needs(t, p, f, w) || Needs(t, q, g, w))
      ensures w in a <==> w in ORDER && Needs(t, p, f, w)
      ensures w in b <==> w in ORDER && Needs(t, q, g, w)
    {
      NeedsJoin(t, p, q, f, g, w);
      SelectExactly(ORDER, v => Needs(t, p, f, v), w);
      SelectExactly(ORDER, v => Needs(t, q, g, v), w);
    }
    hide Needs, ModeOf, Select;
    EveryWorkflowIsListed();
    SelectDependsOnMembers(ORDER, w => Needs(t, p + q, f || g, w), w => w in a || w in b);
  }

  lemma {:induction false} UncoveredNeedNothing(t: Tables, files: set<Path>)
    requires forall p :: p in files ==> Uncovered(t, p)
    ensures PlanOf(t, files, false) == NO_PLAN
  {
    NothingFocused(t.domains, files);
    SelectDependsOnMembers(ORDER, w => Needs(t, files, false, w), w => false);
    SelectAll(w => false);
  }

  lemma {:induction false} NothingFocused(domains: seq<Domain>, files: set<Path>)
    requires forall p, i :: p in files && 0 <= i < |domains| ==> !domains[i].applies(p)
    ensures FocusedTests(domains, files) == []
    decreases |domains|
  {
    if domains != [] { NothingFocused(domains[..|domains| - 1], files); }
  }

  /** No early exit shows in the plan. */
  lemma ExitsDoNotShow(t: Tables, files: set<Path>)
    requires WellFormed(t) && files != {}
    ensures var r := Classification(t, files);
            && r.failClosed == (Unknown(t, files) != {})
            && r.plan == PlanOf(t, files, r.failClosed)
            && r.needsFullQuality == !(files <= t.state)
  {
    if files <= t.state { UncoveredNeedNothing(t, files); }
  }

  /** The result for a change is the join of the results for any two parts of it. */
  lemma ClassificationJoins(t: Tables, p: set<Path>, q: set<Path>)
    requires WellFormed(t) && p != {} && q != {}
    ensures var (a, b, c) := (Classification(t, p), Classification(t, q), Classification(t, p + q));
            && c.plan == Join(a.plan, b.plan)
            && c.failClosed == (a.failClosed || b.failClosed)
            && c.needsFullQuality == (a.needsFullQuality || b.needsFullQuality)
  {
    ExitsDoNotShow(t, p);
    ExitsDoNotShow(t, q);
    ExitsDoNotShow(t, p + q);
    assert Unknown(t, p + q) == Unknown(t, p) + Unknown(t, q);
    PlanJoins(t, p, q, Classification(t, p).failClosed, Classification(t, q).failClosed);
  }

  /** Adding files never makes the verification lighter. */
  ghost predicate Covers(a: Plan, b: Plan) {
    && (b.mode == NoDashboard || a.mode == b.mode || a.mode == Full)
    && (b.offline ==> a.offline) && (b.refrigeration ==> a.refrigeration)
    && forall w :: w in b.required ==> w in a.required
  }

  lemma MoreFilesNeverLessVerification(t: Tables, p: set<Path>, q: set<Path>)
    requires WellFormed(t) && p != {} && p <= q
    ensures var (a, c) := (Classification(t, p), Classification(t, q));
            Covers(c.plan, a.plan) && (a.failClosed ==> c.failClosed) && (a.needsFullQuality ==> c.needsFullQuality)
  {
    ClassificationJoins(t, p, q);
    assert p + q == q;
    var a, b := Classification(t, p).plan, Classification(t, q).plan;
    hide Classification;
    forall w ensures w in Join(a, b).required <==> w in a.required || w in b.required {
      EveryWorkflowIsListed();
      SelectExactly(ORDER, v => v in a.required || v in b.required, w);
    }
    hide Select;
  }

  /** One unknown path is enough for the broadest plan. */
  lemma UnknownPathFailsClosed(t: Tables, files: set<Path>, p: Path)
    requires WellFormed(t) && p in files && !Known(t, p)
    ensures var r := Classification(t, files);
            && r.failClosed && r.needsFullQuality && p in r.unknown
            && r.plan.mode == Full && r.plan.offline && r.plan.refrigeration
            && Dashboard in r.plan.required && OfflineBundle in r.plan.required && Refrigeration in r.plan.required
  {
    ExitsDoNotShow(t, files);
    assert p in Unknown(t, files);
    SelectExactly(ORDER, w => Needs(t, files, true, w), Dashboard);
    SelectExactly(ORDER, w => Needs(t, files, true, w), OfflineBundle);
    SelectExactly(ORDER, w => Needs(t, files, true, w), Refrigeration);
  }

  /** The plan of a change, file by file. */
  ghost predicate IsJoinOfFiles(t: Tables, plan: Plan, files: set<Path>)
    decreases |files|
  {
    if files == {} then plan == NO_PLAN
    else forall p :: p in files ==>
      exists rest :: IsJoinOfFiles(t, rest, files - {p}) && plan == Join(Classification(t, {p}).plan, rest)
  }

  lemma {:induction false} PlanIsJoinOfFiles(t: Tables, files: set<Path>)
    requires WellFormed(t)
    ensures IsJoinOfFiles(t, if files == {} then NO_PLAN else Classification(t, files).plan, files)
    decreases |files|
  {
    forall p | p in files
      ensures exists rest ::
                && IsJoinOfFiles(t, rest, files - {p})
                && Classification(t, files).plan == Join(Classification(t, {p}).plan, rest)
    {
      PlanIsJoinOfFiles(t, files - {p});
      var rest := if files == {p} then NO_PLAN else Classification(t, files - {p}).plan;
      if files != {p} {
        ClassificationJoins(t, {p}, files - {p});
        assert {p} + (files - {p}) == files;
      } else {
        assert files - {p} == {};
        NoPlanIsNeutral(t, files);
      }
      assert IsJoinOfFiles(t, rest, files - {p});
    }
  }

  lemma NoPlanIsNeutral(t: Tables, files: set<Path>)
    requires WellFormed(t) && files != {}
    ensures Join(Classification(t, files).plan, NO_PLAN) == Classification(t, files).plan
  {
    ExitsDoNotShow(t, files);
    SelectAgain(w => Needs(t, files, Classification(t, files).failClosed, w));
    hide Select, Needs;
  }

  lemma SelectAgain(chosen: Workflow -> bool)
    ensures var required := Select(ORDER, chosen);
            Select(ORDER, w => w in required || w in NO_PLAN.required) == required
  {
    var required := Select(ORDER, chosen);
    forall w ensures w in required <==> chosen(w) {
      EveryWorkflowIsListed();
      SelectExactly(ORDER, chosen, w);
    }
    hide Select;
    SelectDependsOnMembers(ORDER, w => w in required || w in NO_PLAN.required, chosen);
  }

  /** The classes, unlike the plan, are not a union: state files and documents together
      are reported as crossing surfaces. */
  lemma ClassesDoNotJoin(t: Tables, s: Path, d: Path)
    requires s in t.state && !t.isDocs(s) && t.isDocs(d) && d !in t.state
    requires !Matched(t.rules, s) && !Matched(t.rules, d)
    ensures Classification(t, {s}).classes == {StateOnly} && Classification(t, {d}).classes == {DocsOnly}
    ensures Classification(t, {s, d}).classes == {CrossSurfaceOrUnknown} && !Classification(t, {s, d}).failClosed
  {
    UnmatchedHasNoClass(t.rules, s);
    UnmatchedHasNoClass(t.rules, d);
    assert d in {s, d} && s in {s, d};
    assert AllClasses(t, {s, d}) == {};
    assert Unknown(t, {s, d}) == {};
  }

  /** Some rule gives the path this class. */
  predicate GivenClass(rules: seq<Rule>, p: Path, c: Class) {
    exists i | 0 <= i < |rules| :: rules[i].applies(p) && c in rules[i].classes
  }

  lemma {:induction false} ClassesOfExactly(rules: seq<Rule>, p: Path, c: Class)
    ensures c in ClassesOf(rules, p) <==> GivenClass(rules, p, c)
    decreases |rules|
  {
    if rules != [] {
      var init, last := rules[..|rules| - 1], rules[|rules| - 1];
      ClassesOfExactly(init, p, c);
      if GivenClass(init, p, c) {
        var i :| 0 <= i < |init| && init[i].applies(p) && c in init[i].classes;
        assert rules[i].applies(p) && c in rules[i].classes;
      }
    }
  }

  predicate TwoClasses(classes: set<Class>) {
    exists c, d :: c in classes && d in classes && c != d && c != CrossSurfaceOrUnknown && d != CrossSurfaceOrUnknown
  }

  lemma MoreThanOne(classes: set<Class>)
    ensures |classes - {CrossSurfaceOrUnknown}| > 1 <==> TwoClasses(classes)
  {
    var proper := classes - {CrossSurfaceOrUnknown};
    if |proper| > 1 {
      var c :| c in proper;
      assert |proper - {c}| > 0;
      var d :| d in proper - {c};
      assert c in classes && d in classes && c != d;
    }
    if c, d :| c in classes && d in classes && c != d && c != CrossSurfaceOrUnknown && d != CrossSurfaceOrUnknown {
      assert {c, d} <= proper && |{c, d}| == 2;
      SubsetIsSmaller({c, d}, proper);
    }
  }

  lemma SubsetIsSmaller<T>(a: set<T>, b: set<T>)
    requires a <= b
    ensures |a| <= |b|
  {
    assert b == a + (b - a);
  }

  /** Some rule gives some file this class. */
  ghost predicate Given(t: Tables, files: set<Path>, c: Class) { exists p :: p in files && GivenClass(t.rules, p, c) }

  ghost predicate TwoMeet(t: Tables, files: set<Path>) {
    exists c, d :: Given(t, files, c) && Given(t, files, d) && c != d && c != CrossSurfaceOrUnknown
      && d != CrossSurfaceOrUnknown
  }

  lemma GivenExactly(t: Tables, files: set<Path>, c: Class)
    ensures c in AllClasses(t, files) <==> Given(t, files, c)
  {
    forall p ensures c in ClassesOf(t.rules, p) <==> GivenClass(t.rules, p, c) { ClassesOfExactly(t.rules, p, c); }
    hide GivenClass, ClassesOf;
  }

  lemma CrossesExactly(t: Tables, files: set<Path>)
    ensures Crosses(t, files) <==> (exists p :: p in files && !Known(t, p)) || TwoMeet(t, files)
  {
    MoreThanOne(AllClasses(t, files));
    forall c ensures c in AllClasses(t, files) <==> Given(t, files, c) { GivenExactly(t, files, c); }
    assert Unknown(t, files) != {} <==> exists p :: p in files && !Known(t, p) by {
      hide Known;
      if p :| p in files && !Known(t, p) { assert p in Unknown(t, files); }
    }
    hide Given, AllClasses, Known, Unknown;
  }

  /** Past the early exits a change has exactly the classes that rules give its files, and
      crosses surfaces exactly when a path is unknown, two classes meet or none applies. */
  lemma ClassesExactly(t: Tables, files: set<Path>, c: Class)
    requires files != {} && !(files <= t.state) && exists p :: p in files && !t.isDocs(p)
    requires !Given(t, files, CrossSurfaceOrUnknown)
    ensures var classes := Classification(t, files).classes;
            if c != CrossSurfaceOrUnknown then c in classes <==> Given(t, files, c)
            else c in classes <==>
              (exists p :: p in files && !Known(t, p)) || TwoMeet(t, files) || forall d :: !Given(t, files, d)
  {
    assert Classification(t, files).classes == ClassesFor(t, files);
    hide *;
    CrossesExactly(t, files);
    forall d ensures d in AllClasses(t, files) <==> Given(t, files, d) { GivenExactly(t, files, d); }
    InClassesFor(t, files, c);
  }

  lemma InClassesFor(t: Tables, files: set<Path>, c: Class)
    requires CrossSurfaceOrUnknown !in AllClasses(t, files)
    ensures c in ClassesFor(t, files) <==>
              if c != CrossSurfaceOrUnknown then c in AllClasses(t, files)
              else Crosses(t, files) || AllClasses(t, files) == {}
  {
    hide AllClasses, Crosses;
  }

  // ---- when the classes of the parts are the classes of the whole ----

  datatype Exit = NoFiles | StateFiles | Documents | PastTheExits

  function ExitOf(t: Tables, files: set<Path>): Exit {
    if files == {} then NoFiles
    else if files <= t.state then StateFiles
    else if forall p | p in files :: t.isDocs(p) then Documents
    else PastTheExits
  }

  /** Rules give classes of their own, not those of the exits. */
  predicate ProperRules(rules: seq<Rule>) {
    forall i :: 0 <= i < |rules| ==> rules[i].classes !! {StateOnly, DocsOnly, CrossSurfaceOrUnknown}
  }

  ghost predicate SomeUnknown(t: Tables, files: set<Path>) { exists p :: p in files && !Known(t, p) }

  ghost predicate SameClasses(t: Tables, p: set<Path>, q: set<Path>) { forall c :: Given(t, p, c) <==> Given(t, q, c) }

  ghost predicate ReportsCrossing(t: Tables, files: set<Path>) {
    || files == {}
    || (ExitOf(t, files) == PastTheExits
      && (SomeUnknown(t, files) || TwoMeet(t, files) || forall c :: !Given(t, files, c)))
  }

  /** Both parts leave by the same exit and, past the exits, a path is unknown, two classes
      meet within one part, or the parts have the same classes. */
  ghost predicate PartsTellTheClasses(t: Tables, p: set<Path>, q: set<Path>) {
    if p == {} || q == {} then ReportsCrossing(t, p + q)
    else
      && ExitOf(t, p) == ExitOf(t, q)
      && (ExitOf(t, p) == PastTheExits ==>
            SomeUnknown(t, p + q) || TwoMeet(t, p) || TwoMeet(t, q) || SameClasses(t, p, q))
  }

  /** The classes past the exits, from those that the rules give. */
  function Reported(given: set<Class>, unknown: bool): set<Class> {
    given + if unknown || |given| > 1 || given == {} then {CrossSurfaceOrUnknown} else {}
  }

  lemma TwoInUnion(a: set<Class>, b: set<Class>)
    ensures |a + b| > 1 <==> |a| > 1 || |b| > 1 || (a != {} && b != {} && a != b)
  {
    SubsetIsSmaller(a, a + b);
    SubsetIsSmaller(b, a + b);
    if a == b || b == {} {
      assert a + b == a;
    } else if a == {} {
      assert a + b == b;
    } else if |a| <= 1 && |b| <= 1 {
      var x, y :| x in a && y in b;
      SingleIs(a, x);
      SingleIs(b, y);
      assert x != y && {x, y} <= a + b;
      SubsetIsSmaller({x, y}, a + b);
    }
  }

  lemma SingleIs<T>(a: set<T>, x: T)
    requires x in a && |a| <= 1
    ensures a == {x}
  {
    assert |a - {x}| == 0;
  }

  predicate Crossing(given: set<Class>, unknown: bool) { unknown || |given| > 1 || given == {} }

  lemma ReportedUnion(a: set<Class>, b: set<Class>, u: bool, v: bool)
    requires CrossSurfaceOrUnknown !in a + b
    ensures Reported(a + b, u || v) == Reported(a, u) + Reported(b, v) <==> u || v || |a| > 1 || |b| > 1 || a == b
  {
    CrossingJoins(a, b, u, v);
    CrossingIsReported(a, u);
    CrossingIsReported(b, v);
    CrossingIsReported(a + b, u || v);
    SameButForCrossing(Reported(a + b, u || v), Reported(a, u) + Reported(b, v));
    hide Reported, Crossing;
  }

  lemma CrossingJoins(a: set<Class>, b: set<Class>, u: bool, v: bool)
    ensures (Crossing(a + b, u || v) <==> Crossing(a, u) || Crossing(b, v)) <==> u || v || |a| > 1 || |b| > 1 || a == b
  {
    TwoInUnion(a, b);
    assert a + b == {} <==> a == {} && b == {};
  }

  lemma SameButForCrossing(whole: set<Class>, parts: set<Class>)
    requires forall c :: c != CrossSurfaceOrUnknown ==> (c in whole <==> c in parts)
    ensures whole == parts <==> (CrossSurfaceOrUnknown in whole <==> CrossSurfaceOrUnknown in parts)
  {
    if CrossSurfaceOrUnknown in whole <==> CrossSurfaceOrUnknown in parts {
      assert forall c :: c in whole <==> c in parts;
    }
  }

  lemma CrossingIsReported(given: set<Class>, unknown: bool)
    requires CrossSurfaceOrUnknown !in given
    ensures forall c :: c in Reported(given, unknown) <==>
        if c == CrossSurfaceOrUnknown then Crossing(given, unknown) else c in given
  {
  }

  lemma ProperClasses(t: Tables, files: set<Path>)
    requires ProperRules(t.rules)
    ensures AllClasses(t, files) !! {StateOnly, DocsOnly, CrossSurfaceOrUnknown}
  {
    forall c | c in AllClasses(t, files)
      ensures c !in {StateOnly, DocsOnly, CrossSurfaceOrUnknown}
    {
      GivenExactly(t, files, c);
    }
    hide AllClasses;
  }

  /** Past the exits the classes are reported from those given. */
  lemma PastTheExitsReports(t: Tables, files: set<Path>)
    requires ProperRules(t.rules) && ExitOf(t, files) == PastTheExits
    ensures Classification(t, files).classes == Reported(AllClasses(t, files), SomeUnknown(t, files))
    ensures |AllClasses(t, files)| > 1 <==> TwoMeet(t, files)
    ensures AllClasses(t, files) == {} <==> forall c :: !Given(t, files, c)
  {
    assert Classification(t, files).classes == ClassesFor(t, files);
    hide *;
    ProperClasses(t, files);
    GivenClasses(t, files);
    UnknownExactly(t, files);
    ReportedIs(t, files);
  }

  lemma ReportedIs(t: Tables, files: set<Path>)
    requires CrossSurfaceOrUnknown !in AllClasses(t, files)
    ensures ClassesFor(t, files) == Reported(AllClasses(t, files), Unknown(t, files) != {})
  {
    var given := AllClasses(t, files);
    assert given - {CrossSurfaceOrUnknown} == given;
    hide AllClasses, Unknown;
  }

  lemma UnknownExactly(t: Tables, files: set<Path>)
    ensures Unknown(t, files) != {} <==> SomeUnknown(t, files)
  {
    hide Known;
    if p :| p in files && !Known(t, p) { assert p in Unknown(t, files); }
  }

  lemma GivenClasses(t: Tables, files: set<Path>)
    requires CrossSurfaceOrUnknown !in AllClasses(t, files)
    ensures |AllClasses(t, files)| > 1 <==> TwoMeet(t, files)
    ensures AllClasses(t, files) == {} <==> forall c :: !Given(t, files, c)
  {
    var given := AllClasses(t, files);
    assert given - {CrossSurfaceOrUnknown} == given;
    MoreThanOne(given);
    forall c ensures c in given <==> Given(t, files, c) { GivenExactly(t, files, c); }
    hide AllClasses, Given;
  }

  lemma ClassesByExit(t: Tables, files: set<Path>)
    requires ProperRules(t.rules)
    ensures var classes := Classification(t, files).classes;
            match ExitOf(t, files)
            case NoFiles => classes == {CrossSurfaceOrUnknown}
            case StateFiles => classes == {StateOnly}
            case Documents => classes == {DocsOnly}
            case PastTheExits => StateOnly !in classes && DocsOnly !in classes
    ensures CrossSurfaceOrUnknown in Classification(t, files).classes <==> ReportsCrossing(t, files)
  {
    if ExitOf(t, files) == PastTheExits {
      PastTheExitsReports(t, files);
      ProperClasses(t, files);
      hide Classification, AllClasses, Given, SomeUnknown, TwoMeet;
    }
  }

  lemma ExitOfUnion(t: Tables, p: set<Path>, q: set<Path>)
    requires p != {} && q != {}
    ensures ExitOf(t, p) == ExitOf(t, q) ==> ExitOf(t, p + q) == ExitOf(t, p)
    ensures ExitOf(t, p + q) == StateFiles ==> ExitOf(t, p) == ExitOf(t, q) == StateFiles
    ensures ExitOf(t, p) == PastTheExits || ExitOf(t, q) == PastTheExits ==> ExitOf(t, p + q) == PastTheExits
  {
    assert forall x :: x in p || x in q <==> x in p + q;
  }

  /** The classes of a change are those of its parts put together exactly when the parts
      leave by the same exit and, past the exits, a path is unknown, two classes meet within
      one part, or both parts have the same classes. */
  lemma ClassesJoinExactly(t: Tables, p: set<Path>, q: set<Path>)
    requires ProperRules(t.rules)
    ensures Classification(t, p + q).classes == Classification(t, p).classes + Classification(t, q).classes <==>
        PartsTellTheClasses(t, p, q)
  {
    hide Classification, ReportsCrossing, SomeUnknown, TwoMeet, SameClasses, ProperRules;
    ClassesByExit(t, p);
    ClassesByExit(t, q);
    ClassesByExit(t, p + q);
    if p == {} || q == {} {
      assert p + q == p || p + q == q;
    } else {
      ExitOfUnion(t, p, q);
      hide ExitOf;
      if ExitOf(t, p) == ExitOf(t, q) == PastTheExits { GeneralPartsJoinExactly(t, p, q); }
    }
  }

  lemma GeneralPartsJoinExactly(t: Tables, p: set<Path>, q: set<Path>)
    requires ProperRules(t.rules) && ExitOf(t, p) == ExitOf(t, q) == ExitOf(t, p + q) == PastTheExits
    ensures Classification(t, p + q).classes == Classification(t, p).classes + Classification(t, q).classes <==>
              SomeUnknown(t, p + q) || TwoMeet(t, p) || TwoMeet(t, q) || SameClasses(t, p, q)
  {
    PastTheExitsReports(t, p);
    PastTheExitsReports(t, q);
    PastTheExitsReports(t, p + q);
    ProperClasses(t, p + q);
    GivenByParts(t, p, q);
    ReportedUnion(AllClasses(t, p), AllClasses(t, q), SomeUnknown(t, p), SomeUnknown(t, q));
    hide *;
  }

  lemma GivenByParts(t: Tables, p: set<Path>, q: set<Path>)
    ensures AllClasses(t, p + q) == AllClasses(t, p) + AllClasses(t, q)
    ensures SomeUnknown(t, p + q) <==> SomeUnknown(t, p) || SomeUnknown(t, q)
    ensures AllClasses(t, p) == AllClasses(t, q) <==> SameClasses(t, p, q)
  {
    forall c
      ensures c in AllClasses(t, p) <==> Given(t, p, c)
      ensures c in AllClasses(t, q) <==> Given(t, q, c)
      ensures c in AllClasses(t, p + q) <==> Given(t, p + q, c)
      ensures Given(t, p + q, c) <==> Given(t, p, c) || Given(t, q, c)
    {
      GivenExactly(t, p, c);
      GivenExactly(t, q, c);
      GivenExactly(t, p + q, c);
      hide GivenClass, AllClasses;
      if x :| x in p && GivenClass(t.rules, x, c) { assert x in p + q; }
      if x :| x in q && GivenClass(t.rules, x, c) { assert x in p + q; }
    }
    hide Known, AllClasses, Given;
    if x :| x in p && !Known(t, x) { assert x in p + q; }
    if x :| x in q && !Known(t, x) { assert x in p + q; }
  }

  lemma {:induction false} UnmatchedHasNoClass(rules: seq<Rule>, p: Path)
    requires !Matched(rules, p)
    ensures ClassesOf(rules, p) == {}
    decreases |rules|
  {
    if rules != [] {
      UnmatchedHasNoClass(rules[..|rules| - 1], p);
    }
  }
}
