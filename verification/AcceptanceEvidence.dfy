/**
  Hardware acceptance evidence: every capture reads counters before and after a window
  and appends one phase to a file, which is written only when the whole of it is valid.
 */
module AcceptanceEvidence {
  import opened Wrappers
  import opened SetSums

  type Outcomes = map<string, nat>

  /** The counters of the Device Agent that only ever grow. */
  datatype Metrics = Metrics(requests: nat, discovery: nat, configuration: nat, outcomes: Outcomes)

  datatype Error =
    | CounterDecreased | PhaseExists | WrongSource | NotEvidence | CallFailed | WriteFailed | BadWindow
    | WriteAttempted | ConfigurationMutated | NoPhase | WindowNotPositive | NegativeRequests
    | NegativeMemory | NoDiskSpace | NamesRepeat | WrongSchema | WrongClassification | PhasesMissing

  // ---- deltas ----

  /** `_delta`. */
  function Delta(after: nat, before: nat): Option<nat> {
    if after < before then None else Some(after - before)
  }

  function Count(m: Outcomes, key: string): nat { if key in m then m[key] else 0 }

  function CountIn(m: Outcomes): string -> nat { key => Count(m, key) }

  /** Growth per outcome, for every outcome named before or after. */
  function OutcomeDelta(before: Outcomes, after: Outcomes): Option<Outcomes> {
    if exists key | key in before.Keys + after.Keys :: Count(after, key) < Count(before, key) then None
    else Some(map key | key in before.Keys + after.Keys :: GrowthOf(before, after, key))
  }

  function GrowthOf(before: Outcomes, after: Outcomes, key: string): nat {
    if Count(after, key) < Count(before, key) then 0 else Count(after, key) - Count(before, key)
  }

  ghost function Total(m: Outcomes): nat { SetSum(m.Keys, CountIn(m)) }

  lemma {:induction false} SumsSubtract(keys: set<string>, before: Outcomes, after: Outcomes, delta: Outcomes)
    requires forall key :: key in keys ==> Count(after, key) == Count(before, key) + Count(delta, key)
    ensures SetSum(keys, CountIn(after)) == SetSum(keys, CountIn(before)) + SetSum(keys, CountIn(delta))
    decreases |keys|
  {
    if keys != {} {
      var x :| x in keys;
      var rest := keys - {x};
      assert rest + {x} == keys;
      SumsSubtract(rest, before, after, delta);
      SetSumAdd(rest, x, CountIn(before));
      SetSumAdd(rest, x, CountIn(after));
      SetSumAdd(rest, x, CountIn(delta));
    }
  }

  /** Outcomes that a snapshot does not name count for nothing. */
  lemma TotalOverMore(m: Outcomes, keys: set<string>)
    requires m.Keys <= keys
    ensures SetSum(keys, CountIn(m)) == Total(m)
  {
    assert m.Keys + (keys - m.Keys) == keys;
    SetSumIgnoresZeros(m.Keys, keys - m.Keys, CountIn(m));
  }

  /** The growth of the outcomes adds up to the growth of their total, also where new
      outcomes appear in between. */
  lemma OutcomeDeltaAddsUp(before: Outcomes, after: Outcomes)
    requires OutcomeDelta(before, after).Some?
    ensures Total(before) + Total(OutcomeDelta(before, after).value) == Total(after)
  {
    var delta, keys := OutcomeDelta(before, after).value, before.Keys + after.Keys;
    forall key | key in keys ensures Count(after, key) == Count(before, key) + Count(delta, key) {
      assert Count(after, key) >= Count(before, key);
    }
    SumsSubtract(keys, before, after, delta);
    TotalOverMore(before, keys);
    TotalOverMore(after, keys);
    assert delta.Keys == keys;
  }

  /** A delta is refused exactly when some outcome lost count, be it by disappearing. */
  lemma OutcomeDeltaExactly(before: Outcomes, after: Outcomes)
    ensures OutcomeDelta(before, after).None? <==> exists key :: key in before && Count(after, key) < before[key]
  {
    if key :| key in before.Keys + after.Keys && Count(after, key) < Count(before, key) {
      assert key in before && Count(after, key) < before[key];
    }
  }

  // ---- windows ----

  /** A capture reads the counters at two instants. */
  datatype Window = Window(from: nat, to: nat)

  predicate InOrder(windows: seq<Window>) {
    && (forall i :: 0 <= i < |windows| ==> windows[i].from <= windows[i].to)
    && forall i, j :: 0 <= i < j < |windows| ==> windows[i].to <= windows[j].from
  }

  ghost predicate OnlyGrows(counter: nat -> nat) { forall s, t :: s <= t ==> counter(s) <= counter(t) }

  function SumOfDeltas(counter: nat -> nat, windows: seq<Window>): int
    decreases |windows|
  {
    if windows == [] then 0
    else
      var last := windows[|windows| - 1];
      SumOfDeltas(counter, windows[..|windows| - 1]) + counter(last.to) - counter(last.from)
  }

  /** What a counter grew between the windows. */
  function SumOfGaps(counter: nat -> nat, windows: seq<Window>): int
    decreases |windows|
  {
    if |windows| <= 1 then 0
    else
      var (previous, last) := (windows[|windows| - 2], windows[|windows| - 1]);
      SumOfGaps(counter, windows[..|windows| - 1]) + counter(last.from) - counter(previous.to)
  }

  /** The deltas of a run of captures sum to the counter's overall growth less what it
      grew between them. */
  lemma {:induction false} DeltasTelescope(counter: nat -> nat, windows: seq<Window>)
    requires OnlyGrows(counter) && InOrder(windows) && windows != []
    ensures SumOfDeltas(counter, windows) + SumOfGaps(counter, windows)
        == counter(windows[|windows| - 1].to) - counter(windows[0].from)
    ensures SumOfGaps(counter, windows) >= 0
    decreases |windows|
  {
    var init := windows[..|windows| - 1];
    if init == [] {
      assert SumOfDeltas(counter, init) == 0;
    } else {
      DeltasTelescope(counter, init);
      assert init[|init| - 1] == windows[|windows| - 2] && init[0] == windows[0];
    }
  }

  predicate Abut(windows: seq<Window>) {
    forall i :: 0 < i < |windows| ==> windows[i].from == windows[i - 1].to
  }

  /** Windows that abut account for all of the growth. */
  lemma {:induction false} AbuttingDeltasAreTheGrowth(counter: nat -> nat, windows: seq<Window>)
    requires Abut(windows) && windows != []
    ensures SumOfDeltas(counter, windows) == counter(windows[|windows| - 1].to) - counter(windows[0].from)
    decreases |windows|
  {
    var init := windows[..|windows| - 1];
    if init == [] {
      assert SumOfDeltas(counter, init) == 0;
    } else {
      AbuttingDeltasAreTheGrowth(counter, init);
      assert init[|init| - 1] == windows[|windows| - 2] && init[0] == windows[0];
    }
  }

  // ---- the evidence file ----

  datatype Phase = Phase(name: string, window: real, requests: int, outcomes: Outcomes, memory: int, disk: int)

  datatype Evidence = Evidence(
    schema: int, classification: string, source: string,
    phases: seq<Phase>, discovery: int, configuration: int, writeAttempts: int)

  const SCHEMA_VERSION := 1
  const CLASSIFICATION := "hardware"

  const DEFAULT_PHASES: seq<string> := [
    "no-browser", "overview", "live-dashboard", "route-transitions",
    "multiple-browsers", "websocket-reconnect", "unavailable-endpoint", "mqtt-outbox-drain"
  ]

  function NewEvidence(source: string): Evidence { Evidence(SCHEMA_VERSION, CLASSIFICATION, source, [], 0, 0, 0) }

  function Names(phases: seq<Phase>): set<string> { set i | 0 <= i < |phases| :: phases[i].name }

  predicate UniqueNames(phases: seq<Phase>) {
    forall i, j :: 0 <= i < j < |phases| ==> phases[i].name != phases[j].name
  }

  function PhaseErrors(phase: Phase): seq<Error> {
    (if phase.window <= 0.0 then [WindowNotPositive] else [])
    + (if phase.requests < 0 then [NegativeRequests] else [])
    + (if phase.memory < 0 then [NegativeMemory] else [])
    + (if phase.disk <= 0 then [NoDiskSpace] else [])
  }

  predicate GoodPhase(phase: Phase) {
    phase.window > 0.0 && phase.requests >= 0 && phase.memory >= 0 && phase.disk > 0
  }

  /** A safe header and sound phases. */
  predicate GoodSoFar(e: Evidence, n: nat)
    requires n <= |e.phases|
  {
    && e.schema == SCHEMA_VERSION && e.classification == CLASSIFICATION
    && e.writeAttempts == 0 && e.configuration == 0 && e.phases != []
    && forall i :: 0 <= i < n ==> GoodPhase(e.phases[i])
  }

  predicate GoodEvidence(e: Evidence, complete: bool) {
    && GoodSoFar(e, |e.phases|) && UniqueNames(e.phases)
    && (complete ==> forall name :: name in DEFAULT_PHASES ==> name in Names(e.phases))
  }

  /** What each error says about the header and the first n phases. */
  predicate FaultSoFar(e: Evidence, n: nat, error: Error)
    requires n <= |e.phases|
  {
    match error
    case WrongSchema => e.schema != 1
    case WrongClassification => e.classification != "hardware"
    case WriteAttempted => e.writeAttempts != 0
    case ConfigurationMutated => e.configuration != 0
    case NoPhase => e.phases == []
    case WindowNotPositive => exists i :: 0 <= i < n && e.phases[i].window <= 0.0
    case NegativeRequests => exists i :: 0 <= i < n && e.phases[i].requests < 0
    case NegativeMemory => exists i :: 0 <= i < n && e.phases[i].memory < 0
    case NoDiskSpace => exists i :: 0 <= i < n && e.phases[i].disk <= 0
    case _ => false
  }

  /** And about the whole. */
  predicate Fault(e: Evidence, complete: bool, error: Error) {
    match error
    case NamesRepeat => exists i, j :: 0 <= i < j < |e.phases| && e.phases[i].name == e.phases[j].name
    case PhasesMissing => complete && exists name :: name in DEFAULT_PHASES && name !in Names(e.phases)
    case _ => FaultSoFar(e, |e.phases|, error)
  }

  lemma OneMorePhase(e: Evidence, n: nat, error: Error)
    requires n < |e.phases|
    ensures FaultSoFar(e, n + 1, error) <==> FaultSoFar(e, n, error) || error in PhaseErrors(e.phases[n])
  {
    if FaultSoFar(e, n + 1, error) && !FaultSoFar(e, n, error) {
      match error
      case WindowNotPositive => assert e.phases[n].window <= 0.0;
      case NegativeRequests => assert e.phases[n].requests < 0;
      case NegativeMemory => assert e.phases[n].memory < 0;
      case NoDiskSpace => assert e.phases[n].disk <= 0;
      case _ =>
    }
  }

  lemma GoodMeansNoFault(e: Evidence, complete: bool)
    ensures GoodEvidence(e, complete) <==> forall error :: !Fault(e, complete, error)
  {
    if GoodEvidence(e, complete) {
      forall error ensures !Fault(e, complete, error) { GoodHasNoFault(e, complete, error); }
    } else {
      var error := SomeFault(e, complete);
    }
    hide *;
  }

  lemma GoodHasNoFault(e: Evidence, complete: bool, error: Error)
    requires GoodEvidence(e, complete)
    ensures !Fault(e, complete, error)
  {
    hide DEFAULT_PHASES, Names;
  }

  lemma SomeFault(e: Evidence, complete: bool) returns (error: Error)
    requires !GoodEvidence(e, complete)
    ensures Fault(e, complete, error)
  {
    hide DEFAULT_PHASES, Names;
    if e.schema != SCHEMA_VERSION { return WrongSchema; }
    if e.classification != CLASSIFICATION { return WrongClassification; }
    if e.writeAttempts != 0 { return WriteAttempted; }
    if e.configuration != 0 { return ConfigurationMutated; }
    if e.phases == [] { return NoPhase; }
    if !UniqueNames(e.phases) { return NamesRepeat; }
    if complete && exists name :: name in DEFAULT_PHASES && name !in Names(e.phases) { return PhasesMissing; }
    error := BadPhase(e);
  }

  lemma BadPhase(e: Evidence) returns (error: Error)
    requires exists i :: 0 <= i < |e.phases| && !GoodPhase(e.phases[i])
    ensures FaultSoFar(e, |e.phases|, error) && Fault(e, false, error) && Fault(e, true, error)
  {
    hide DEFAULT_PHASES, Names;
    var i :| 0 <= i < |e.phases| && !GoodPhase(e.phases[i]);
    if e.phases[i].window <= 0.0 { return WindowNotPositive; }
    if e.phases[i].requests < 0 { return NegativeRequests; }
    if e.phases[i].memory < 0 { return NegativeMemory; }
    error := NoDiskSpace;
  }

  /** `validate_evidence`: every error that applies and no other, and none exactly for good
      evidence. */
  method ValidateEvidence(e: Evidence, requireComplete: bool) returns (errors: seq<Error>)
    ensures forall error :: error in errors <==> Fault(e, requireComplete, error)
    ensures errors == [] <==> GoodEvidence(e, requireComplete)
  {
    hide *;
    errors := CheckHeader(e);
    var names: set<string> := {};
    NoNames(e.phases);
    for i := 0 to |e.phases|
      invariant forall error :: error in errors <==> FaultSoFar(e, i, error)
      invariant names == Names(e.phases[..i])
    {
      NamesOfOneMore(e.phases, i);
      OneMorePhaseFaults(e, i, errors);
      names := names + {e.phases[i].name};
      errors := errors + PhaseErrors(e.phases[i]);
    }
    AllNames(e.phases);
    var repeats := |e.phases| != |names|;
    var missing := requireComplete && exists name | name in DEFAULT_PHASES :: name !in names;
    LastFaults(e, requireComplete, errors, repeats, missing);
    if repeats { errors := errors + [NamesRepeat]; }
    if missing { errors := errors + [PhasesMissing]; }
    GoodMeansNoFault(e, requireComplete);
    NoneIsEmpty(errors);
  }

  method CheckHeader(e: Evidence) returns (errors: seq<Error>)
    ensures forall error :: error in errors <==> FaultSoFar(e, 0, error)
  {
    errors := [];
    if e.schema != SCHEMA_VERSION { errors := errors + [WrongSchema]; }
    if e.classification != CLASSIFICATION { errors := errors + [WrongClassification]; }
    if e.writeAttempts != 0 { errors := errors + [WriteAttempted]; }
    if e.configuration != 0 { errors := errors + [ConfigurationMutated]; }
    if e.phases == [] { errors := errors + [NoPhase]; }
  }

  lemma NoNames(phases: seq<Phase>)
    ensures Names(phases[..0]) == {}
  {
  }

  lemma AllNames(phases: seq<Phase>)
    ensures phases[..|phases|] == phases
    ensures |Names(phases)| == |phases| <==>
        !exists i, j :: 0 <= i < j < |phases| && phases[i].name == phases[j].name
  {
    CountedNames(phases);
    UniqueMeansNoRepeat(phases);
    hide Names;
  }

  lemma OneMorePhaseFaults(e: Evidence, n: nat, errors: seq<Error>)
    requires n < |e.phases| && forall error :: error in errors <==> FaultSoFar(e, n, error)
    ensures forall error :: error in errors + PhaseErrors(e.phases[n]) <==> FaultSoFar(e, n + 1, error)
  {
    forall error
      ensures FaultSoFar(e, n + 1, error) <==> FaultSoFar(e, n, error) || error in PhaseErrors(e.phases[n])
    {
      OneMorePhase(e, n, error);
    }
    hide FaultSoFar, PhaseErrors;
  }

  lemma LastFaults(e: Evidence, complete: bool, errors: seq<Error>, repeats: bool, missing: bool)
    requires forall error :: error in errors <==> FaultSoFar(e, |e.phases|, error)
    requires repeats <==> exists i, j :: 0 <= i < j < |e.phases| && e.phases[i].name == e.phases[j].name
    requires missing <==> complete && exists name :: name in DEFAULT_PHASES && name !in Names(e.phases)
    ensures forall error :: Fault(e, complete, error) <==>
        error in errors || (repeats && error == NamesRepeat) || (missing && error == PhasesMissing)
  {
    NotYetFaults(e);
    hide FaultSoFar, Names, DEFAULT_PHASES;
  }

  lemma UniqueMeansNoRepeat(phases: seq<Phase>)
    ensures UniqueNames(phases) <==> !exists i, j :: 0 <= i < j < |phases| && phases[i].name == phases[j].name
  {
  }

  lemma NotYetFaults(e: Evidence)
    ensures !FaultSoFar(e, |e.phases|, NamesRepeat) && !FaultSoFar(e, |e.phases|, PhasesMissing)
  {
  }

  lemma NoneIsEmpty(errors: seq<Error>)
    ensures errors == [] <==> forall error :: error !in errors
  {
    if errors != [] { assert errors[0] in errors; }
  }

  lemma NamesOfOneMore(phases: seq<Phase>, n: nat)
    requires n < |phases|
    ensures Names(phases[..n + 1]) == Names(phases[..n]) + {phases[n].name}
  {
    var all, init := phases[..n + 1], phases[..n];
    forall name ensures name in Names(all) <==> name in Names(init) || name == phases[n].name {
      if name in Names(init) {
        var i :| 0 <= i < n && init[i].name == name;
        assert all[i].name == name;
      }
      assert all[n] == phases[n];
    }
  }

  /** Counting the distinct names finds out whether one repeats. */
  lemma {:induction false} CountedNames(phases: seq<Phase>)
    ensures |Names(phases)| <= |phases|
    ensures |Names(phases)| == |phases| <==> UniqueNames(phases)
    decreases |phases|
  {
    if phases == [] {
      assert Names(phases) == {};
    } else {
      var n := |phases| - 1;
      CountedNames(phases[..n]);
      UniqueGrows(phases);
      NamesOfOneMore(phases, n);
      assert phases[..n + 1] == phases;
      hide *;
      if phases[n].name in Names(phases[..n]) {
        assert Names(phases) == Names(phases[..n]);
      }
    }
  }

  lemma UniqueGrows(phases: seq<Phase>)
    requires phases != []
    ensures var n := |phases| - 1;
            UniqueNames(phases) <==> UniqueNames(phases[..n]) && phases[n].name !in Names(phases[..n])
  {
    var n := |phases| - 1;
    var init := phases[..n];
    if phases[n].name in Names(init) {
      var i :| 0 <= i < n && init[i].name == phases[n].name;
      assert phases[i].name == phases[n].name;
    } else {
      assert forall i :: 0 <= i < n ==> init[i].name in Names(init);
      assert forall i :: 0 <= i < n ==> phases[i] == init[i];
    }
  }

  /** What a capture measured. */
  datatype Capture = Capture(name: string, before: Metrics, after: Metrics)

  function DiscoveryTotal(captures: seq<Capture>): int
    decreases |captures|
  {
    if captures == [] then 0
    else
      var last := captures[|captures| - 1];
      DiscoveryTotal(captures[..|captures| - 1]) + last.after.discovery - last.before.discovery
  }

  /** A phase reports what its capture measured. */
  predicate Reports(phase: Phase, c: Capture) {
    && phase.name == c.name && phase.requests == c.after.requests - c.before.requests
    && OutcomeDelta(c.before.outcomes, c.after.outcomes) == Some(phase.outcomes)
    && c.before.configuration == c.after.configuration && c.before.discovery <= c.after.discovery
  }

  /** Evidence of exactly these captures. */
  predicate Describes(e: Evidence, captures: seq<Capture>) {
    && e.configuration == 0 && e.discovery == DiscoveryTotal(captures)
    && |e.phases| == |captures| && (forall i :: 0 <= i < |captures| ==> Reports(e.phases[i], captures[i]))
  }

  /** `append_phase`, once the name is known to be new. */
  function Appended(e: Evidence, phase: Phase, discovery: nat, configuration: nat): Evidence {
    e.(phases := e.phases + [phase], discovery := e.discovery + discovery,
       configuration := e.configuration + configuration, writeAttempts := 0)
  }

  /** A valid file with one more phase has seen no configuration change. */
  lemma AppendedDescribes(e: Evidence, captures: seq<Capture>, phase: Phase, c: Capture)
    requires Describes(e, captures)
    requires c.before.discovery <= c.after.discovery && c.before.configuration <= c.after.configuration
    requires c.before.requests <= c.after.requests
    requires phase.name == c.name && phase.requests == c.after.requests - c.before.requests
    requires OutcomeDelta(c.before.outcomes, c.after.outcomes) == Some(phase.outcomes)
    ensures var discovery := c.after.discovery - c.before.discovery;
            var configuration := c.after.configuration - c.before.configuration;
            var more := Appended(e, phase, discovery, configuration);
            GoodEvidence(more, false) ==>
              c.before.configuration == c.after.configuration && Describes(more, captures + [c])
  {
    hide OutcomeDelta, GoodPhase, UniqueNames;
    assert (captures + [c])[..|captures|] == captures;
  }

  /** A file that is new or good stays good exactly with a sound phase of a new name and
      without a configuration change. */
  lemma AppendedIsGood(e: Evidence, source: string, phase: Phase, discovery: nat, configuration: nat)
    requires e == NewEvidence(source) || GoodEvidence(e, false)
    ensures GoodEvidence(Appended(e, phase, discovery, configuration), false) <==>
              GoodPhase(phase) && configuration == 0 && phase.name !in Names(e.phases)
  {
    hide GoodPhase, DEFAULT_PHASES;
    var more := Appended(e, phase, discovery, configuration);
    var n := |e.phases|;
    assert more.phases[n] == phase && forall i :: 0 <= i < n ==> more.phases[i] == e.phases[i];
    if phase.name in Names(e.phases) {
      var i :| 0 <= i < n && e.phases[i].name == phase.name;
      assert more.phases[i].name == more.phases[n].name;
    }
  }

  /** What one capture says: the window rounded, the growth of the requests and of every
      outcome, the memory and the disk. */
  ghost predicate Measured(phase: Phase, name: string, rounded: real, before: Metrics, after: Metrics, memory: int,
      disk: int) {
    && phase.name == name && phase.window == rounded && phase.memory == memory && phase.disk == disk
    && phase.requests == after.requests - before.requests
    && (forall key :: key in phase.outcomes <==> key in before.outcomes || key in after.outcomes)
    && (forall key :: key in phase.outcomes ==>
      (if key in before.outcomes then before.outcomes[key] else 0) + phase.outcomes[key]
      == if key in after.outcomes then after.outcomes[key] else 0)
  }

  lemma MeasuredExactly(phase: Phase, before: Metrics, after: Metrics)
    requires OutcomeDelta(before.outcomes, after.outcomes) == Some(phase.outcomes)
    requires phase.requests == after.requests - before.requests
    ensures Measured(phase, phase.name, phase.window, before, after, phase.memory, phase.disk)
  {
    assert phase.outcomes.Keys == before.outcomes.Keys + after.outcomes.Keys;
    forall key | key in phase.outcomes ensures Count(after.outcomes, key) >= Count(before.outcomes, key) {
      assert key in before.outcomes.Keys + after.outcomes.Keys;
    }
  }

  /** No counter lost count, and the configuration counter did not move. */
  predicate Counted(before: Metrics, after: Metrics) {
    && before.requests <= after.requests && before.discovery <= after.discovery
    && before.configuration == after.configuration
    && forall key :: key in before.outcomes ==>
      before.outcomes[key] <= (if key in after.outcomes then after.outcomes[key] else 0)
  }

  lemma CountedExactly(before: Metrics, after: Metrics)
    ensures Counted(before, after) <==>
              && before.requests <= after.requests && before.discovery <= after.discovery
              && before.configuration == after.configuration
              && OutcomeDelta(before.outcomes, after.outcomes).Some?
  {
    OutcomeDeltaExactly(before.outcomes, after.outcomes);
    hide OutcomeDelta;
  }

  // ---- what the phases of a file add up to ----

  /** The captures read growing counters at these instants. */
  ghost predicate Readings(timeline: nat -> Metrics, captures: seq<Capture>, windows: seq<Window>) {
    && |captures| == |windows|
    && forall i :: 0 <= i < |captures| ==>
         captures[i].before == timeline(windows[i].from) && captures[i].after == timeline(windows[i].to)
  }

  function Requests(timeline: nat -> Metrics): nat -> nat { t => timeline(t).requests }

  function Discoveries(timeline: nat -> Metrics): nat -> nat { t => timeline(t).discovery }

  ghost function OutcomeTotals(timeline: nat -> Metrics): nat -> nat { t => Total(timeline(t).outcomes) }

  function SumOfRequests(phases: seq<Phase>): int
    decreases |phases|
  {
    if phases == [] then 0 else SumOfRequests(phases[..|phases| - 1]) + phases[|phases| - 1].requests
  }

  ghost function SumOfOutcomes(phases: seq<Phase>): int
    decreases |phases|
  {
    if phases == [] then 0 else SumOfOutcomes(phases[..|phases| - 1]) + Total(phases[|phases| - 1].outcomes)
  }

  /** What the phases and the discovery total report are deltas of the counters. */
  lemma {:induction false} PhasesSumDeltas(phases: seq<Phase>, captures: seq<Capture>, timeline: nat -> Metrics,
      windows: seq<Window>)
    requires |phases| == |captures| && (forall i :: 0 <= i < |captures| ==> Reports(phases[i], captures[i]))
    requires Readings(timeline, captures, windows)
    ensures SumOfRequests(phases) == SumOfDeltas(Requests(timeline), windows)
    ensures SumOfOutcomes(phases) == SumOfDeltas(OutcomeTotals(timeline), windows)
    ensures DiscoveryTotal(captures) == SumOfDeltas(Discoveries(timeline), windows)
    decreases |phases|
  {
    if phases != [] {
      var n := |phases| - 1;
      PhasesSumDeltas(phases[..n], captures[..n], timeline, windows[..n]);
      assert Reports(phases[n], captures[n]);
      OutcomeDeltaAddsUp(captures[n].before.outcomes, captures[n].after.outcomes);
      hide OutcomeDelta, Total;
    }
  }

  /** Growth of a counter from the first reading to the last. */
  function Growth(counter: nat -> nat, windows: seq<Window>): int
    requires windows != []
  {
    counter(windows[|windows| - 1].to) - counter(windows[0].from)
  }

  /** In every file the phases' requests and outcomes and the discovery total sum to at most
      the counters' growth over the whole run of captures. */
  lemma EvidenceIsWithinGrowth(e: Evidence, captures: seq<Capture>, timeline: nat -> Metrics, windows: seq<Window>)
    requires Describes(e, captures) && Readings(timeline, captures, windows) && InOrder(windows) && windows != []
    requires OnlyGrows(Requests(timeline)) && OnlyGrows(Discoveries(timeline)) && OnlyGrows(OutcomeTotals(timeline))
    ensures SumOfRequests(e.phases) <= Growth(Requests(timeline), windows)
    ensures SumOfOutcomes(e.phases) <= Growth(OutcomeTotals(timeline), windows)
    ensures e.discovery <= Growth(Discoveries(timeline), windows)
  {
    PhasesSumDeltas(e.phases, captures, timeline, windows);
    DeltasTelescope(Requests(timeline), windows);
    DeltasTelescope(OutcomeTotals(timeline), windows);
    DeltasTelescope(Discoveries(timeline), windows);
    hide SumOfDeltas, SumOfGaps, OnlyGrows, SumOfRequests, SumOfOutcomes, DiscoveryTotal, Requests, OutcomeTotals;
    hide Discoveries, Reports;
  }

  /** When the windows abut, they sum to exactly that growth. */
  lemma AbuttingEvidenceIsTheGrowth(e: Evidence, captures: seq<Capture>, timeline: nat -> Metrics, windows: seq<Window>)
    requires Describes(e, captures) && Readings(timeline, captures, windows) && Abut(windows) && windows != []
    ensures SumOfRequests(e.phases) == Growth(Requests(timeline), windows)
    ensures SumOfOutcomes(e.phases) == Growth(OutcomeTotals(timeline), windows)
    ensures e.discovery == Growth(Discoveries(timeline), windows)
  {
    PhasesSumDeltas(e.phases, captures, timeline, windows);
    AbuttingDeltasAreTheGrowth(Requests(timeline), windows);
    AbuttingDeltasAreTheGrowth(OutcomeTotals(timeline), windows);
    AbuttingDeltasAreTheGrowth(Discoveries(timeline), windows);
    hide SumOfDeltas, SumOfRequests, SumOfOutcomes, DiscoveryTotal, Requests, OutcomeTotals, Discoveries, Reports;
  }

  /** The file is not written atomically: a write that fails may leave a part of it. */
  datatype Content = Absent | Torn | Whole(evidence: Evidence)

  function PhasesIn(content: Content): seq<Phase> { if content.Whole? then content.evidence.phases else [] }

  /** What a capture needs to be recorded. */
  ghost predicate Recordable(content: Content, name: string, source: string, window: real, rounded: real,
      before: Metrics, after: Metrics, memory: int, disk: int) {
    && window > 0.0 && rounded > 0.0 && memory >= 0 && disk > 0 && Counted(before, after)
    && content != Torn && (content.Whole? ==> content.evidence.source == source)
    && name !in Names(PhasesIn(content))
  }

  /** The evidence that a capture goes on with. */
  ghost predicate GoesOn(content: Content, captures: seq<Capture>, source: string, e: Evidence) {
    && e.source == source && Describes(e, captures) && e.phases == PhasesIn(content)
    && (e == NewEvidence(source) || GoodEvidence(e, false))
    && e.discovery == (if content.Whole? then content.evidence.discovery else 0)
  }

  lemma FileGoesOn(content: Content, captures: seq<Capture>, source: string)
    requires content != Torn && (content == Absent ==> captures == [])
    requires content.Whole? ==>
        content.evidence.source == source && GoodEvidence(content.evidence, false)
          && Describes(content.evidence, captures)
    ensures GoesOn(content, captures, source, if content.Whole? then content.evidence else NewEvidence(source))
  {
    hide GoodEvidence;
  }

  /** The phase that a capture would add, unless a counter decreased. */
  ghost predicate Taken(phase: Phase, discovery: nat, configuration: nat, name: string, rounded: real, before: Metrics,
      after: Metrics, memory: int, disk: int) {
    && Measured(phase, name, rounded, before, after, memory, disk)
    && OutcomeDelta(before.outcomes, after.outcomes) == Some(phase.outcomes)
    && before.requests <= after.requests
    && before.discovery + discovery == after.discovery
    && before.configuration + configuration == after.configuration
  }

  /** `build_phase_evidence` and the two other deltas. */
  method Measure(name: string, rounded: real, before: Metrics, after: Metrics, memory: int, disk: int)
    returns (r: Option<(Phase, nat, nat)>)
    ensures r.Some? ==> Taken(r.value.0, r.value.1, r.value.2, name, rounded, before, after, memory, disk)
    ensures r.None? ==> !Counted(before, after)
  {
    CountedExactly(before, after);
    hide OutcomeDelta, Counted, Measured;
    var requests := Delta(after.requests, before.requests);
    var outcomes := OutcomeDelta(before.outcomes, after.outcomes);
    var discovery := Delta(after.discovery, before.discovery);
    var configuration := Delta(after.configuration, before.configuration);
    if requests == None || outcomes == None || discovery == None || configuration == None { return None; }
    var phase := Phase(name, rounded, requests.value, outcomes.value, memory, disk);
    MeasuredExactly(phase, before, after);
    r := Some((phase, discovery.value, configuration.value));
  }

  /** The file with one more phase is good exactly when the capture could be recorded, and
      then it describes that capture too. */
  lemma OneMoreCapture(content: Content, captures: seq<Capture>, e: Evidence, phase: Phase, discovery: nat,
      configuration: nat, name: string, source: string, window: real, rounded: real, before: Metrics, after: Metrics,
      memory: int, disk: int)
    requires GoesOn(content, captures, source, e) && window > 0.0 && content != Torn
    requires content.Whole? ==> content.evidence.source == source
    requires Taken(phase, discovery, configuration, name, rounded, before, after, memory, disk)
    ensures var more := Appended(e, phase, discovery, configuration);
            && (Recordable(content, name, source, window, rounded, before, after, memory, disk) <==>
              name !in Names(e.phases) && GoodEvidence(more, false))
            && (GoodEvidence(more, false) ==> Describes(more, captures + [Capture(name, before, after)]))
            && more.source == source && more.phases == PhasesIn(content) + [phase]
            && more.discovery == (if content.Whole? then content.evidence.discovery else 0)
              + after.discovery - before.discovery
  {
    AppendedIsGood(e, source, phase, discovery, configuration);
    CountedExactly(before, after);
    AppendedDescribes(e, captures, phase, Capture(name, before, after));
    hide GoodEvidence, Describes, OutcomeDelta, Names, Counted;
  }

  lemma NotRecordable(content: Content, name: string, source: string, window: real, rounded: real, before: Metrics,
      after: Metrics, memory: int, disk: int)
    ensures Recordable(content, name, source, window, rounded, before, after, memory, disk) ==>
        window > 0.0 && content != Torn && (content.Whole? ==> content.evidence.source == source)
          && Counted(before, after)
  {
    hide Counted;
  }

  lemma NewIsEmpty(source: string)
    ensures NewEvidence(source).source == source
  {
  }

  lemma TakenIsMeasured(phase: Phase, discovery: nat, configuration: nat, name: string, rounded: real, before: Metrics,
      after: Metrics, memory: int, disk: int)
    requires Taken(phase, discovery, configuration, name, rounded, before, after, memory, disk)
    ensures Measured(phase, name, rounded, before, after, memory, disk)
  {
  }

  class EvidenceFile {
    const reliable: bool                  // no call fails
    var content: Content
    ghost var captures: seq<Capture>      // the ones that were written

    /** A whole file holds good evidence of exactly these captures. */
    ghost predicate Valid()
      reads this
    {
      match content
      case Absent => captures == []
      case Torn => true
      case Whole(e) => GoodEvidence(e, false) && Describes(e, captures)
    }

    constructor (reliable: bool)
      ensures Valid() && content == Absent && this.reliable == reliable
    {
      content, captures, this.reliable := Absent, [], reliable;
    }

    method Fails() returns (fails: bool)
      ensures reliable ==> !fails
    {
      fails := *;
      fails := fails && !reliable;
    }

    /** `capture`: two readings around a window; any call may fail. Whatever goes wrong
        before the write, the file stays as it was. */
    method CapturePhase(name: string, source: string, window: real, rounded: real, before: Metrics, after: Metrics,
        memory: int, disk: int)
      returns (result: Result<Phase, seq<Error>>)
      requires Valid()
      modifies this
      ensures Valid()
      ensures result.Err? ==> captures == old(captures)
      ensures result.Err? ==> content == old(content) || (result.error == [WriteFailed] && content == Torn)
      ensures result.Ok? ==> captures == old(captures) + [Capture(name, before, after)]
      ensures result.Ok? ==> content.Whole? && content.evidence.phases == PhasesIn(old(content)) + [result.value]
      ensures result.Ok? ==>
                && content.evidence.source == source
                && Measured(result.value, name, rounded, before, after, memory, disk)
                && content.evidence.discovery
                  == (if old(content).Whole? then old(content).evidence.discovery else 0)
                     + after.discovery - before.discovery
      ensures result.Ok? ==> Recordable(old(content), name, source, window, rounded, before, after, memory, disk)
      ensures reliable && Recordable(old(content), name, source, window, rounded, before, after, memory, disk) ==>
          result.Ok?
    {
      hide *;
      NotRecordable(content, name, source, window, rounded, before, after, memory, disk);
      if window <= 0.0 { return Err([BadWindow]); }
      if content == Torn { return Err([NotEvidence]); }
      var evidence := if content.Whole? then content.evidence else NewEvidence(source);
      NewIsEmpty(source);
      if evidence.source != source { return Err([WrongSource]); }
      ValidGoesOn(source);
      var fails := Fails();
      if fails { return Err([CallFailed]); }
      var taken := Measure(name, rounded, before, after, memory, disk);
      if taken == None { return Err([CounterDecreased]); }
      var (phase, discovery, configuration) := taken.value;
      TakenIsMeasured(phase, discovery, configuration, name, rounded, before, after, memory, disk);
      OneMoreCapture(content, captures, evidence, phase, discovery, configuration, name, source, window, rounded,
        before, after, memory, disk);
      if name in Names(evidence.phases) { return Err([PhaseExists]); }
      evidence := Appended(evidence, phase, discovery, configuration);
      var errors := ValidateEvidence(evidence, false);
      if errors != [] { return Err(errors); }
      fails := Fails();
      if fails {
        if * {
          content := Torn;
          assert Valid() by { TornIsValid(); }
        }
        return Err([WriteFailed]);
      }
      content := Whole(evidence);
      captures := captures + [Capture(name, before, after)];
      assert Valid() by { WholeIsValid(); }
      result := Ok(phase);
    }

    lemma TornIsValid()
      requires content == Torn
      ensures Valid()
    {
    }

    lemma WholeIsValid()
      requires content.Whole? && GoodEvidence(content.evidence, false) && Describes(content.evidence, captures)
      ensures Valid()
    {
    }

    lemma ValidGoesOn(source: string)
      requires Valid() && content != Torn && (content.Whole? ==> content.evidence.source == source)
      ensures GoesOn(content, captures, source, if content.Whole? then content.evidence else NewEvidence(source))
    {
      FileGoesOn(content, captures, source);
      hide GoodEvidence, Describes;
    }
  }
}
