/**
  The health gate of a Device Agent deployment: a polling loop that trusts one container,
  fails fast on anything that cannot become healthy, and retries until a deadline.

  The clock never runs backwards and a sleep lasts at least as long as asked for. A
  `Script` says what happens at every step: how much time passes and what Docker or the
  health endpoint would answer. A statement over all scripts is a statement over every
  behaviour of the world.
 */
module HealthGate {
  import opened Wrappers

  datatype Value = Missing | True | Text(s: string) | Integer(n: int) | Object(fields: map<string, Value>) | Other

  type Fields = map<string, Value>

  function Get(fields: Fields, key: string): Value { if key in fields then fields[key] else Missing }

  // ---- operational health ----

  datatype OperationalError =
    | RequestFailed | StatusNotOk | MqttNotConnected | NoAcquisition | NoScheduler
    | WorkersNotHealthy | BadWorkerCounts | WorkersMissing

  /** `validate_operational_health`. */
  function ValidateOperationalHealth(payload: Fields): Option<OperationalError> {
    if Get(payload, "status") != Text("ok") then Some(StatusNotOk)
    else if Get(payload, "mqtt_connected") != True then Some(MqttNotConnected)
    else if !Get(payload, "acquisition").Object? then Some(NoAcquisition)
    else
      var scheduler := Get(Get(payload, "acquisition").fields, "scheduler");
      if !scheduler.Object? then Some(NoScheduler)
      else ValidateScheduler(scheduler.fields)
  }

  function ValidateScheduler(scheduler: Fields): Option<OperationalError> {
    var expected, active := Get(scheduler, "expected_bus_workers"), Get(scheduler, "active_bus_workers");
    if Get(scheduler, "workers_healthy") != True then Some(WorkersNotHealthy)
    else if !expected.Integer? || !active.Integer? || expected.n < 0 || active.n < 0 then Some(BadWorkerCounts)
    else if expected != active then Some(WorkersMissing)
    else None
  }

  /** A healthy payload with this many workers. */
  predicate Operational(payload: Fields, workers: nat) {
    && Get(payload, "status") == Text("ok") && Get(payload, "mqtt_connected") == True
    && Get(payload, "acquisition").Object?
    && var scheduler := Get(Get(payload, "acquisition").fields, "scheduler");
    && scheduler.Object? && Get(scheduler.fields, "workers_healthy") == True
    && Get(scheduler.fields, "expected_bus_workers") == Get(scheduler.fields, "active_bus_workers") == Integer(workers)
  }

  lemma AcceptsExactlyOperational(payload: Fields)
    ensures ValidateOperationalHealth(payload) == None <==> exists workers: nat :: Operational(payload, workers)
  {
    if ValidateOperationalHealth(payload) == None {
      assert Operational(payload,
        Get(Get(Get(payload, "acquisition").fields, "scheduler").fields, "expected_bus_workers").n);
    }
  }

  // ---- rounds ----

  /** What a call that is made at most once per round returned. */
  datatype Answer<T> = NotAsked | CallFailed | Got(value: T)

  datatype Round = Round(ids: Answer<seq<string>>, state: Answer<Fields>, payload: Answer<Fields>)

  datatype Failure =
    | ListFailed
    | NotSole(found: nat)
    | ContainerChanged
    | InspectFailed
    | NotRunning
    | NoHealthState
    | Unhealthy
    | Unsupported

  datatype Reading = CutOff | Converged | Retry(error: Option<OperationalError>) | Fatal(failure: Failure)

  /** What a round means. A round is cut off when the deadline passes inside it. */
  function Read(round: Round, expected: string): Reading {
    match round.ids
    case NotAsked => CutOff
    case CallFailed => Fatal(ListFailed)
    case Got(ids) =>
      if |ids| != 1 then Fatal(NotSole(|ids|))
      else if ids[0] != expected then Fatal(ContainerChanged)
      else
        match round.state
        case NotAsked => CutOff
        case CallFailed => Fatal(InspectFailed)
        case Got(state) =>
          if Get(state, "Running") != True then Fatal(NotRunning)
          else if !Get(state, "Health").Object? then Fatal(NoHealthState)
          else
            var status := Get(Get(state, "Health").fields, "Status");
            if status == Text("healthy") then ReadPayload(round.payload)
            else if status == Text("unhealthy") then Fatal(Unhealthy)
            else if status == Text("starting") then Retry(None)
            else Fatal(Unsupported)
  }

  function ReadPayload(payload: Answer<Fields>): Reading {
    match payload
    case NotAsked => CutOff
    case CallFailed => Retry(Some(RequestFailed))
    case Got(fields) =>
      match ValidateOperationalHealth(fields)
      case None => Converged
      case Some(error) => Retry(Some(error))
  }

  datatype Outcome = InvalidArguments | Healthy | Failed(failure: Failure) | TimedOut(last: Option<OperationalError>)

  function LastError(rounds: seq<Round>, expected: string): Option<OperationalError>
    decreases |rounds|
  {
    if rounds == [] then None
    else
      var reading := Read(rounds[|rounds| - 1], expected);
      if reading.Retry? && reading.error.Some? then reading.error else LastError(rounds[..|rounds| - 1], expected)
  }

  /** The error of the latest round that has one. */
  lemma {:induction false} LastErrorExactly(rounds: seq<Round>, expected: string, error: OperationalError)
    ensures LastError(rounds, expected) == Some(error) <==>
              exists i :: 0 <= i < |rounds| && IsLatest(rounds, expected, error, i)
    decreases |rounds|
  {
    hide Read, WithError, IsLatest;
    if rounds != [] {
      var n := |rounds| - 1;
      LastErrorExactly(rounds[..n], expected, error);
      LastErrorUnfolds(rounds, expected, error);
      forall i | 0 <= i < n
        ensures IsLatest(rounds, expected, error, i) <==>
            IsLatest(rounds[..n], expected, error, i) && !WithError(rounds[n], expected)
      {
        LatestUnfolds(rounds, expected, error, i);
      }
      if i :| 0 <= i < |rounds| && IsLatest(rounds, expected, error, i) {
        assert i == n || IsLatest(rounds[..n], expected, error, i);
      } else {
        assert !IsLatest(rounds, expected, error, n);
        if i :| 0 <= i < n && IsLatest(rounds[..n], expected, error, i) {
          assert !IsLatest(rounds, expected, error, i);
        }
      }
    }
  }

  lemma LastErrorUnfolds(rounds: seq<Round>, expected: string, error: OperationalError)
    requires rounds != []
    ensures var n := |rounds| - 1;
            LastError(rounds, expected) == Some(error) <==>
              || IsLatest(rounds, expected, error, n)
              || (!WithError(rounds[n], expected) && LastError(rounds[..n], expected) == Some(error))
  {
    hide Read;
  }

  lemma LatestUnfolds(rounds: seq<Round>, expected: string, error: OperationalError, i: nat)
    requires i < |rounds| - 1
    ensures IsLatest(rounds, expected, error, i) <==>
        IsLatest(rounds[..|rounds| - 1], expected, error, i) && !WithError(rounds[|rounds| - 1], expected)
  {
    hide Read, WithError;
    var init := rounds[..|rounds| - 1];
    assert rounds[i] == init[i];
    if IsLatest(init, expected, error, i) && !WithError(rounds[|rounds| - 1], expected) {
      forall j | i < j < |rounds| ensures !WithError(rounds[j], expected) {
        if j < |init| { assert rounds[j] == init[j]; }
      }
    }
    if IsLatest(rounds, expected, error, i) {
      forall j | i < j < |init| ensures !WithError(init[j], expected) { assert rounds[j] == init[j]; }
    }
  }

  predicate IsLatest(rounds: seq<Round>, expected: string, error: OperationalError, i: nat)
    requires i < |rounds|
  {
    Read(rounds[i], expected) == Retry(Some(error)) && forall j :: i < j < |rounds| ==> !WithError(rounds[j], expected)
  }

  predicate WithError(round: Round, expected: string) {
    Read(round, expected).Retry? && Read(round, expected).error.Some?
  }

  /** Every round but the last asked for a retry, and the outcome is what the last one
      says; only a retry or a cut-off round can time out. */
  predicate Explains(rounds: seq<Round>, expected: string, outcome: Outcome) {
    && (forall i :: 0 <= i < |rounds| - 1 ==> Read(rounds[i], expected).Retry?)
    && match outcome
       case InvalidArguments => rounds == []
       case Healthy => rounds != [] && Read(rounds[|rounds| - 1], expected) == Converged
       case Failed(failure) => rounds != [] && Read(rounds[|rounds| - 1], expected) == Fatal(failure)
       case TimedOut(last) =>
         && last == LastError(rounds, expected)
         && (rounds != [] ==>
           Read(rounds[|rounds| - 1], expected).Retry? || Read(rounds[|rounds| - 1], expected).CutOff?)
  }

  predicate Sole(round: Round, expected: string) { round.ids == Got([expected]) }

  predicate RunningWith(round: Round, status: string) { round.state.Got? && ComesUp(round.state.value, status) }

  /** Running, with this health status. */
  predicate ComesUp(state: Fields, status: string) {
    && Get(state, "Running") == True && Get(state, "Health").Object?
    && Get(Get(state, "Health").fields, "Status") == Text(status)
  }

  /** A healthy outcome rests on one round that saw the expected sole container running,
      healthy and operational, after rounds that all saw it running and coming up. */
  lemma HealthyMeansOneGoodRound(rounds: seq<Round>, expected: string)
    requires Explains(rounds, expected, Healthy)
    ensures rounds != []
    ensures var last := rounds[|rounds| - 1];
            && Sole(last, expected) && RunningWith(last, "healthy")
            && last.payload.Got? && exists workers: nat :: Operational(last.payload.value, workers)
    ensures forall i :: 0 <= i < |rounds| - 1 ==>
              Sole(rounds[i], expected) && (RunningWith(rounds[i], "starting") || RunningWith(rounds[i], "healthy"))
  {
    var last := rounds[|rounds| - 1];
    ConvergedExactly(last, expected);
    AcceptsExactlyOperational(last.payload.value);
    forall i | 0 <= i < |rounds| - 1
      ensures Sole(rounds[i], expected) && (RunningWith(rounds[i], "starting") || RunningWith(rounds[i], "healthy"))
    {
      RetryExactly(rounds[i], expected);
    }
    hide Read, ValidateOperationalHealth, Operational;
  }

  lemma ConvergedExactly(round: Round, expected: string)
    ensures Read(round, expected) == Converged <==>
              && Sole(round, expected) && RunningWith(round, "healthy")
              && round.payload.Got? && ValidateOperationalHealth(round.payload.value) == None
  {
    StatusesDiffer();
    if round.ids.Got? && |round.ids.value| == 1 { assert round.ids.value == [round.ids.value[0]]; }
    hide ValidateOperationalHealth;
  }

  /** A round is retried exactly when the expected container is starting, or healthy but
      not operational yet. */
  lemma RetryExactly(round: Round, expected: string)
    ensures Read(round, expected).Retry? <==>
              && Sole(round, expected)
              && (RunningWith(round, "starting") || (RunningWith(round, "healthy") && !round.payload.NotAsked?
                  && (round.payload.Got? ==> ValidateOperationalHealth(round.payload.value).Some?)))
  {
    StatusesDiffer();
    if round.ids.Got? && |round.ids.value| == 1 { assert round.ids.value == [round.ids.value[0]]; }
    hide ValidateOperationalHealth;
  }

  lemma StatusesDiffer()
    ensures "healthy" != "unhealthy" && "healthy" != "starting" && "unhealthy" != "starting"
  {
    assert "healthy"[0] == 'h' && "unhealthy"[0] == 'u' && "starting"[0] == 's';
  }

  /** One answer about the wrong container ends the wait, however healthy it is. */
  lemma ReplacedContainerIsFatal(round: Round, expected: string)
    requires round.ids.Got? && round.ids.value != [expected]
    ensures Read(round, expected).Fatal?
  {
    if |round.ids.value| == 1 { assert round.ids.value == [round.ids.value[0]]; }
  }

  /** Whether this is what a round came across: each failure has its own place, and every
      place before it was passed. */
  predicate CameAcross(round: Round, expected: string, failure: Failure) {
    match failure
    case ListFailed => round.ids.CallFailed?
    case NotSole(found) => round.ids.Got? && found == |round.ids.value| != 1
    case ContainerChanged => round.ids.Got? && |round.ids.value| == 1 && round.ids.value != [expected]
    case InspectFailed => Sole(round, expected) && round.state.CallFailed?
    case NotRunning => Sole(round, expected) && round.state.Got? && Get(round.state.value, "Running") != True
    case NoHealthState => Inspected(round, expected) && !Get(round.state.value, "Health").Object?
    case Unhealthy => Sole(round, expected) && RunningWith(round, "unhealthy")
    case Unsupported =>
      && Inspected(round, expected) && Get(round.state.value, "Health").Object?
      && !RunningWith(round, "healthy") && !RunningWith(round, "unhealthy") && !RunningWith(round, "starting")
  }

  predicate Inspected(round: Round, expected: string) {
    Sole(round, expected) && round.state.Got? && Get(round.state.value, "Running") == True
  }

  lemma FatalExactly(round: Round, expected: string, failure: Failure)
    ensures Read(round, expected) == Fatal(failure) <==> CameAcross(round, expected, failure)
  {
    StatusesDiffer();
    if round.ids.Got? && |round.ids.value| == 1 { assert round.ids.value == [round.ids.value[0]]; }
    hide ValidateOperationalHealth;
  }

  // ---- the world ----

  /** What a step brings: the time it takes, and the answers to whichever call it is. */
  datatype Event = Event(passes: real, ids: Answer<seq<string>>, state: Answer<Fields>, payload: Answer<Fields>)

  type Script = nat -> Event

  datatype Moment = Moment(now: real, step: nat)

  function Duration(e: Event): real { if e.passes > 0.0 then e.passes else 0.0 }

  /** A step of whatever kind takes its time. */
  function Next(script: Script, m: Moment): Moment { Moment(m.now + Duration(script(m.step)), m.step + 1) }

  function Slept(script: Script, m: Moment, seconds: real): Moment {
    Next(script, m).(now := Next(script, m).now + seconds)
  }

  /** A Docker command answers within the time it was given, or fails. */
  function InTime<T>(e: Event, answer: Answer<T>, timeout: real): Answer<T> {
    if answer.Got? && Duration(e) <= timeout then answer else CallFailed
  }

  /** The health request's own limit is per socket operation and bounds no duration. */
  function Sometime<T>(answer: Answer<T>): Answer<T> { if answer.Got? then answer else CallFailed }

  // ---- what the loop does, as a function of the script ----

  /** One round, from the first clock reading on. */
  function PollOf(script: Script, m: Moment, expected: string, deadline: real): (Reading, Moment) {
    var m1 := Next(script, m);
    if m1.now >= deadline then (CutOff, m1)
    else
      var listed := Round(InTime(script(m1.step), script(m1.step).ids, deadline - m1.now), NotAsked, NotAsked);
      var m2 := Next(script, m1);
      if Read(listed, expected) != CutOff then (Read(listed, expected), m2)
      else
        var m3 := Next(script, m2);
        if m3.now >= deadline then (CutOff, m3) else InspectOf(script, m3, listed, expected, deadline)
  }

  function InspectOf(script: Script, m: Moment, listed: Round, expected: string, deadline: real): (Reading, Moment) {
    var inspected := listed.(state := InTime(script(m.step), script(m.step).state, deadline - m.now));
    var m1 := Next(script, m);
    if Read(inspected, expected) != CutOff then (Read(inspected, expected), m1)
    else
      var m2 := Next(script, m1);
      if m2.now >= deadline then (CutOff, m2)
      else (Read(inspected.(payload := Sometime(script(m2.step).payload)), expected), Next(script, m2))
  }

  /** The rounds from here on; `left` is more than there is time for. */
  function WaitFrom(script: Script, m: Moment, expected: string, deadline: real, poll: real,
      last: Option<OperationalError>, left: nat)
    : (Outcome, Moment)
    decreases left
  {
    if left == 0 then (TimedOut(last), m)
    else
      var (reading, m1) := PollOf(script, m, expected, deadline);
      match reading
      case CutOff => (TimedOut(last), m1)
      case Fatal(failure) => (Failed(failure), m1)
      case Converged => (Healthy, m1)
      case Retry(error) =>
        var now := if error.Some? then error else last;
        var m2 := Next(script, m1);
        if m2.now >= deadline then (TimedOut(now), m2)
        else WaitFrom(script, Slept(script, m2, Shorter(poll, deadline - m2.now)), expected, deadline, poll, now,
          left - 1)
  }

  function Shorter(a: real, b: real): real { if a <= b then a else b }

  function WaitOf(script: Script, m: Moment, expected: string, timeout: real, poll: real): (Outcome, Moment) {
    if timeout <= 0.0 || poll <= 0.0 then (InvalidArguments, m)
    else
      var start := Next(script, m);
      WaitFrom(script, start, expected, start.now + timeout, poll, None, RoundLimit(timeout, poll) + 1)
  }

  // ---- how many rounds there is time for ----

  function Ceil(x: real): int { -((-x).Floor) }

  /** The number of intervals that begin before the time is up. */
  function RoundLimit(timeout: real, poll: real): nat {
    if timeout <= 0.0 || poll <= 0.0 then 0 else NotNegative(Ceil(timeout / poll))
  }

  function NotNegative(n: int): nat { if n < 0 then 0 else n }

  lemma RoundsFitTheTime(k: nat, timeout: real, poll: real)
    requires poll > 0.0 && k as real * poll < timeout
    ensures k + 1 <= RoundLimit(timeout, poll) == Ceil(timeout / poll)
  {
    var quotient := timeout / poll;
    assert quotient * poll == timeout;
    ScaleBack(k as real, quotient, poll);
  }

  lemma Scale(a: real, b: real, c: real)
    requires a <= b && c > 0.0
    ensures a * c <= b * c
  {
  }

  lemma ScaleBack(a: real, b: real, c: real)
    requires c > 0.0
    ensures a * c < b * c ==> a < b
  {
    if b <= a { Scale(b, a, c); }
  }

  /** Before round k + 1 the loop has slept k intervals, or the time is up. */
  predicate OnPace(start: real, k: nat, poll: real, now: real, deadline: real) {
    start + k as real * poll <= now || deadline <= now
  }

  lemma PaceBegins(start: real, poll: real, deadline: real)
    ensures OnPace(start, 0, poll, start, deadline)
  {
  }

  lemma PaceBoundsRounds(start: real, k: nat, timeout: real, poll: real, now: real)
    requires poll > 0.0 && OnPace(start, k, poll, now, start + timeout) && now < start + timeout
    ensures k + 1 <= RoundLimit(timeout, poll)
  {
    RoundsFitTheTime(k, timeout, poll);
  }

  lemma PaceGoesOn(start: real, k: nat, poll: real, before: real, now: real, after: real, deadline: real)
    requires OnPace(start, k, poll, before, deadline) && before <= now
    requires after >= now + Shorter(poll, deadline - now)
    requires now < deadline
    ensures OnPace(start, k + 1, poll, after, deadline)
  {
    var slept := k as real * poll;
    assert (k + 1) as real == k as real + 1.0;
    assert (k as real + 1.0) * poll == slept + poll;
  }

  // ---- the loop ----

  /** A Docker call: the clock reading before it, the time it was given, whether it
      answered, and when it was over. */
  datatype Call = Call(at: real, timeout: real, answered: bool, end: real)

  /** Every call has a positive time limit that ends at the deadline, and one that
      answered was over by then. */
  predicate Bounded(calls: seq<Call>, deadline: real) {
    forall i :: 0 <= i < |calls| ==>
      && calls[i].timeout > 0.0 && calls[i].at + calls[i].timeout == deadline
      && (calls[i].answered ==> calls[i].end <= deadline)
  }

  lemma OneMoreCall(calls: seq<Call>, c: Call, deadline: real)
    requires Bounded(calls, deadline) && c.timeout > 0.0 && c.at + c.timeout == deadline
    requires c.answered ==> c.end <= deadline
    ensures Bounded(calls + [c], deadline)
  {
  }

  /** Whether the last call or request that decided the outcome was over by the deadline. */
  predicate DecidedInTime(outcome: Outcome, calls: seq<Call>, requests: seq<real>, deadline: real) {
    match outcome
    case Healthy => requests != [] && requests[|requests| - 1] <= deadline
    case Failed(failure) => failure == ListFailed || failure == InspectFailed ==>
      calls != [] && calls[|calls| - 1].end <= deadline
    case _ => true
  }

  /** When the wait is over: a timeout comes no earlier than the deadline, and any other
      outcome by the deadline exactly when what decided it was over by then. */
  predicate Decided(outcome: Outcome, now: real, calls: seq<Call>, requests: seq<real>, deadline: real) {
    if outcome.TimedOut? then now >= deadline
    else now <= deadline <==> DecidedInTime(outcome, calls, requests, deadline)
  }

  /** A sleep: the clock reading it was worked out from, and its length. */
  datatype Nap = Nap(at: real, seconds: real)

  /** A sleep lasts for the poll interval or up to the deadline, and never for longer than
      either. */
  predicate Paced(naps: seq<Nap>, poll: real, deadline: real) {
    forall i :: 0 <= i < |naps| ==>
      && 0.0 < naps[i].seconds <= poll && naps[i].at + naps[i].seconds <= deadline
      && (naps[i].seconds == poll || naps[i].at + naps[i].seconds == deadline)
  }

  lemma OneMoreNap(naps: seq<Nap>, poll: real, now: real, deadline: real)
    requires Paced(naps, poll, deadline) && now < deadline && poll > 0.0
    ensures Paced(naps + [Nap(now, Shorter(poll, deadline - now))], poll, deadline)
  {
  }

  class World {
    const script: Script
    var now: real
    var step: nat
    ghost var calls: seq<Call>
    ghost var requests: seq<real>      // when each health request was over
    ghost var rounds: seq<Round>
    ghost var naps: seq<Nap>

    constructor (script: Script)
      ensures this.script == script && Here() == Moment(0.0, 0)
      ensures calls == [] && requests == [] && rounds == [] && naps == []
    {
      this.script := script;
      now, step, calls, requests, rounds, naps := 0.0, 0, [], [], [], [];
    }

    function Here(): Moment
      reads this
    {
      Moment(now, step)
    }

    method Clock() returns (t: real)
      modifies this`now, this`step
      ensures Here() == Next(script, old(Here())) && t == now
    {
      now, step := now + Duration(script(step)), step + 1;
      t := now;
    }

    method Sleep(seconds: real)
      modifies this`now, this`step, this`naps
      ensures Here() == Slept(script, old(Here()), seconds)
      ensures naps == old(naps) + [Nap(old(now), seconds)]
    {
      naps := naps + [Nap(now, seconds)];
      now, step := now + Duration(script(step)) + seconds, step + 1;
    }

    method ListContainers(timeout: real) returns (ids: Answer<seq<string>>)
      modifies this`now, this`step, this`calls, this`rounds
      ensures Here() == Next(script, old(Here()))
      ensures ids == InTime(script(old(step)), script(old(step)).ids, timeout)
      ensures calls == old(calls) + [Call(old(now), timeout, ids.Got?, now)]
      ensures rounds == old(rounds) + [Round(ids, NotAsked, NotAsked)]
    {
      ids := InTime(script(step), script(step).ids, timeout);
      calls := calls + [Call(now, timeout, ids.Got?, now + Duration(script(step)))];
      var t := Clock();
      rounds := rounds + [Round(ids, NotAsked, NotAsked)];
    }

    method InspectState(timeout: real) returns (state: Answer<Fields>)
      requires rounds != []
      modifies this`now, this`step, this`calls, this`rounds
      ensures Here() == Next(script, old(Here()))
      ensures state == InTime(script(old(step)), script(old(step)).state, timeout)
      ensures calls == old(calls) + [Call(old(now), timeout, state.Got?, now)]
      ensures rounds == old(rounds)[..|old(rounds)| - 1] + [old(rounds)[|old(rounds)| - 1].(state := state)]
    {
      state := InTime(script(step), script(step).state, timeout);
      calls := calls + [Call(now, timeout, state.Got?, now + Duration(script(step)))];
      var t := Clock();
      rounds := rounds[..|rounds| - 1] + [rounds[|rounds| - 1].(state := state)];
    }

    method FetchHealth() returns (payload: Answer<Fields>)
      requires rounds != []
      modifies this`now, this`step, this`requests, this`rounds
      ensures Here() == Next(script, old(Here()))
      ensures payload == Sometime(script(old(step)).payload)
      ensures requests == old(requests) + [now]
      ensures rounds == old(rounds)[..|old(rounds)| - 1] + [old(rounds)[|old(rounds)| - 1].(payload := payload)]
    {
      payload := Sometime(script(step).payload);
      var t := Clock();
      requests := requests + [now];
      rounds := rounds[..|rounds| - 1] + [rounds[|rounds| - 1].(payload := payload)];
    }

    /** One pass of the loop up to the point where it returns, raises or goes to sleep. */
    method Poll(expected: string, deadline: real) returns (reading: Reading)
      requires Bounded(calls, deadline)
      modifies this`now, this`step, this`calls, this`requests, this`rounds
      ensures (reading, Here()) == PollOf(script, old(Here()), expected, deadline) && now >= old(now)
      ensures Bounded(calls, deadline)
      ensures rounds == old(rounds) ==> reading == CutOff
      ensures rounds != old(rounds) ==> AddedRound(old(rounds), rounds, expected, reading) && old(now) < deadline
      ensures reading == CutOff ==> now >= deadline
      ensures reading == Converged ==> requests != [] && now == requests[|requests| - 1]
      ensures reading.Fatal? ==> calls != [] && now == calls[|calls| - 1].end
      ensures reading.Fatal? && reading.failure != ListFailed && reading.failure != InspectFailed ==> now <= deadline
    {
      hide InspectOf, ReadPayload, Bounded;
      var t := Clock();
      if deadline - t <= 0.0 { return CutOff; }
      ghost var made := calls;
      var ids := ListContainers(deadline - t);
      OneMoreCall(made, calls[|made|], deadline);
      if ids.CallFailed? { return Fatal(ListFailed); }
      if |ids.value| != 1 { return Fatal(NotSole(|ids.value|)); }
      if ids.value[0] != expected { return Fatal(ContainerChanged); }
      assert ids.value == [expected];
      t := Clock();
      if deadline - t <= 0.0 { return CutOff; }
      reading := InspectAndFetch(expected, deadline);
    }

    /** The second half of a round, which has listed the expected container. */
    method InspectAndFetch(expected: string, deadline: real) returns (reading: Reading)
      requires rounds != [] && Bounded(calls, deadline) && now < deadline
      requires var listed := rounds[|rounds| - 1];
              Sole(listed, expected) && listed.state.NotAsked? && listed.payload.NotAsked?
      modifies this`now, this`step, this`calls, this`requests, this`rounds
      ensures (reading, Here())
          == InspectOf(script, old(Here()), old(rounds)[|old(rounds)| - 1], expected, deadline) && now >= old(now)
      ensures Bounded(calls, deadline)
      ensures rounds != [] && rounds[..|rounds| - 1] == old(rounds)[..|old(rounds)| - 1]
      ensures reading == Read(rounds[|rounds| - 1], expected)
      ensures reading == CutOff ==> now >= deadline
      ensures reading == Converged ==> requests != [] && now == requests[|requests| - 1]
      ensures reading.Fatal? ==>
          calls != [] && now == calls[|calls| - 1].end && (reading.failure != InspectFailed ==> now <= deadline)
      ensures reading != Fatal(ListFailed)
    {
      hide Bounded;
      StatusesDiffer();
      ghost var made := calls;
      var state := InspectState(deadline - now);
      OneMoreCall(made, calls[|made|], deadline);
      if state.CallFailed? { return Fatal(InspectFailed); }
      if Get(state.value, "Running") != True { return Fatal(NotRunning); }
      var health := Get(state.value, "Health");
      if !health.Object? { return Fatal(NoHealthState); }
      var status := Get(health.fields, "Status");
      if status == Text("healthy") {
        var t := Clock();
        if deadline - t <= 0.0 { return CutOff; }
        var payload := FetchHealth();
        reading := ReadPayload(payload);
      } else if status == Text("unhealthy") {
        return Fatal(Unhealthy);
      } else if status != Text("starting") {
        return Fatal(Unsupported);
      } else {
        return Retry(None);
      }
    }

    /** A round and the sleep after it, unless it decides the outcome. */
    method RoundAndSleep(expected: string, deadline: real, poll: real, last: Option<OperationalError>, ghost k: nat,
        ghost left: nat, ghost start: real)
      returns (outcome: Option<Outcome>, next: Option<OperationalError>)
      requires Bounded(calls, deadline) && AllRetried(rounds, expected, last, k) && left > 0
          && OnPace(start, k, poll, now, deadline)
      requires Paced(naps, poll, deadline) && |naps| == k && poll > 0.0
      modifies this`now, this`step, this`calls, this`requests, this`rounds, this`naps
      ensures Bounded(calls, deadline) && Paced(naps, poll, deadline)
      ensures |naps| == if outcome.None? then k + 1 else k
      ensures |rounds| == k || (|rounds| == k + 1 && old(now) < deadline)
      ensures outcome.Some? ==> Explains(rounds, expected, outcome.value) && !outcome.value.InvalidArguments?
      ensures outcome.Some? ==>
          WaitFrom(script, old(Here()), expected, deadline, poll, last, left) == (outcome.value, Here())
      ensures outcome.Some? ==> Decided(outcome.value, now, calls, requests, deadline)
      ensures outcome.None? ==> AllRetried(rounds, expected, next, k + 1) && OnPace(start, k + 1, poll, now, deadline)
      ensures outcome.None? ==>
                WaitFrom(script, old(Here()), expected, deadline, poll, last, left)
                == WaitFrom(script, Here(), expected, deadline, poll, next, left - 1)
    {
      hide Read, PollOf, Bounded, WaitFrom, OnPace, AllRetried, AddedRound, Explains, LastError, Shorter,
        Paced;
      ghost var before, head := rounds, Here();
      assert |rounds| == k by { CountsRounds(rounds, expected, last, k); }
      var reading := Poll(expected, deadline);
      WaitUnfolds(script, head, expected, deadline, poll, last, left);
      Explained(before, rounds, expected, last, k, reading);
      next := last;
      match reading
      case CutOff =>
        return Some(TimedOut(last)), last;
      case Fatal(failure) =>
        return Some(Failed(failure)), last;
      case Converged =>
        return Some(Healthy), last;
      case Retry(error) =>
        if error.Some? { next := error; }
      var t := Clock();
      if deadline - t <= 0.0 { return Some(TimedOut(next)), next; }
      OneMoreNap(naps, poll, t, deadline);
      Sleep(Shorter(poll, deadline - t));
      PaceGoesOn(start, k, poll, head.now, t, now, deadline);
      outcome := None;
    }

    /** The loop of the wait, from the first moment on. */
    method WaitUntil(expected: string, deadline: real, timeout: real, poll: real) returns (outcome: Outcome)
      requires calls == [] && requests == [] && rounds == [] && naps == []
      requires poll > 0.0 && deadline == now + timeout
      modifies this`now, this`step, this`calls, this`requests, this`rounds, this`naps
      ensures (outcome, Here())
          == WaitFrom(script, old(Here()), expected, deadline, poll, None, RoundLimit(timeout, poll) + 1)
      ensures !outcome.InvalidArguments? && Explains(rounds, expected, outcome)
      ensures Bounded(calls, deadline) && Decided(outcome, now, calls, requests, deadline)
      ensures |rounds| <= RoundLimit(timeout, poll)
      ensures Paced(naps, poll, deadline) && |naps| <= |rounds| <= |naps| + 1
    {
      hide *;
      ghost var start, bound, k := now, RoundLimit(timeout, poll), 0;
      var last: Option<OperationalError> := None;
      NothingYet(expected, poll, deadline);
      PaceBegins(start, poll, deadline);
      while true
        invariant k <= bound && AllRetried(rounds, expected, last, k) && Bounded(calls, deadline)
        invariant OnPace(start, k, poll, now, deadline) && Paced(naps, poll, deadline) && |naps| == k
        invariant WaitFrom(script, Here(), expected, deadline, poll, last, bound + 1 - k)
                  == WaitFrom(script, old(Here()), expected, deadline, poll, None, bound + 1)
        decreases bound - k
      {
        ghost var began := now;
        var decided, next := RoundAndSleep(expected, deadline, poll, last, k, bound + 1 - k, start);
        if |rounds| == k + 1 { PaceBoundsRounds(start, k, timeout, poll, began); }
        if decided.Some? { return decided.value; }
        CountsRounds(rounds, expected, next, k + 1);
        last, k := next, k + 1;
      }
    }

    /** `wait_for_deployment_health`. */
    method WaitForDeploymentHealth(expected: string, timeout: real, poll: real)
      returns (outcome: Outcome, ghost deadline: real)
      requires calls == [] && requests == [] && rounds == [] && naps == []
      modifies this
      ensures (outcome, Here()) == WaitOf(script, old(Here()), expected, timeout, poll)
      ensures outcome.InvalidArguments? <==> timeout <= 0.0 || poll <= 0.0
      ensures Explains(rounds, expected, outcome)
      ensures deadline == Next(script, old(Here())).now + timeout
      ensures Bounded(calls, deadline)
      ensures outcome.InvalidArguments? || (Paced(naps, poll, deadline) && |naps| <= |rounds| <= |naps| + 1)
      ensures outcome.InvalidArguments? || |rounds| <= RoundLimit(timeout, poll)
      ensures outcome.InvalidArguments? || Decided(outcome, now, calls, requests, deadline)
    {
      hide WaitFrom, RoundLimit, Decided, Paced;
      deadline := Next(script, Here()).now + timeout;
      if timeout <= 0.0 || poll <= 0.0 { return InvalidArguments, deadline; }
      var start := Clock();
      outcome := WaitUntil(expected, start + timeout, timeout, poll);
    }
  }

  /** One round was added, and this is what it means. */
  predicate AddedRound(before: seq<Round>, after: seq<Round>, expected: string, reading: Reading) {
    |after| == |before| + 1 && after[..|before|] == before && reading == Read(after[|before|], expected)
  }

  /** So far every round asked for a retry; this is the last operational error. */
  predicate AllRetried(rounds: seq<Round>, expected: string, last: Option<OperationalError>, k: nat) {
    && |rounds| == k && last == LastError(rounds, expected)
    && forall i :: 0 <= i < |rounds| ==> Read(rounds[i], expected).Retry?
  }

  lemma CountsRounds(rounds: seq<Round>, expected: string, last: Option<OperationalError>, k: nat)
    requires AllRetried(rounds, expected, last, k)
    ensures |rounds| == k
  {
  }

  lemma NothingYet(expected: string, poll: real, deadline: real)
    ensures Bounded([], deadline) && AllRetried([], expected, None, 0) && Paced([], poll, deadline)
  {
  }

  /** One more round either goes on or explains the outcome. */
  lemma Explained(before: seq<Round>, rounds: seq<Round>, expected: string, last: Option<OperationalError>, k: nat,
      reading: Reading)
    requires AllRetried(before, expected, last, k)
    requires (rounds == before && reading == CutOff) || AddedRound(before, rounds, expected, reading)
    ensures |rounds| == if rounds == before then k else k + 1
    ensures reading.CutOff? ==> Explains(rounds, expected, TimedOut(last))
    ensures reading.Fatal? ==> Explains(rounds, expected, Failed(reading.failure))
    ensures reading.Converged? ==> Explains(rounds, expected, Healthy)
    ensures reading.Retry? ==>
              var now := if reading.error.Some? then reading.error else last;
              AllRetried(rounds, expected, now, k + 1) && Explains(rounds, expected, TimedOut(now))
  {
    hide Read;
    if rounds != before { assert rounds[..|rounds| - 1] == before; }
  }

  lemma WaitUnfolds(script: Script, m: Moment, expected: string, deadline: real, poll: real,
      last: Option<OperationalError>, left: nat)
    requires left > 0
    ensures var (reading, m1) := PollOf(script, m, expected, deadline);
            var w := WaitFrom(script, m, expected, deadline, poll, last, left);
            && (reading.CutOff? ==> w == (TimedOut(last), m1))
            && (reading.Fatal? ==> w == (Failed(reading.failure), m1))
            && (reading.Converged? ==> w == (Healthy, m1))
            && (reading.Retry? ==>
                  var now := if reading.error.Some? then reading.error else last;
                  var m2 := Next(script, m1);
                  w == if m2.now >= deadline then (TimedOut(now), m2)
                       else WaitFrom(script, Slept(script, m2, Shorter(poll, deadline - m2.now)), expected,
                         deadline, poll, now, left - 1))
  {
    hide PollOf;
  }

  // ---- convergence ----

  /** Nobody disturbs the deployment: every answer comes within the time, the expected
      container is the only one, and it runs and comes up. */
  ghost predicate Calm(script: Script, expected: string, takes: real) {
    forall i: nat :: CalmStep(script, i, expected, takes)
  }

  predicate CalmStep(script: Script, i: nat, expected: string, takes: real) {
    var e := script(i);
    && Duration(e) <= takes && e.ids == Got([expected])
    && e.state.Got? && (ComesUp(e.state.value, "starting") || ComesUp(e.state.value, "healthy"))
  }

  /** From this step on, all is well. */
  ghost predicate WellFrom(script: Script, from: nat) { forall i: nat :: i >= from ==> WellStep(script, i) }

  ghost predicate WellStep(script: Script, i: nat) {
    var e := script(i);
    && e.state.Got? && ComesUp(e.state.value, "healthy")
    && e.payload.Got? && exists workers: nat :: Operational(e.payload.value, workers)
  }

  /** So much time is enough for this many steps with a sleep after each. */
  function Allowance(steps: nat, takes: real, poll: real): real { steps as real * (takes + poll) }

  lemma AllowanceGrows(m: nat, n: nat, takes: real, poll: real)
    requires m <= n && takes >= 0.0 && poll > 0.0
    ensures Allowance(m, takes, poll) <= Allowance(n, takes, poll)
  {
    Scale(m as real, n as real, takes + poll);
  }

  lemma AllowanceAdds(m: nat, n: nat, takes: real, poll: real)
    ensures Allowance(m + n, takes, poll) == Allowance(m, takes, poll) + Allowance(n, takes, poll)
  {
    assert (m + n) as real == m as real + n as real;
    assert (m as real + n as real) * (takes + poll) == m as real * (takes + poll) + n as real * (takes + poll);
  }

  /** A round of a calm world that begins five steps before the deadline succeeds or is
      retried; once all is well it succeeds. */
  lemma CalmRound(script: Script, m: Moment, expected: string, takes: real, deadline: real)
    requires Calm(script, expected, takes) && takes >= 0.0 && m.now + 5.0 * takes < deadline
    ensures var (reading, m1) := PollOf(script, m, expected, deadline);
            && (reading.Converged? || reading.Retry?) && (WellFrom(script, m.step) ==> reading.Converged?)
            && m.now <= m1.now
            && ((m1.step == m.step + 4 && m1.now <= m.now + 4.0 * takes)
              || (m1.step == m.step + 6 && m1.now <= m.now + 6.0 * takes))
  {
    hide PollOf, InspectOf, Read, ReadPayload, ValidateOperationalHealth, ComesUp, Operational;
    var m1 := Next(script, m);
    var m2 := Next(script, m1);
    var m3 := Next(script, m2);
    var m4 := Next(script, m3);
    var m5 := Next(script, m4);
    assert CalmStep(script, m.step, expected, takes) && CalmStep(script, m1.step, expected, takes);
    assert CalmStep(script, m2.step, expected, takes) && CalmStep(script, m3.step, expected, takes);
    assert CalmStep(script, m4.step, expected, takes) && CalmStep(script, m5.step, expected, takes);
    CalmList(script, m, expected, takes, deadline);
    CalmInspect(script, m3, expected, takes, deadline);
    assert WellFrom(script, m.step) ==> WellStep(script, m3.step) && WellStep(script, m5.step);
  }

  lemma CalmList(script: Script, m: Moment, expected: string, takes: real, deadline: real)
    requires CalmStep(script, m.step + 1, expected, takes)
    requires var m1 := Next(script, m);
            m1.now + takes <= deadline && m1.now < deadline && Next(script, Next(script, m1)).now < deadline
    ensures var listed := Round(Got([expected]), NotAsked, NotAsked);
            PollOf(script, m, expected, deadline)
            == InspectOf(script, Next(script, Next(script, Next(script, m))), listed, expected, deadline)
  {
    ListedIsOpen(expected);
    hide Read, InspectOf, ComesUp;
  }

  lemma CalmInspect(script: Script, m: Moment, expected: string, takes: real, deadline: real)
    requires CalmStep(script, m.step, expected, takes) && m.now + takes <= deadline
    requires Next(script, Next(script, m)).now < deadline
    ensures var listed := Round(Got([expected]), NotAsked, NotAsked);
            var (reading, m1) := InspectOf(script, m, listed, expected, deadline);
            && (reading.Converged? || reading.Retry?)
            && (WellStep(script, m.step) && WellStep(script, m.step + 2) ==> reading.Converged?)
            && (m1 == Next(script, m) || m1 == Next(script, Next(script, Next(script, m))))
  {
    StatusesDiffer();
    var payload := script(m.step + 2).payload;
    if payload.Got? { AcceptsExactlyOperational(payload.value); }
    hide ValidateOperationalHealth, Operational;
  }

  /** Where the wait is: since the start at most the allowance of the steps has passed. */
  predicate Underway(start: Moment, m: Moment, takes: real, poll: real) {
    start.step <= m.step && start.now <= m.now <= start.now + Allowance(m.step - start.step, takes, poll)
  }

  lemma {:induction false} CalmRoundsConverge(script: Script, start: Moment, m: Moment, expected: string, takes: real,
      timeout: real, poll: real, last: Option<OperationalError>, n: nat, k: nat, left: nat)
    requires Calm(script, expected, takes) && WellFrom(script, start.step + n)
    requires takes >= 0.0 && poll > 0.0 && Allowance(n + 13, takes, poll) <= timeout
    requires Underway(start, m, takes, poll) && m.step < start.step + n + 8
    requires OnPace(start.now, k, poll, m.now, start.now + timeout) && k + left == RoundLimit(timeout, poll) + 1
    ensures var (outcome, end) := WaitFrom(script, m, expected, start.now + timeout, poll, last, left);
            outcome == Healthy && end.now <= start.now + Allowance(n + 13, takes, poll)
    decreases left
  {
    hide *;
    PaceLeaves(start, m, takes, timeout, poll, n, k);
    var next, m1 := CalmRoundGoesOn(script, start, m, expected, takes, timeout, poll, last, n, k, left);
    if WentOn(start, m1, takes, timeout, poll, n, k)
        && WaitFrom(script, m, expected, start.now + timeout, poll, last, left)
           == WaitFrom(script, m1, expected, start.now + timeout, poll, next, left - 1) {
      WentOnExactly(start, m1, takes, timeout, poll, n, k);
      CalmRoundsConverge(script, start, m1, expected, takes, timeout, poll, next, n, k + 1, left - 1);
    }
  }

  lemma PaceLeaves(start: Moment, m: Moment, takes: real, timeout: real, poll: real, n: nat, k: nat)
    requires takes >= 0.0 && poll > 0.0 && Allowance(n + 13, takes, poll) <= timeout
    requires Underway(start, m, takes, poll) && m.step < start.step + n + 8
    requires OnPace(start.now, k, poll, m.now, start.now + timeout)
    ensures k + 1 <= RoundLimit(timeout, poll)
  {
    TimeEnough(start, m, takes, poll, n);
    PaceBoundsRounds(start.now, k, timeout, poll, m.now);
  }

  /** A round in time either ends the wait well, or the wait goes on from a later moment. */
  lemma CalmRoundGoesOn(script: Script, start: Moment, m: Moment, expected: string, takes: real, timeout: real,
      poll: real, last: Option<OperationalError>, n: nat, k: nat, left: nat)
    returns (next: Option<OperationalError>, m1: Moment)
    requires Calm(script, expected, takes) && WellFrom(script, start.step + n)
    requires takes >= 0.0 && poll > 0.0 && Allowance(n + 13, takes, poll) <= timeout
    requires Underway(start, m, takes, poll) && m.step < start.step + n + 8
    requires OnPace(start.now, k, poll, m.now, start.now + timeout) && left > 0
    ensures var (outcome, end) := WaitFrom(script, m, expected, start.now + timeout, poll, last, left);
            || (outcome == Healthy && end.now <= start.now + Allowance(n + 13, takes, poll))
            || (WentOn(start, m1, takes, timeout, poll, n, k)
              && WaitFrom(script, m, expected, start.now + timeout, poll, last, left)
                 == WaitFrom(script, m1, expected, start.now + timeout, poll, next, left - 1))
  {
    hide *;
    var deadline := start.now + timeout;
    TimeEnough(start, m, takes, poll, n);
    CalmRound(script, m, expected, takes, deadline);
    WaitUnfolds(script, m, expected, deadline, poll, last, left);
    WellLater(script, start.step + n, m.step);
    var (reading, over) := PollOf(script, m, expected, deadline);
    next, m1 := last, m;
    if reading.Retry? {
      next := if reading.error.Some? then reading.error else last;
      m1 := CalmSleep(script, start, m, over, expected, takes, timeout, poll, n, k);
    }
  }

  ghost predicate WentOn(start: Moment, m: Moment, takes: real, timeout: real, poll: real, n: nat, k: nat) {
    && Underway(start, m, takes, poll) && m.step < start.step + n + 8
    && OnPace(start.now, k + 1, poll, m.now, start.now + timeout)
  }

  /** The sleep after a round that began before all was well. */
  lemma CalmSleep(script: Script, start: Moment, m: Moment, over: Moment, expected: string, takes: real, timeout: real,
      poll: real, n: nat, k: nat)
    returns (later: Moment)
    requires Calm(script, expected, takes)
    requires takes >= 0.0 && poll > 0.0 && Allowance(n + 13, takes, poll) <= timeout
    requires Underway(start, m, takes, poll) && m.step < start.step + n
    requires OnPace(start.now, k, poll, m.now, start.now + timeout) && m.now <= over.now
    requires (over.step == m.step + 4 && over.now <= m.now + 4.0 * takes)
        || (over.step == m.step + 6 && over.now <= m.now + 6.0 * takes)
    ensures var m2 := Next(script, over);
            && m2.now < start.now + timeout
            && later == Slept(script, m2, Shorter(poll, start.now + timeout - m2.now))
            && WentOn(start, later, takes, timeout, poll, n, k)
  {
    hide *;
    var deadline := start.now + timeout;
    TimeEnough(start, m, takes, poll, n);
    var m2 := Next(script, over);
    OneStep(script, over, expected, takes);
    OneStep(script, m2, expected, takes);
    SleepIsShort(script, m2, poll, deadline);
    later := Slept(script, m2, Shorter(poll, deadline - m2.now));
    UnderwayStill(start, m, later, takes, poll);
    PaceGoesOn(start.now, k, poll, m.now, m2.now, later.now, deadline);
    WentOnExactly(start, later, takes, timeout, poll, n, k);
  }

  lemma WentOnExactly(start: Moment, m: Moment, takes: real, timeout: real, poll: real, n: nat, k: nat)
    ensures WentOn(start, m, takes, timeout, poll, n, k) <==>
            && Underway(start, m, takes, poll) && m.step < start.step + n + 8
            && OnPace(start.now, k + 1, poll, m.now, start.now + timeout)
  {
  }

  lemma OneStep(script: Script, m: Moment, expected: string, takes: real)
    requires Calm(script, expected, takes) && takes >= 0.0
    ensures var m1 := Next(script, m); m1.step == m.step + 1 && m.now <= m1.now <= m.now + takes
  {
    assert CalmStep(script, m.step, expected, takes);
  }

  lemma SleepIsShort(script: Script, m: Moment, poll: real, deadline: real)
    requires m.now < deadline && poll > 0.0
    ensures var sleep := Shorter(poll, deadline - m.now);
            var m1, m2 := Next(script, m), Slept(script, m, sleep);
            && 0.0 < sleep <= poll && m2.step == m1.step && m2.now == m1.now + sleep
  {
  }

  lemma WellLater(script: Script, from: nat, m: nat)
    requires WellFrom(script, from)
    ensures from <= m ==> WellFrom(script, m)
  {
  }

  lemma TimeEnough(start: Moment, m: Moment, takes: real, poll: real, n: nat)
    requires Underway(start, m, takes, poll) && m.step < start.step + n + 8 && takes >= 0.0 && poll > 0.0
    ensures m.now + 6.0 * takes < start.now + Allowance(n + 13, takes, poll)
    ensures m.step < start.step + n ==> m.now + 8.0 * takes < start.now + Allowance(n + 13, takes, poll)
  {
    var steps := m.step - start.step;
    AllowanceAdds(steps, 6, takes, poll);
    AllowanceGrows(steps + 6, n + 13, takes, poll);
    if steps < n {
      AllowanceAdds(steps, 8, takes, poll);
      AllowanceGrows(steps + 8, n + 13, takes, poll);
    }
  }

  lemma UnderwayStill(start: Moment, m: Moment, later: Moment, takes: real, poll: real)
    requires Underway(start, m, takes, poll) && takes >= 0.0 && poll > 0.0
    requires m.now <= later.now
    requires (later.step == m.step + 6 && later.now <= m.now + 6.0 * takes + poll)
        || (later.step == m.step + 8 && later.now <= m.now + 8.0 * takes + poll)
    ensures Underway(start, later, takes, poll)
  {
    var more: nat := later.step - m.step;
    AllowanceAdds(m.step - start.step, more, takes, poll);
    assert more as real * (takes + poll) == more as real * takes + more as real * poll;
    Scale(1.0, more as real, poll);
  }

  /** The wait succeeds whenever it can: if nothing disturbs the deployment and all is well
      from the n-th step of the wait on, and that leaves time for thirteen more steps with a
      sleep after each, it ends healthy and within that time. */
  lemma CalmDeploymentConverges(script: Script, m: Moment, expected: string, takes: real, timeout: real, poll: real,
      n: nat)
    requires Calm(script, expected, takes) && WellFrom(script, m.step + 1 + n)
    requires takes >= 0.0 && poll > 0.0 && (n + 13) as real * (takes + poll) <= timeout
    ensures var (outcome, end) := WaitOf(script, m, expected, timeout, poll);
            outcome == Healthy && end.now <= Next(script, m).now + (n + 13) as real * (takes + poll)
  {
    hide WaitFrom, Calm, WellFrom, RoundLimit;
    var start := Next(script, m);
    assert (n + 13) as real * (takes + poll) > 0.0;
    assert Underway(start, start, takes, poll);
    PaceBegins(start.now, poll, start.now + timeout);
    CalmRoundsConverge(script, start, start, expected, takes, timeout, poll, None, n, 0,
      RoundLimit(timeout, poll) + 1);
  }

  // ---- a late success ----

  const GOOD_STATE: Fields := map["Running" := True, "Health" := Object(map["Status" := Text("healthy")])]

  const GOOD_PAYLOAD: Fields := map[
    "status" := Text("ok"), "mqtt_connected" := True,
    "acquisition" := Object(map["scheduler" := Object(map[
      "workers_healthy" := True, "expected_bus_workers" := Integer(3), "active_bus_workers" := Integer(3)])])]

  lemma GoodAnswers()
    ensures ValidateOperationalHealth(GOOD_PAYLOAD) == None
    ensures RunningWith(Round(NotAsked, Got(GOOD_STATE), NotAsked), "healthy")
  {
    var scheduler := GOOD_PAYLOAD["acquisition"].fields["scheduler"].fields;
    assert Get(scheduler, "workers_healthy") == True;
    assert Get(scheduler, "expected_bus_workers") == Integer(3) == Get(scheduler, "active_bus_workers");
    assert ValidateScheduler(scheduler) == None;
    assert Get(GOOD_PAYLOAD["acquisition"].fields, "scheduler").fields == scheduler;
    assert Get(GOOD_PAYLOAD, "status") == Text("ok") && Get(GOOD_PAYLOAD, "mqtt_connected") == True;
    assert Get(GOOD_STATE, "Health").fields == map["Status" := Text("healthy")];
  }

  /** A world in which every step takes 1.9 seconds and everything is well. With 10 seconds
      to go, the health request of the first round begins half a second before the deadline,
      its answer is accepted, and the wait succeeds 1.4 seconds late. */
  lemma HealthyButLate(expected: string) returns (script: Script)
    ensures WaitOf(script, Moment(0.0, 0), expected, 10.0, 1.0) == (Healthy, Moment(13.3, 7))
    ensures Next(script, Moment(0.0, 0)).now + 10.0 == 11.9
  {
    var e := Event(1.9, Got([expected]), Got(GOOD_STATE), Got(GOOD_PAYLOAD));
    script := n => e;
    GoodAnswers();
    var whole := Round(Got([expected]), Got(GOOD_STATE), Got(GOOD_PAYLOAD));
    ConvergedExactly(whole, expected);
    assert Read(whole, expected) == Converged;
    ListedIsOpen(expected);
    InspectedIsOpen(expected);
    hide Read, RoundLimit, ValidateOperationalHealth, GOOD_STATE, GOOD_PAYLOAD, RunningWith;
    assert InspectOf(script, Moment(7.6, 4), Round(Got([expected]), NotAsked, NotAsked), expected, 11.9)
      == (Converged, Moment(13.3, 7));
    assert PollOf(script, Moment(1.9, 1), expected, 11.9) == (Converged, Moment(13.3, 7));
    WaitUnfolds(script, Moment(1.9, 1), expected, 11.9, 1.0, None, RoundLimit(10.0, 1.0) + 1);
    hide PollOf, WaitFrom;
  }

  lemma ListedIsOpen(expected: string)
    ensures Read(Round(Got([expected]), NotAsked, NotAsked), expected) == CutOff
  {
  }

  lemma InspectedIsOpen(expected: string)
    ensures Read(Round(Got([expected]), Got(GOOD_STATE), NotAsked), expected) == CutOff
  {
    GoodAnswers();
    StatusesDiffer();
    hide GOOD_STATE;
  }
}
