/**
  A small outbox driver that does exactly what the docstring of the receipt contract
  demands of its caller. The repository does not wire the contract up; this driver is
  the docstring's reading, not code of the repository.

  The expectations of a call come from the local configuration and from the outbox
  row that the receipt names; a receipt that names no row is dropped before the call.
 */
module Outbox {
  import opened Wrappers
  import opened DurableReceipt
  import opened Uuid

  datatype Event = Event(id: string, sequence: int)

  datatype Node = Node(
    lib: Library, organizationId: string, nodeId: string,
    remembersSpooled: bool)   // whether informational receipts enter the ledger too

  datatype Message = Message(payload: Payload, topic: string, authorized: bool)

  /** A deletion together with what authorised it. */
  datatype Pruned = Pruned(event: Event, receipt: Receipt, clock: Stamp)

  datatype State = State(
    pending: seq<Event>,      // in sequence order
    seen: set<string>,        // the replay ledger
    enqueued: seq<Event>,     // everything ever stored
    pruned: seq<Pruned>)      // everything ever deleted

  datatype Input =
    | Enqueue(event: Event)
    | Deliver(message: Message, clock: Stamp)

  const EMPTY := State([], {}, [], [])

  /** The event id that the payload claims to answer. */
  function Claim(m: Message): Option<string> {
    if !m.payload.decoded.Pairs? || Collect(m.payload.decoded.pairs) == None then None
    else
      var r := Collect(m.payload.decoded.pairs).value;
      if "event_id" in r && r["event_id"].Text? then Some(r["event_id"].s) else None
  }

  function Lookup(pending: seq<Event>, id: string): Option<nat> {
    if pending == [] then None
    else if pending[0].id == id then Some(0)
    else
      match Lookup(pending[1..], id)
      case None => None
      case Some(i) => Some(i + 1)
  }

  function Find(s: State, m: Message): Option<nat> {
    if Claim(m) == None then None else Lookup(s.pending, Claim(m).value)
  }

  function CallFor(node: Node, s: State, m: Message, e: Event, clock: Stamp): Call
    requires s.pending != []
  {
    Call(m.topic, m.authorized, e.id, node.organizationId, node.nodeId, e.sequence, s.pending[0].sequence,
      Some(s.seen), clock)
  }

  function Judge(node: Node, s: State, m: Message, i: nat, clock: Stamp): Verdict
    requires i < |s.pending|
  {
    Validate(node.lib, m.payload, CallFor(node, s, m, s.pending[i], clock))
  }

  function ReceiptOf(m: Message): Receipt {
    if m.payload.decoded.Pairs? && Collect(m.payload.decoded.pairs).Some?
    then Collect(m.payload.decoded.pairs).value
    else map[]
  }

  function ReceiptId(m: Message): string {
    if "receipt_id" in ReceiptOf(m) then StringOf(ReceiptOf(m)["receipt_id"]) else ""
  }

  /** New rows carry fresh ids and growing sequence numbers. */
  predicate MayEnqueue(s: State, e: Event) {
    && e.sequence >= 1 && (forall f :: f in s.enqueued ==> f.id != e.id && f.sequence < e.sequence)
  }

  /** The state after the head was deleted under this message. */
  function WithoutHead(s: State, m: Message, clock: Stamp): State
    requires s.pending != []
  {
    s.(pending := s.pending[1..], seen := s.seen + {ReceiptId(m)},
       pruned := s.pruned + [Pruned(s.pending[0], ReceiptOf(m), clock)])
  }

  function Step(node: Node, s: State, input: Input): State {
    match input
    case Enqueue(e) =>
      if MayEnqueue(s, e) then s.(pending := s.pending + [e], enqueued := s.enqueued + [e]) else s
    case Deliver(m, clock) =>
      LookupFinds(s.pending, if Claim(m).Some? then Claim(m).value else "");
      match Find(s, m)
      case None => s
      case Some(i) =>
        match Judge(node, s, m, i, clock)
        case Reject(_) => s
        case Informational => if node.remembersSpooled then s.(seen := s.seen + {ReceiptId(m)}) else s
        case PruneAllowed =>
          s.(pending := s.pending[..i] + s.pending[i + 1..],
             seen := s.seen + {ReceiptId(m)},
             pruned := s.pruned + [Pruned(s.pending[i], ReceiptOf(m), clock)])
  }

  function Run(node: Node, s: State, inputs: seq<Input>): State
    decreases |inputs|
  {
    if inputs == [] then s else Run(node, Step(node, s, inputs[0]), inputs[1..])
  }

  // ---- safety ----

  function Events(pruned: seq<Pruned>): seq<Event> { seq(|pruned|, i requires 0 <= i < |pruned| => pruned[i].event) }

  predicate Growing(events: seq<Event>) {
    forall i, j :: 0 <= i < j < |events| ==> events[i].sequence < events[j].sequence && events[i].id != events[j].id
  }

  /** A fresh final receipt for that event, at that node. */
  predicate Authorised(node: Node, p: Pruned) {
    var call := Call("", true, p.event.id, node.organizationId, node.nodeId, p.event.sequence, 0, None, p.clock);
    Matches(node.lib, p.receipt, call, "postgres_committed")
  }

  function IdIn(r: Receipt): string {
    if "receipt_id" in r then StringOf(r["receipt_id"]) else ""
  }

  /** No receipt id served for two deletions. */
  predicate OncePerReceipt(pruned: seq<Pruned>) {
    forall i, j :: 0 <= i < j < |pruned| ==> IdIn(pruned[i].receipt) != IdIn(pruned[j].receipt)
  }

  ghost predicate Inv(node: Node, s: State) {
    && s.enqueued == Events(s.pruned) + s.pending
    && Growing(s.enqueued)
    && (forall p :: p in s.pruned ==> Authorised(node, p) && IdIn(p.receipt) in s.seen)
    && OncePerReceipt(s.pruned)
  }

  predicate Final(m: Message) {
    "receipt_level" in ReceiptOf(m) && ReceiptOf(m)["receipt_level"] == Text("postgres_committed")
  }

  lemma {:induction false} LookupFinds(pending: seq<Event>, id: string)
    ensures Lookup(pending, id).Some? ==>
        Lookup(pending, id).value < |pending| && pending[Lookup(pending, id).value].id == id
    ensures Lookup(pending, id).None? <==> forall e :: e in pending ==> e.id != id
  {
    if pending != [] {
      LookupFinds(pending[1..], id);
      assert forall e :: e in pending <==> e == pending[0] || e in pending[1..];
    }
  }

  lemma PendingGrows(node: Node, s: State)
    requires Inv(node, s)
    ensures Growing(s.pending)
    ensures forall p, e :: p in s.pruned && e in s.pending ==> p.event.id != e.id
  {
    hide Authorised;
    var n := |Events(s.pruned)|;
    assert forall i :: 0 <= i < |s.pending| ==> s.pending[i] == s.enqueued[n + i];
    assert forall i :: 0 <= i < |s.pruned| ==> s.pruned[i].event == s.enqueued[i];
  }

  /** What a message may be judged to be: a fresh informational receipt for the event at
      that position, or a fresh final one for the head. */
  lemma Judged(node: Node, s: State, m: Message, i: nat, clock: Stamp)
    requires Growing(s.pending) && i < |s.pending|
    ensures Judge(node, s, m, i, clock) == PruneAllowed ==>
              && i == 0 && Final(m) && ReceiptId(m) !in s.seen
              && Authorised(node, Pruned(s.pending[i], ReceiptOf(m), clock))
    ensures Judge(node, s, m, i, clock) == Informational ==> !Final(m)
  {
    hide Canonical;
    PruneExactly(node.lib, m.payload, CallFor(node, s, m, s.pending[i], clock));
    InformsExactly(node.lib, m.payload, CallFor(node, s, m, s.pending[i], clock));
    hide Validate, Collect;
    assert "durably_spooled"[0] == 'd' && "postgres_committed"[0] == 'p';
  }

  /** A delivery changes nothing, or notes an informational receipt, or deletes the head
      under its own unused final receipt. */
  lemma DeliverDoesOneOfThree(node: Node, s: State, m: Message, clock: Stamp)
    requires Growing(s.pending)
    ensures var t := Step(node, s, Deliver(m, clock));
            || t == s
            || (node.remembersSpooled && !Final(m) && t == s.(seen := s.seen + {ReceiptId(m)}))
            || (&& s.pending != [] && Claim(m) == Some(s.pending[0].id) && t == WithoutHead(s, m, clock)
                && Final(m) && ReceiptId(m) !in s.seen
                && Authorised(node, Pruned(s.pending[0], ReceiptOf(m), clock)))
  {
    hide Judge, Authorised, Final, ReceiptId, ReceiptOf, Claim, Growing, Lookup;
    if Find(s, m).Some? {
      LookupFinds(s.pending, Claim(m).value);
      Judged(node, s, m, Find(s, m).value, clock);
    }
  }

  lemma EnqueueKeepsInv(node: Node, s: State, e: Event)
    requires Inv(node, s) && MayEnqueue(s, e)
    ensures Inv(node, s.(pending := s.pending + [e], enqueued := s.enqueued + [e]))
  {
    hide Authorised;
    var enqueued := s.enqueued + [e];
    forall i, j | 0 <= i < j < |enqueued|
      ensures enqueued[i].sequence < enqueued[j].sequence && enqueued[i].id != enqueued[j].id
    {
      if j == |s.enqueued| { assert s.enqueued[i] in s.enqueued; }
    }
    assert enqueued == Events(s.pruned) + (s.pending + [e]);
  }

  lemma PruneKeepsInv(node: Node, s: State, m: Message, clock: Stamp)
    requires Inv(node, s) && s.pending != [] && ReceiptId(m) !in s.seen
    requires Authorised(node, Pruned(s.pending[0], ReceiptOf(m), clock))
    ensures Inv(node, WithoutHead(s, m, clock))
  {
    hide Authorised, ReceiptOf;
    var p := Pruned(s.pending[0], ReceiptOf(m), clock);
    assert IdIn(p.receipt) == ReceiptId(m);
    assert Events(s.pruned + [p]) == Events(s.pruned) + [s.pending[0]];
    assert s.enqueued == Events(s.pruned + [p]) + s.pending[1..];
    forall i | 0 <= i < |s.pruned| ensures IdIn(s.pruned[i].receipt) != IdIn(p.receipt) {
      assert s.pruned[i] in s.pruned;
    }
  }

  lemma StepKeepsInv(node: Node, s: State, input: Input)
    requires Inv(node, s)
    ensures Inv(node, Step(node, s, input))
  {
    match input
    case Enqueue(e) =>
      if MayEnqueue(s, e) { EnqueueKeepsInv(node, s, e); }
    case Deliver(m, clock) =>
      PendingGrows(node, s);
      DeliverDoesOneOfThree(node, s, m, clock);
      var t := Step(node, s, input);
      if s.pending != [] && t == WithoutHead(s, m, clock) && t != s && t.pending != s.pending {
        PruneKeepsInv(node, s, m, clock);
      }
      hide Step, Authorised, ReceiptId, Final;
  }

  lemma {:induction false} RunKeepsInv(node: Node, s: State, inputs: seq<Input>)
    requires Inv(node, s)
    ensures Inv(node, Run(node, s, inputs))
    decreases |inputs|
  {
    if inputs != [] {
      StepKeepsInv(node, s, inputs[0]);
      RunKeepsInv(node, Step(node, s, inputs[0]), inputs[1..]);
    }
    hide Inv, Step;
  }

  /** Over every run, with any order, duplication and junk: what was deleted is a prefix,
      in sequence order, of what was stored, and the rest is still pending. */
  lemma DeletedIsPrefix(node: Node, inputs: seq<Input>)
    ensures var s := Run(node, EMPTY, inputs);
            s.enqueued == Events(s.pruned) + s.pending && Growing(s.enqueued)
  {
    RunKeepsInv(node, EMPTY, inputs);
    hide Run, Authorised;
  }

  /** Every deletion rests on a fresh final receipt for that very event, and no receipt
      id authorises two. */
  lemma DeletionsAreAuthorised(node: Node, inputs: seq<Input>)
    ensures var s := Run(node, EMPTY, inputs);
            && (forall p :: p in s.pruned ==> Authorised(node, p))
            && OncePerReceipt(s.pruned)
  {
    RunKeepsInv(node, EMPTY, inputs);
    hide Run, Authorised;
  }

  /** Nothing that was stored is ever forgotten. */
  lemma {:induction false} StoredStays(node: Node, s: State, inputs: seq<Input>)
    ensures s.enqueued <= Run(node, s, inputs).enqueued
    decreases |inputs|
  {
    if inputs != [] {
      StoredStays(node, Step(node, s, inputs[0]), inputs[1..]);
      hide Judge, ReceiptId, ReceiptOf, MayEnqueue;
    }
  }

  /** A new event with a fresh id and the next sequence number is stored, and from then on it
      is pending or was deleted under its own receipt. */
  lemma AdmittedIsKept(node: Node, s: State, e: Event, inputs: seq<Input>)
    requires Inv(node, s) && e.sequence >= 1
    requires forall f :: f in s.enqueued ==> f.id != e.id && f.sequence < e.sequence
    ensures var t := Run(node, Step(node, s, Enqueue(e)), inputs);
            e in t.pending || exists p :: p in t.pruned && p.event == e && Authorised(node, p)
  {
    var stored := Step(node, s, Enqueue(e));
    assert stored.enqueued == s.enqueued + [e];
    hide *;
    StepKeepsInv(node, s, Enqueue(e));
    RunKeepsInv(node, stored, inputs);
    StoredStays(node, stored, inputs);
    var t := Run(node, stored, inputs);
    assert e == stored.enqueued[|s.enqueued|] == t.enqueued[|s.enqueued|];
    PendingOrPruned(node, t, |s.enqueued|);
  }

  lemma PendingOrPruned(node: Node, s: State, i: nat)
    requires Inv(node, s) && i < |s.enqueued|
    ensures var e := s.enqueued[i];
            e in s.pending || exists p :: p in s.pruned && p.event == e && Authorised(node, p)
  {
    hide Authorised;
    if i < |s.pruned| {
      assert s.pruned[i] in s.pruned && s.pruned[i].event == s.enqueued[i];
    } else {
      assert s.enqueued[i] == s.pending[i - |s.pruned|];
    }
  }

  /** Informational receipts, and anything else that is not final, never delete. */
  lemma {:induction false} OnlyFinalDeletes(node: Node, s: State, inputs: seq<Input>)
    requires Inv(node, s)
    requires forall i :: 0 <= i < |inputs| && inputs[i].Deliver? ==> !Final(inputs[i].message)
    ensures Run(node, s, inputs).pruned == s.pruned
    decreases |inputs|
  {
    if inputs != [] {
      StepKeepsInv(node, s, inputs[0]);
      if inputs[0].Deliver? {
        PendingGrows(node, s);
        DeliverDoesOneOfThree(node, s, inputs[0].message, inputs[0].clock);
        hide Authorised;
      }
      OnlyFinalDeletes(node, Step(node, s, inputs[0]), inputs[1..]);
    }
    hide Inv, Final, Find, Judge, Authorised;
  }

  /** A receipt for an event that is gone changes nothing, in any later state. */
  lemma ReplayAfterDeletionIsIgnored(node: Node, s: State, p: Pruned, m: Message, clock: Stamp)
    requires Inv(node, s) && p in s.pruned && Claim(m) == Some(p.event.id)
    ensures Step(node, s, Deliver(m, clock)) == s
  {
    PendingGrows(node, s);
    LookupFinds(s.pending, p.event.id);
    hide Judge, Authorised;
  }

  // ---- the outbox drains ----

  function CallAlone(node: Node, m: Message, e: Event, clock: Stamp): Call {
    Call(m.topic, m.authorized, e.id, node.organizationId, node.nodeId, e.sequence, e.sequence, Some({}), clock)
  }

  /** A fresh matching final receipt for the event, judged as if it were the oldest one
      and no receipt had been seen. */
  predicate Ready(node: Node, m: Message, e: Event, clock: Stamp) {
    Validate(node.lib, m.payload, CallAlone(node, m, e, clock)) == PruneAllowed
  }

  /** What the ready receipts need of everything else on the wire: their ids are theirs. */
  ghost predicate Respects(node: Node, good: set<Message>, m: Message) {
    forall g :: g in good && ReceiptId(g) == ReceiptId(m) ==>
      Claim(g) == Claim(m) && (Final(m) || !node.remembersSpooled)
  }

  /** A round of deliveries, in any order, repeated at will and mixed with other traffic:
      every good receipt comes at least once and is ready whenever it comes. */
  ghost predicate Round(node: Node, pending: seq<Event>, good: set<Message>, round: seq<Input>) {
    && Tail(node, pending, good, round)
    && (forall g :: g in good ==> exists i :: 0 <= i < |round| && round[i].message == g)
  }

  predicate Answers(good: set<Message>, input: Input, e: Event) {
    input.Deliver? && input.message in good && Claim(input.message) == Some(e.id)
  }

  /** The first two conditions of a round, which every suffix of it meets too. */
  ghost predicate Tail(node: Node, pending: seq<Event>, good: set<Message>, round: seq<Input>) {
    && (forall i :: 0 <= i < |round| ==> round[i].Deliver? && Respects(node, good, round[i].message))
    && (forall i, e :: 0 <= i < |round| && e in pending && Answers(good, round[i], e) ==>
          Ready(node, round[i].message, e, round[i].clock))
  }

  ghost predicate AnsweredBy(s: State, e: Event, g: Message) {
    Claim(g) == Some(e.id) && ReceiptId(g) !in s.seen
  }

  /** Every pending event has an unused good receipt. */
  ghost predicate Answered(s: State, good: set<Message>) {
    forall e :: e in s.pending ==> exists g :: g in good && AnsweredBy(s, e, g)
  }

  function RunRounds(node: Node, s: State, rounds: seq<seq<Input>>): State
    decreases |rounds|
  {
    if rounds == [] then s else RunRounds(node, Run(node, s, rounds[0]), rounds[1..])
  }

  /** The verdict on the head's receipt does not depend on which other ids were seen. */
  lemma ReadyHeadIsPruned(node: Node, s: State, m: Message, clock: Stamp)
    requires s.pending != [] && Ready(node, m, s.pending[0], clock) && ReceiptId(m) !in s.seen
    ensures Step(node, s, Deliver(m, clock)) == WithoutHead(s, m, clock)
  {
    var e := s.pending[0];
    PruneExactly(node.lib, m.payload, CallAlone(node, m, e, clock));
    PruneExactly(node.lib, m.payload, CallFor(node, s, m, e, clock));
    hide Validate, Canonical, Collect;
    assert Claim(m) == Some(e.id);
  }

  /** A good receipt that comes before its turn is refused as out of order and not used up. */
  lemma OutOfOrderConsumesNothing(node: Node, s: State, m: Message, i: nat, clock: Stamp)
    requires Growing(s.pending) && 0 < i < |s.pending| && s.pending[0].sequence >= 1
    requires Ready(node, m, s.pending[i], clock) && ReceiptId(m) !in s.seen
    ensures Judge(node, s, m, i, clock) == Reject(OutOfOrder)
    ensures Step(node, s, Deliver(m, clock)) == s
  {
    var e := s.pending[i];
    PruneExactly(node.lib, m.payload, CallAlone(node, m, e, clock));
    OutOfOrderExactly(node.lib, m.payload, CallFor(node, s, m, e, clock));
    hide Validate, Canonical, Collect, Lookup;
    LookupFinds(s.pending, e.id);
    assert Claim(m) == Some(e.id);
    assert Find(s, m) == Some(i);
  }

  /** One delivery of a round removes at most the head and leaves the rest answered. */
  lemma DeliveryKeepsAnswered(node: Node, s: State, good: set<Message>, m: Message, clock: Stamp)
    requires Inv(node, s) && Answered(s, good) && Respects(node, good, m)
    ensures var t := Step(node, s, Deliver(m, clock));
            && Answered(t, good)
            && (t.pending == s.pending || (s.pending != [] && t.pending == s.pending[1..]))
            && (t.pending == s.pending ==> forall e, g :: e in s.pending && g in good && AnsweredBy(s, e, g) ==>
              AnsweredBy(t, e, g))
  {
    hide Final, ReceiptId, Claim, Judge, Authorised, Step;
    PendingGrows(node, s);
    DeliverDoesOneOfThree(node, s, m, clock);
    var t := Step(node, s, Deliver(m, clock));
    forall e | e in t.pending ensures exists g :: g in good && AnsweredBy(t, e, g) {
      assert e in s.pending;
      var g :| g in good && AnsweredBy(s, e, g);
      assert t.pending != s.pending ==> e.id != s.pending[0].id;
      assert AnsweredBy(t, e, g);
    }
  }

  lemma TailShrinks(node: Node, pending: seq<Event>, good: set<Message>, round: seq<Input>, rest: seq<Event>)
    requires Tail(node, pending, good, round) && round != []
    requires rest == pending || (pending != [] && rest == pending[1..])
    ensures Tail(node, rest, good, round[1..])
  {
    hide Respects, Ready, Answers;
    assert forall i :: 0 <= i < |round| - 1 ==> round[1..][i] == round[i + 1];
    forall i, e | 0 <= i < |round| - 1 && e in rest && Answers(good, round[1..][i], e)
      ensures Ready(node, round[1..][i].message, e, round[1..][i].clock)
    {
      assert Answers(good, round[i + 1], e) && e in pending;
    }
  }

  /** A round never brings an event back and leaves the pending ones answered. */
  lemma {:induction false} RoundKeepsAnswered(node: Node, s: State, good: set<Message>, round: seq<Input>)
    requires Inv(node, s) && Answered(s, good) && Tail(node, s.pending, good, round)
    ensures var t := Run(node, s, round);
            Inv(node, t) && Answered(t, good) && |t.pending| <= |s.pending|
              && t.pending == s.pending[|s.pending| - |t.pending|..]
    decreases |round|
  {
    hide Inv, Answered, Respects, Ready, Claim, Step;
    if round != [] {
      assert round[0] == Deliver(round[0].message, round[0].clock);
      DeliveryKeepsAnswered(node, s, good, round[0].message, round[0].clock);
      StepKeepsInv(node, s, round[0]);
      var t := Step(node, s, round[0]);
      TailShrinks(node, s.pending, good, round, t.pending);
      RoundKeepsAnswered(node, t, good, round[1..]);
    }
  }

  /** A round in which the head's receipt is still to come deletes the head. */
  lemma {:induction false} RoundShrinks(node: Node, s: State, good: set<Message>, round: seq<Input>, k: nat)
    requires Inv(node, s) && Answered(s, good) && Tail(node, s.pending, good, round)
    requires s.pending != [] && k < |round| && round[k].message in good && AnsweredBy(s, s.pending[0], round[k].message)
    ensures |Run(node, s, round).pending| < |s.pending|
    decreases |round|
  {
    hide Inv, Answered, Respects, Ready, Step, Claim, ReceiptId;
    var m, clock := round[0].message, round[0].clock;
    assert round[0] == Deliver(m, clock);
    var t := Step(node, s, round[0]);
    DeliveryKeepsAnswered(node, s, good, m, clock);
    StepKeepsInv(node, s, round[0]);
    TailShrinks(node, s.pending, good, round, t.pending);
    if k == 0 {
      assert s.pending[0] in s.pending && Answers(good, round[0], s.pending[0]);
      ReadyHeadIsPruned(node, s, m, clock);
    }
    if t.pending == s.pending {
      RoundShrinks(node, t, good, round[1..], k - 1);
    } else {
      RoundKeepsAnswered(node, t, good, round[1..]);
    }
  }

  lemma RoundDeletesTheHead(node: Node, s: State, good: set<Message>, round: seq<Input>)
    requires Inv(node, s) && Answered(s, good) && Round(node, s.pending, good, round)
    ensures var t := Run(node, s, round);
            && Inv(node, t) && Answered(t, good) && (s.pending != [] ==> |t.pending| < |s.pending|)
            && |t.pending| <= |s.pending| && t.pending == s.pending[|s.pending| - |t.pending|..]
  {
    hide Inv, Respects, Ready, AnsweredBy, Claim, Run;
    assert Tail(node, s.pending, good, round);
    RoundKeepsAnswered(node, s, good, round);
    if s.pending != [] {
      assert s.pending[0] in s.pending;
      var g :| g in good && AnsweredBy(s, s.pending[0], g);
      var k :| 0 <= k < |round| && round[k].message == g;
      RoundShrinks(node, s, good, round, k);
    }
  }

  /** As many rounds as there are pending events empty the outbox. */
  lemma {:induction false} RoundsDrain(node: Node, s: State, good: set<Message>, rounds: seq<seq<Input>>)
    requires Inv(node, s) && Answered(s, good) && |rounds| >= |s.pending|
    requires forall round :: round in rounds ==> Round(node, s.pending, good, round)
    ensures RunRounds(node, s, rounds).pending == []
    decreases |rounds|
  {
    if rounds != [] {
      var t := Run(node, s, rounds[0]);
      RoundDeletesTheHead(node, s, good, rounds[0]);
      forall round | round in rounds[1..] ensures Round(node, t.pending, good, round) {
        assert round in rounds;
        assert forall e :: e in t.pending ==> e in s.pending;
      }
      RoundsDrain(node, t, good, rounds[1..]);
    }
    hide Inv, Answered, Respects, Ready, Claim, Run;
  }
}
