/**
  The verdict of the durable receipt contract: may the outbox row that a receipt
  names be deleted? The contract is pure; storage and transport are the caller's.
 */
module DurableReceipt {
  import opened Wrappers
  import opened Uuid

  /** A JSON value, as far as the contract tells values apart. */
  datatype Value = Text(s: string) | Integer(n: int) | Other

  type Pair = (string, Value)
  type Receipt = map<string, Value>

  /** What decoding the payload yields. */
  datatype Decoded = Malformed | NotAnObject | Pairs(pairs: seq<Pair>)

  datatype Payload = Payload(size: nat, decoded: Decoded)

  /** A timestamp in seconds; without a zone it names no instant. */
  datatype Stamp = Stamp(seconds: int, zoned: bool)

  /** The parsers of the standard library that the contract relies on. */
  datatype Library = Library(lenientHex: string -> Option<nat>, timestamp: string -> Option<Stamp>)

  datatype Call = Call(
    topic: string, authorized: bool,
    eventId: string, organizationId: string, nodeId: string,
    sequence: int, oldest: int,
    seen: Option<set<string>>, clock: Stamp)

  datatype Reason =
    | ReplayLedgerRequired | PublisherNotAuthenticated | InvalidSize
    | InvalidExpectedId | InvalidNodeId | InvalidPendingSequence | InvalidOldestSequence
    | TopicMismatch | InvalidJson | DuplicateKey | InvalidFields | UnsupportedVersion
    | InvalidReceiptId | AlreadyProcessed | IdentityMismatch | SequenceMismatch
    | UnsupportedLevel | InvalidTimestamp | MissingZone | InvalidClock
    | FutureTimestamp | StaleTimestamp | OutOfOrder

  datatype Verdict = Informational | PruneAllowed | Reject(reason: Reason)

  const MAX_BYTES := 2048
  const FUTURE_LIMIT := 5 * 60
  const STALE_LIMIT := 7 * 24 * 3600

  const FIELDS: set<string> := {
    "contract_version", "receipt_id", "event_id", "organization_id",
    "node_id", "stream", "node_sequence", "receipt_level", "accepted_at"
  }

  predicate IsAlphanumeric(c: char) { 'A' <= c <= 'Z' || 'a' <= c <= 'z' || '0' <= c <= '9' }

  predicate IsNodeId(s: string) {
    && 1 <= |s| <= 128 && IsAlphanumeric(s[0])
    && forall c :: c in s ==> IsAlphanumeric(c) || c in "_.-"
  }

  function Topic(call: Call): string {
    "nexolab/v1/" + call.organizationId + "/" + call.nodeId + "/receipts"
  }

  // ---- reading the object ----

  /** The object with these pairs, unless a key is repeated. */
  function Collect(pairs: seq<Pair>): Option<Receipt>
    decreases |pairs|
  {
    if pairs == [] then Some(map[])
    else
      var m := Collect(pairs[..|pairs| - 1]);
      var (key, value) := pairs[|pairs| - 1];
      if m == None || key in m.value then None else Some(m.value[key := value])
  }

  /** `_reject_duplicates`. */
  method RejectDuplicates(pairs: seq<Pair>) returns (result: Option<Receipt>)
    ensures result == Collect(pairs)
  {
    var m: Receipt := map[];
    for i := 0 to |pairs|
      invariant Collect(pairs[..i]) == Some(m)
    {
      var (key, value) := pairs[i];
      assert pairs[..i + 1][..i] == pairs[..i];
      if key in m {
        RepeatedStaysRepeated(pairs, i + 1);
        return None;
      }
      m := m[key := value];
    }
    assert pairs[..|pairs|] == pairs;
    return Some(m);
  }

  lemma {:induction false} RepeatedStaysRepeated(pairs: seq<Pair>, n: nat)
    requires n <= |pairs| && Collect(pairs[..n]) == None
    ensures Collect(pairs) == None
    decreases |pairs|
  {
    if n < |pairs| {
      assert pairs[..|pairs| - 1][..n] == pairs[..n];
      RepeatedStaysRepeated(pairs[..|pairs| - 1], n);
    } else {
      assert pairs[..n] == pairs;
    }
  }

  function StringOf(v: Value): string { if v.Text? then v.s else "" }

  predicate IsUuid(lib: Library, v: Value) { v.Text? && Canonical(v.s, lib.lenientHex) }

  // ---- the verdict ----

  function Validate(lib: Library, payload: Payload, call: Call): Verdict {
    if call.seen == None then Reject(ReplayLedgerRequired)
    else if !call.authorized then Reject(PublisherNotAuthenticated)
    else if payload.size == 0 || payload.size > MAX_BYTES then Reject(InvalidSize)
    else if !Canonical(call.eventId, lib.lenientHex)
      || !Canonical(call.organizationId, lib.lenientHex) then Reject(InvalidExpectedId)
    else if !IsNodeId(call.nodeId) then Reject(InvalidNodeId)
    else if call.sequence < 1 then Reject(InvalidPendingSequence)
    else if call.oldest < 1 then Reject(InvalidOldestSequence)
    else if call.topic != Topic(call) then Reject(TopicMismatch)
    else
      match payload.decoded
      case Malformed => Reject(InvalidJson)
      case NotAnObject => Reject(InvalidFields)
      case Pairs(pairs) =>
        if Collect(pairs) == None then Reject(DuplicateKey) else ValidateReceipt(lib, Collect(pairs).value, call)
  }

  function ValidateReceipt(lib: Library, r: Receipt, call: Call): Verdict
    requires call.seen.Some?
  {
    if r.Keys != FIELDS then Reject(InvalidFields)
    else if r["contract_version"] != Integer(1) then Reject(UnsupportedVersion)
    else if !IsUuid(lib, r["receipt_id"]) then Reject(InvalidReceiptId)
    else if r["receipt_id"].s in call.seen.value then Reject(AlreadyProcessed)
    else if !IsUuid(lib, r["event_id"]) || !IsUuid(lib, r["organization_id"]) then Reject(InvalidReceiptId)
    else ValidateContents(lib, r, call)
  }

  function ValidateContents(lib: Library, r: Receipt, call: Call): Verdict
    requires r.Keys == FIELDS
  {
    if r["event_id"] != Text(call.eventId) || r["organization_id"] != Text(call.organizationId)
            || r["node_id"] != Text(call.nodeId) || r["stream"] != Text("telemetry") then Reject(IdentityMismatch)
    else if r["node_sequence"] != Integer(call.sequence) then Reject(SequenceMismatch)
    else if r["receipt_level"] != Text("durably_spooled")
      && r["receipt_level"] != Text("postgres_committed") then Reject(UnsupportedLevel)
    else if !r["accepted_at"].Text? || |r["accepted_at"].s| > 40
      || lib.timestamp(r["accepted_at"].s) == None then Reject(InvalidTimestamp)
    else ValidateTime(lib.timestamp(r["accepted_at"].s).value, r["receipt_level"] == Text("durably_spooled"), call)
  }

  function ValidateTime(accepted: Stamp, spooled: bool, call: Call): Verdict {
    if !accepted.zoned then Reject(MissingZone)
    else if !call.clock.zoned then Reject(InvalidClock)
    else if accepted.seconds > call.clock.seconds + FUTURE_LIMIT then Reject(FutureTimestamp)
    else if accepted.seconds < call.clock.seconds - STALE_LIMIT then Reject(StaleTimestamp)
    else if spooled then Informational
    else if call.sequence != call.oldest then Reject(OutOfOrder)
    else PruneAllowed
  }

  // ---- what a verdict rests on ----

  /** The receipt is a well-formed, authentic and fresh answer to the expected event,
      with this durability level. */
  predicate Matches(lib: Library, r: Receipt, call: Call, level: string) {
    && r.Keys == FIELDS
    && r["contract_version"] == Integer(1) && r["stream"] == Text("telemetry")
    && IsUuid(lib, r["receipt_id"]) && IsUuid(lib, r["event_id"]) && IsUuid(lib, r["organization_id"])
    && r["event_id"] == Text(call.eventId) && r["organization_id"] == Text(call.organizationId)
    && r["node_id"] == Text(call.nodeId) && r["node_sequence"] == Integer(call.sequence)
    && r["receipt_level"] == Text(level)
    && r["accepted_at"].Text? && |r["accepted_at"].s| <= 40
    && Fresh(lib.timestamp(r["accepted_at"].s), call.clock)
  }

  predicate Fresh(accepted: Option<Stamp>, clock: Stamp) {
    && accepted.Some? && accepted.value.zoned && clock.zoned
    && clock.seconds - STALE_LIMIT <= accepted.value.seconds <= clock.seconds + FUTURE_LIMIT
  }

  /** The caller did its part: a ledger, an authenticated publisher, sane expectations. */
  predicate TrustedCall(lib: Library, payload: Payload, call: Call) {
    && call.seen.Some? && call.authorized && 0 < payload.size <= MAX_BYTES
    && Canonical(call.eventId, lib.lenientHex) && Canonical(call.organizationId, lib.lenientHex)
      && IsNodeId(call.nodeId)
    && call.sequence >= 1 && call.oldest >= 1 && call.topic == Topic(call)
    && payload.decoded.Pairs?
  }

  lemma ReceiptPrunesExactly(lib: Library, r: Receipt, call: Call)
    requires call.seen.Some?
    ensures ValidateReceipt(lib, r, call) == PruneAllowed <==>
              && Matches(lib, r, call, "postgres_committed")
              && r["receipt_id"].s !in call.seen.value
              && call.sequence == call.oldest
  {
    hide Canonical;
    assert "durably_spooled"[0] == 'd' && "postgres_committed"[0] == 'p';
  }

  /** Deletion is allowed exactly for a fresh matching final receipt, not seen before,
      of the oldest pending event. */
  lemma PruneExactly(lib: Library, payload: Payload, call: Call)
    ensures Validate(lib, payload, call) == PruneAllowed <==>
              && TrustedCall(lib, payload, call)
              && Collect(payload.decoded.pairs).Some?
              && var r := Collect(payload.decoded.pairs).value;
              && Matches(lib, r, call, "postgres_committed")
              && r["receipt_id"].s !in call.seen.value
              && call.sequence == call.oldest
  {
    if TrustedCall(lib, payload, call) && Collect(payload.decoded.pairs).Some? {
      ReceiptPrunesExactly(lib, Collect(payload.decoded.pairs).value, call);
    }
    hide ValidateReceipt, Matches, Canonical;
  }

  lemma ReceiptInformsExactly(lib: Library, r: Receipt, call: Call)
    requires call.seen.Some?
    ensures ValidateReceipt(lib, r, call) == Informational <==>
              Matches(lib, r, call, "durably_spooled") && r["receipt_id"].s !in call.seen.value
  {
    hide Canonical;
    assert "durably_spooled"[0] == 'd' && "postgres_committed"[0] == 'p';
  }

  /** A receipt informs exactly when it is a fresh matching spool receipt not seen before;
      the order of the outbox does not matter for it. */
  lemma InformsExactly(lib: Library, payload: Payload, call: Call)
    ensures Validate(lib, payload, call) == Informational <==>
              && TrustedCall(lib, payload, call)
              && Collect(payload.decoded.pairs).Some?
              && var r := Collect(payload.decoded.pairs).value;
              && Matches(lib, r, call, "durably_spooled")
              && r["receipt_id"].s !in call.seen.value
  {
    if TrustedCall(lib, payload, call) && Collect(payload.decoded.pairs).Some? {
      ReceiptInformsExactly(lib, Collect(payload.decoded.pairs).value, call);
    }
    hide ValidateReceipt, Matches, Canonical;
  }

  lemma ReceiptIsEarlyExactly(lib: Library, r: Receipt, call: Call)
    requires call.seen.Some?
    ensures ValidateReceipt(lib, r, call) == Reject(OutOfOrder) <==>
              && Matches(lib, r, call, "postgres_committed")
              && r["receipt_id"].s !in call.seen.value
              && call.sequence != call.oldest
  {
    hide Canonical;
    assert "durably_spooled"[0] == 'd' && "postgres_committed"[0] == 'p';
  }

  /** A receipt is out of order exactly when it would allow the deletion but for an older
      event that still waits. */
  lemma OutOfOrderExactly(lib: Library, payload: Payload, call: Call)
    ensures Validate(lib, payload, call) == Reject(OutOfOrder) <==>
              && TrustedCall(lib, payload, call)
              && Collect(payload.decoded.pairs).Some?
              && var r := Collect(payload.decoded.pairs).value;
              && Matches(lib, r, call, "postgres_committed")
              && r["receipt_id"].s !in call.seen.value
              && call.sequence != call.oldest
  {
    if TrustedCall(lib, payload, call) && Collect(payload.decoded.pairs).Some? {
      ReceiptIsEarlyExactly(lib, Collect(payload.decoded.pairs).value, call);
    }
    hide ValidateReceipt, Matches, Canonical;
  }

  // ---- the order of the pairs ----

  predicate DistinctKeys(pairs: seq<Pair>) {
    forall i, j :: 0 <= i < j < |pairs| ==> pairs[i].0 != pairs[j].0
  }

  /** An object is read exactly when no key repeats, and then it is its set of pairs. */
  lemma {:induction false} CollectExactly(pairs: seq<Pair>)
    ensures Collect(pairs).Some? <==> DistinctKeys(pairs)
    ensures Collect(pairs).Some? ==> forall k, v :: (k, v) in pairs <==>
        k in Collect(pairs).value && Collect(pairs).value[k] == v
    decreases |pairs|
  {
    if pairs != [] {
      var init, last := pairs[..|pairs| - 1], pairs[|pairs| - 1];
      CollectExactly(init);
      assert pairs == init + [last] && last == (last.0, last.1);
      if Collect(init).Some? && last.0 in Collect(init).value {
        assert (last.0, Collect(init).value[last.0]) in init;
      }
      if !DistinctKeys(init) {
        var i, j :| 0 <= i < j < |init| && init[i].0 == init[j].0;
        assert pairs[i].0 == pairs[j].0;
      }
      if Collect(init).Some? && last.0 !in Collect(init).value {
        forall i | 0 <= i < |init| ensures init[i].0 != last.0 {
          assert init[i] in init && init[i] == (init[i].0, init[i].1);
        }
      }
    }
  }

  lemma TwiceInSequence<T>(s: seq<T>, x: T)
    requires multiset(s)[x] >= 2
    ensures exists i, j :: 0 <= i < j < |s| && s[i] == x && s[j] == x
  {
    assert x in s;
    var i :| 0 <= i < |s| && s[i] == x;
    assert s == s[..i] + [x] + s[i + 1..];
    assert multiset(s) == multiset(s[..i]) + multiset{x} + multiset(s[i + 1..]);
    if x in s[..i] {
      var j :| 0 <= j < i && s[..i][j] == x;
    } else {
      assert x in s[i + 1..];
      var j :| 0 <= j < |s| - i - 1 && s[i + 1..][j] == x;
      assert s[i + 1 + j] == x;
    }
  }

  lemma OccursTwice<T>(s: seq<T>, i: nat, j: nat)
    requires i < j < |s| && s[i] == s[j]
    ensures multiset(s)[s[i]] >= 2
  {
    assert s == s[..i] + [s[i]] + s[i + 1..j] + [s[j]] + s[j + 1..];
    assert multiset(s)
      == multiset(s[..i]) + multiset{s[i]} + multiset(s[i + 1..j]) + multiset{s[j]} + multiset(s[j + 1..]);
  }

  lemma PermutationKeepsDistinctKeys(p: seq<Pair>, q: seq<Pair>)
    requires multiset(p) == multiset(q) && DistinctKeys(p)
    ensures DistinctKeys(q)
  {
    forall i, j | 0 <= i < j < |q| ensures q[i].0 != q[j].0 {
      if q[i] == q[j] { OccursTwice(q, i, j); TwiceInSequence(p, q[i]); }
      assert q[i] in multiset(q) && q[j] in multiset(q);
      assert q[i] in p && q[j] in p;
    }
  }

  lemma PermutationReadsTheSame(p: seq<Pair>, q: seq<Pair>)
    requires multiset(p) == multiset(q)
    ensures Collect(p) == Collect(q)
  {
    CollectExactly(p);
    CollectExactly(q);
    hide Collect;
    if DistinctKeys(p) {
      PermutationKeepsDistinctKeys(p, q);
      PermutationHasSamePairs(p, q);
      SamePairsSameObject(p, q);
    } else if DistinctKeys(q) {
      PermutationKeepsDistinctKeys(q, p);
    }
  }

  lemma PermutationHasSamePairs(p: seq<Pair>, q: seq<Pair>)
    requires multiset(p) == multiset(q)
    ensures forall k, v :: (k, v) in p <==> (k, v) in q
  {
    forall k, v ensures (k, v) in p <==> (k, v) in q { assert (k, v) in multiset(p) <==> (k, v) in multiset(q); }
  }

  lemma SamePairsSameObject(p: seq<Pair>, q: seq<Pair>)
    requires Collect(p).Some? && Collect(q).Some? && forall k, v :: (k, v) in p <==> (k, v) in q
    ensures Collect(p) == Collect(q)
  {
    CollectExactly(p);
    CollectExactly(q);
    hide *;
    var m, n := Collect(p).value, Collect(q).value;
    forall k | k in m ensures k in n && n[k] == m[k] { assert (k, m[k]) in p; }
    forall k | k in n ensures k in m { assert (k, n[k]) in q; }
    assert m == n;
  }

  /** The verdict, reason included, does not depend on the order of the pairs. */
  lemma OrderOfPairsIsIrrelevant(lib: Library, size: nat, p: seq<Pair>, q: seq<Pair>, call: Call)
    requires multiset(p) == multiset(q)
    ensures Validate(lib, Payload(size, Pairs(p)), call) == Validate(lib, Payload(size, Pairs(q)), call)
  {
    PermutationReadsTheSame(p, q);
  }

  /** A repeated key is never accepted, not even with equal values. */
  lemma RepeatedKeyIsRefused(lib: Library, size: nat, pairs: seq<Pair>, call: Call, i: nat, j: nat)
    requires i < j < |pairs| && pairs[i].0 == pairs[j].0
    ensures Validate(lib, Payload(size, Pairs(pairs)), call).Reject?
  {
    CollectExactly(pairs);
  }
}
