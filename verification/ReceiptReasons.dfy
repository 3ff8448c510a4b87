/**
  Why a receipt is refused: the twenty-four checks of the contract one by one, on the
  topic's segments and the object's pairs as they came, and the first one that fails.
 */
module ReceiptReasons {
  import opened Wrappers
  import opened Uuid
  import opened DurableReceipt

  // ---- the topic ----

  /** The parts of a topic between its slashes. */
  function Segments(s: string): (r: seq<string>)
    ensures r != []
  {
    if s == "" then [""]
    else if s[0] == '/' then [""] + Segments(s[1..])
    else [[s[0]] + Segments(s[1..])[0]] + Segments(s[1..])[1..]
  }

  function Joined(parts: seq<string>): string
    requires parts != []
    decreases |parts|
  {
    if |parts| == 1 then parts[0] else parts[0] + "/" + Joined(parts[1..])
  }

  lemma {:induction false} JoinedSegments(s: string)
    ensures Joined(Segments(s)) == s
  {
    if s != "" {
      var rest := Segments(s[1..]);
      JoinedSegments(s[1..]);
      assert s == [s[0]] + s[1..];
      if s[0] == '/' {
        assert ([""] + rest)[1..] == rest;
        assert "" + "/" + Joined(rest) == ['/'] + s[1..];
      } else {
        var longer := [[s[0]] + rest[0]] + rest[1..];
        assert longer[1..] == rest[1..];
        if |rest| > 1 {
          assert [s[0]] + rest[0] + "/" + Joined(rest[1..]) == [s[0]] + (rest[0] + "/" + Joined(rest[1..]));
        }
      }
    }
  }

  lemma {:induction false} SegmentsOfPart(part: string, rest: string)
    requires '/' !in part
    ensures Segments(part + "/" + rest) == [part] + Segments(rest)
    decreases |part|
  {
    var whole := part + "/" + rest;
    if part == "" {
      assert whole[0] == '/' && whole[1..] == rest;
    } else {
      assert whole[0] == part[0] && whole[1..] == part[1..] + "/" + rest && part[0] in part;
      SegmentsOfPart(part[1..], rest);
      assert part == [part[0]] + part[1..];
      assert ([part[1..]] + Segments(rest))[1..] == Segments(rest);
    }
  }

  lemma {:induction false} SegmentsOfOne(part: string)
    requires '/' !in part
    ensures Segments(part) == [part]
  {
    if part != "" {
      assert part[0] in part && part == [part[0]] + part[1..];
      SegmentsOfOne(part[1..]);
    }
  }

  predicate NamesReceiptsOf(topic: string, organization: string, node: string) {
    Segments(topic) == ["nexolab", "v1", organization, node, "receipts"]
  }

  lemma FiveSegments(a: string, b: string, c: string, d: string, e: string)
    requires '/' !in a && '/' !in b && '/' !in c && '/' !in d && '/' !in e
    ensures Segments(a + "/" + (b + "/" + (c + "/" + (d + "/" + e)))) == [a, b, c, d, e]
  {
    hide Segments;
    SegmentsOfPart(a, b + "/" + (c + "/" + (d + "/" + e)));
    SegmentsOfPart(b, c + "/" + (d + "/" + e));
    SegmentsOfPart(c, d + "/" + e);
    SegmentsOfPart(d, e);
    SegmentsOfOne(e);
    assert [a] + ([b] + ([c] + ([d] + [e]))) == [a, b, c, d, e];
  }

  lemma TopicIsFive(call: Call)
    ensures Topic(call)
        == "nexolab" + "/" + ("v1" + "/" + (call.organizationId + "/" + (call.nodeId + "/" + "receipts")))
  {
    var o, n := call.organizationId, call.nodeId;
    assert "nexolab" + "/" + ("v1" + "/" + (o + "/" + (n + "/" + "receipts")))
      == "nexolab" + "/" + "v1" + "/" + o + "/" + n + "/" + "receipts";
    assert "nexolab" + "/" + "v1" + "/" == "nexolab/v1/" && "/" + "receipts" == "/receipts";
    assert "nexolab/v1/" + o + "/" + n + ("/" + "receipts") == "nexolab/v1/" + o + "/" + n + "/" + "receipts";
  }

  lemma FixedPartsHaveNoSlash()
    ensures '/' !in "nexolab" && '/' !in "v1" && '/' !in "receipts"
  {
  }

  /** The topic that a call must name: five parts, the third and the fourth its own. */
  lemma TopicExactly(call: Call)
    requires '/' !in call.organizationId && '/' !in call.nodeId
    ensures call.topic == Topic(call) <==> NamesReceiptsOf(call.topic, call.organizationId, call.nodeId)
  {
    FixedPartsHaveNoSlash();
    TopicIsFive(call);
    FiveSegments("nexolab", "v1", call.organizationId, call.nodeId, "receipts");
    JoinedSegments(call.topic);
    JoinedSegments(Topic(call));
    hide Segments, Joined, Topic;
  }

  lemma NodeIdHasNoSlash(s: string)
    requires IsNodeId(s)
    ensures '/' !in s
  {
    assert '/' !in "_.-";
  }

  lemma CanonicalHasNoSlash(s: string, lenient: string -> Option<nat>)
    requires Canonical(s, lenient)
    ensures '/' !in s
  {
    CanonicalIsPattern(s, lenient);
    hide Canonical;
    forall i | 0 <= i < |s| ensures s[i] != '/' {}
  }

  /** No topic serves two nodes: trusted calls with the same topic expect the same node of
      the same organization. */
  lemma TopicNamesItsNode(lib: Library, payload: Payload, a: Call, b: Call)
    requires TrustedCall(lib, payload, a) && TrustedCall(lib, payload, b) && a.topic == b.topic
    ensures a.organizationId == b.organizationId && a.nodeId == b.nodeId
  {
    NodeIdHasNoSlash(a.nodeId);
    NodeIdHasNoSlash(b.nodeId);
    CanonicalHasNoSlash(a.organizationId, lib.lenientHex);
    CanonicalHasNoSlash(b.organizationId, lib.lenientHex);
    TopicExactly(a);
    TopicExactly(b);
    var p, q := Segments(a.topic), Segments(b.topic);
    hide *;
    assert p[2] == a.organizationId && p[3] == a.nodeId && q[2] == b.organizationId && q[3] == b.nodeId;
  }

  // ---- the checks ----

  /** The value of a key, as it came first. */
  function Val(pairs: seq<Pair>, k: string): Value {
    if pairs == [] then Other else if pairs[0].0 == k then pairs[0].1 else Val(pairs[1..], k)
  }

  function KeysOf(pairs: seq<Pair>): set<string> { set p | p in pairs :: p.0 }

  /** What the first eleven checks find wrong with a call, before the object is looked at. */
  ghost predicate CallTrouble(lib: Library, payload: Payload, call: Call, n: nat) {
    match n
    case 0 => call.seen == None
    case 1 => !call.authorized
    case 2 => payload.size < 1 || payload.size > 2048
    case 3 => !Pattern(call.eventId) || !Pattern(call.organizationId)
    case 4 => !NodeText(call.nodeId)
    case 5 => call.sequence <= 0
    case 6 => call.oldest <= 0
    case 7 => !NamesReceiptsOf(call.topic, call.organizationId, call.nodeId)
    case 8 => payload.decoded.Malformed?
    case 9 => payload.decoded.Pairs? && !DistinctKeys(payload.decoded.pairs)
    case 10 => !payload.decoded.Pairs? || KeysOf(payload.decoded.pairs) != {"contract_version", "receipt_id",
        "event_id", "organization_id", "node_id", "stream", "node_sequence", "receipt_level", "accepted_at"}
    case _ => false
  }

  /** Up to 128 letters, digits, underscores, dots and dashes, the first a letter or digit. */
  predicate NodeText(s: string) {
    0 < |s| < 129 && forall i :: 0 <= i < |s| ==>
      s[i] in "0123456789" || 'a' <= s[i] <= 'z' || 'A' <= s[i] <= 'Z' || (i > 0 && s[i] in "_.-")
  }

  lemma NodeTextExactly(s: string)
    ensures IsNodeId(s) <==> NodeText(s)
  {
    forall c: char ensures '0' <= c <= '9' <==> c in "0123456789" {
      if '0' <= c <= '9' { assert "0123456789"[c as int - '0' as int] == c; }
    }
    if |s| > 0 { NoMarkIsAlphanumeric(s[0]); }
    if NodeText(s) {
      forall c | c in s ensures IsAlphanumeric(c) || c in "_.-" {
        var i :| 0 <= i < |s| && s[i] == c;
      }
    }
  }

  lemma NoMarkIsAlphanumeric(c: char)
    ensures c in "_.-" ==> !IsAlphanumeric(c)
  {
  }

  predicate UuidText(v: Value) { v.Text? && Pattern(v.s) }

  /** And what the other thirteen find wrong with the receipt. */
  ghost predicate ReceiptTrouble(lib: Library, pairs: seq<Pair>, call: Call, n: nat) {
    match n
    case 11 => Val(pairs, "contract_version") != Integer(1)
    case 12 => !UuidText(Val(pairs, "receipt_id"))
    case 13 => exists id :: Val(pairs, "receipt_id") == Text(id) && call.seen.Some? && id in call.seen.value
    case 14 => !UuidText(Val(pairs, "event_id")) || !UuidText(Val(pairs, "organization_id"))
    case 15 =>
      || Val(pairs, "event_id") != Text(call.eventId) || Val(pairs, "organization_id") != Text(call.organizationId)
      || Val(pairs, "node_id") != Text(call.nodeId) || Val(pairs, "stream") != Text("telemetry")
    case 16 => Val(pairs, "node_sequence") != Integer(call.sequence)
    case 17 => Val(pairs, "receipt_level") !in {Text("durably_spooled"), Text("postgres_committed")}
    case 18 => Accepted(lib, pairs) == None
    case _ => n >= 19 && TimeTrouble(Accepted(lib, pairs), Val(pairs, "receipt_level"), call, n)
  }

  predicate TimeTrouble(accepted: Option<Stamp>, level: Value, call: Call, n: nat) {
    match n
    case 19 => accepted.Some? && !accepted.value.zoned
    case 20 => !call.clock.zoned
    case 21 => accepted.Some? && accepted.value.seconds - call.clock.seconds > 300
    case 22 => accepted.Some? && call.clock.seconds - accepted.value.seconds > 604800
    case 23 => level == Text("postgres_committed") && call.sequence != call.oldest
    case _ => false
  }

  function Accepted(lib: Library, pairs: seq<Pair>): Option<Stamp> {
    var v := Val(pairs, "accepted_at");
    if v.Text? && |v.s| <= 40 then lib.timestamp(v.s) else None
  }

  ghost predicate Trouble(lib: Library, payload: Payload, call: Call, n: nat) {
    CallTrouble(lib, payload, call, n)
    || (payload.decoded.Pairs? && ReceiptTrouble(lib, payload.decoded.pairs, call, n))
  }

  function ReasonAt(n: nat): Reason {
    match n
    case 0 => ReplayLedgerRequired
    case 1 => PublisherNotAuthenticated
    case 2 => InvalidSize
    case 3 => InvalidExpectedId
    case 4 => InvalidNodeId
    case 5 => InvalidPendingSequence
    case 6 => InvalidOldestSequence
    case 7 => TopicMismatch
    case 8 => InvalidJson
    case 9 => DuplicateKey
    case 10 => InvalidFields
    case 11 => UnsupportedVersion
    case 12 => InvalidReceiptId
    case 13 => AlreadyProcessed
    case 14 => InvalidReceiptId
    case 15 => IdentityMismatch
    case 16 => SequenceMismatch
    case 17 => UnsupportedLevel
    case 18 => InvalidTimestamp
    case 19 => MissingZone
    case 20 => InvalidClock
    case 21 => FutureTimestamp
    case 22 => StaleTimestamp
    case _ => OutOfOrder
  }

  const CHECKS := 24

  ghost predicate Passes(lib: Library, payload: Payload, call: Call, n: nat) {
    forall m :: 0 <= m < n ==> !Trouble(lib, payload, call, m)
  }

  // ---- the first check that fails gives the reason ----

  lemma {:induction false} ValIsThere(pairs: seq<Pair>, k: string)
    requires k in KeysOf(pairs)
    ensures (k, Val(pairs, k)) in pairs
  {
    if pairs[0].0 != k {
      assert k in KeysOf(pairs[1..]);
      ValIsThere(pairs[1..], k);
    } else {
      assert pairs[0] == (pairs[0].0, pairs[0].1);
    }
  }

  lemma CollectedIsVal(pairs: seq<Pair>)
    requires DistinctKeys(pairs)
    ensures Collect(pairs).Some? && Collect(pairs).value.Keys == KeysOf(pairs)
    ensures forall k :: k in KeysOf(pairs) ==> Collect(pairs).value[k] == Val(pairs, k)
  {
    CollectExactly(pairs);
    hide Collect, DistinctKeys, Val;
    var r := Collect(pairs).value;
    forall k ensures k in r <==> k in KeysOf(pairs) {
      if k in r { assert (k, r[k]) in pairs; }
      if k in KeysOf(pairs) {
        ValIsThere(pairs, k);
      }
    }
    forall k | k in KeysOf(pairs) ensures r[k] == Val(pairs, k) { ValIsThere(pairs, k); }
  }

  lemma CallDecides(lib: Library, payload: Payload, call: Call, n: nat)
    requires n <= 10 && CallTrouble(lib, payload, call, n)
    requires forall m :: 0 <= m < n ==> !CallTrouble(lib, payload, call, m)
    ensures Validate(lib, payload, call) == Reject(ReasonAt(n))
  {
    assert n > 0 ==> !CallTrouble(lib, payload, call, 0);
    assert n > 1 ==> !CallTrouble(lib, payload, call, 1);
    assert n > 2 ==> !CallTrouble(lib, payload, call, 2);
    assert n > 3 ==> !CallTrouble(lib, payload, call, 3);
    assert n > 4 ==> !CallTrouble(lib, payload, call, 4);
    assert n > 5 ==> !CallTrouble(lib, payload, call, 5);
    assert n > 6 ==> !CallTrouble(lib, payload, call, 6);
    assert n > 7 ==> !CallTrouble(lib, payload, call, 7);
    assert n > 8 ==> !CallTrouble(lib, payload, call, 8);
    assert n > 9 ==> !CallTrouble(lib, payload, call, 9);
    CanonicalIsPattern(call.eventId, lib.lenientHex);
    CanonicalIsPattern(call.organizationId, lib.lenientHex);
    NodeTextExactly(call.nodeId);
    if n > 4 {
      NodeIdHasNoSlash(call.nodeId);
      CanonicalHasNoSlash(call.organizationId, lib.lenientHex);
      TopicExactly(call);
    }
    if payload.decoded.Pairs? {
      CollectExactly(payload.decoded.pairs);
      if DistinctKeys(payload.decoded.pairs) { CollectedIsVal(payload.decoded.pairs); }
    }
    hide Canonical, Pattern, IsNodeId, NodeText, NamesReceiptsOf, DistinctKeys, Collect, Topic;
  }

  /** The call and the object are in order. */
  ghost predicate CallIsFine(lib: Library, payload: Payload, call: Call) {
    forall m :: 0 <= m <= 10 ==> !CallTrouble(lib, payload, call, m)
  }

  lemma FineCallReadsReceipt(lib: Library, payload: Payload, call: Call)
    requires CallIsFine(lib, payload, call)
    ensures payload.decoded.Pairs? && DistinctKeys(payload.decoded.pairs) && KeysOf(payload.decoded.pairs) == FIELDS
    ensures call.seen.Some? && Collect(payload.decoded.pairs).Some?
    ensures Validate(lib, payload, call) == ValidateReceipt(lib, Collect(payload.decoded.pairs).value, call)
  {
    assert !CallTrouble(lib, payload, call, 0) && !CallTrouble(lib, payload, call, 1);
    assert !CallTrouble(lib, payload, call, 2) && !CallTrouble(lib, payload, call, 3);
    assert !CallTrouble(lib, payload, call, 4) && !CallTrouble(lib, payload, call, 5);
    assert !CallTrouble(lib, payload, call, 6) && !CallTrouble(lib, payload, call, 7);
    assert !CallTrouble(lib, payload, call, 8) && !CallTrouble(lib, payload, call, 9);
    assert !CallTrouble(lib, payload, call, 10);
    CanonicalIsPattern(call.eventId, lib.lenientHex);
    CanonicalIsPattern(call.organizationId, lib.lenientHex);
    NodeTextExactly(call.nodeId);
    NodeIdHasNoSlash(call.nodeId);
    CanonicalHasNoSlash(call.organizationId, lib.lenientHex);
    TopicExactly(call);
    CollectedIsVal(payload.decoded.pairs);
    hide Canonical, Pattern, IsNodeId, NodeText, NamesReceiptsOf, DistinctKeys, Collect, Topic, ValidateReceipt, KeysOf;
  }

  /** The receipt has these nine values. */
  predicate Holds(r: Receipt, pairs: seq<Pair>) {
    r.Keys == FIELDS && forall k :: k in FIELDS ==> r[k] == Val(pairs, k)
  }

  lemma NineValues(r: Receipt, pairs: seq<Pair>)
    requires Holds(r, pairs)
    ensures r.Keys == FIELDS
    ensures "contract_version" in r && r["contract_version"] == Val(pairs, "contract_version")
    ensures "receipt_id" in r && r["receipt_id"] == Val(pairs, "receipt_id")
    ensures "event_id" in r && r["event_id"] == Val(pairs, "event_id")
    ensures "organization_id" in r && r["organization_id"] == Val(pairs, "organization_id")
    ensures "node_id" in r && r["node_id"] == Val(pairs, "node_id")
    ensures "stream" in r && r["stream"] == Val(pairs, "stream")
    ensures "node_sequence" in r && r["node_sequence"] == Val(pairs, "node_sequence")
    ensures "receipt_level" in r && r["receipt_level"] == Val(pairs, "receipt_level")
    ensures "accepted_at" in r && r["accepted_at"] == Val(pairs, "accepted_at")
  {
    hide Val;
  }

  lemma LevelsDiffer()
    ensures "durably_spooled" != "postgres_committed"
  {
    assert "durably_spooled"[0] == 'd' && "postgres_committed"[0] == 'p';
  }

  /** A receipt that passes the checks before its time is decided by its time. */
  lemma ReachesTime(lib: Library, r: Receipt, pairs: seq<Pair>, call: Call)
    requires Holds(r, pairs) && call.seen.Some?
    requires forall m :: 11 <= m < 19 ==> !ReceiptTrouble(lib, pairs, call, m)
    ensures Accepted(lib, pairs).Some?
    ensures ValidateReceipt(lib, r, call) == ValidateTime(Accepted(lib, pairs).value,
      Val(pairs, "receipt_level") == Text("durably_spooled"), call)
    ensures Val(pairs, "receipt_level") in {Text("durably_spooled"), Text("postgres_committed")}
  {
    ReachesContents(lib, r, pairs, call);
    assert !ReceiptTrouble(lib, pairs, call, 15) && !ReceiptTrouble(lib, pairs, call, 16);
    assert !ReceiptTrouble(lib, pairs, call, 17) && !ReceiptTrouble(lib, pairs, call, 18);
    NineValues(r, pairs);
    hide FIELDS, Holds, UuidText, Val, ValidateTime, TimeTrouble, ValidateReceipt;
  }

  lemma TimeDecides(accepted: Option<Stamp>, level: Value, call: Call, n: nat)
    requires accepted.Some? && level in {Text("durably_spooled"), Text("postgres_committed")}
    requires 19 <= n && TimeTrouble(accepted, level, call, n)
    requires forall m :: 19 <= m < n ==> !TimeTrouble(accepted, level, call, m)
    ensures ValidateTime(accepted.value, level == Text("durably_spooled"), call) == Reject(ReasonAt(n))
  {
    LevelsDiffer();
    assert n > 19 ==> !TimeTrouble(accepted, level, call, 19);
    assert n > 20 ==> !TimeTrouble(accepted, level, call, 20);
    assert n > 21 ==> !TimeTrouble(accepted, level, call, 21);
    assert n > 22 ==> !TimeTrouble(accepted, level, call, 22);
  }

  lemma NoTimeTrouble(accepted: Option<Stamp>, level: Value, call: Call)
    requires accepted.Some? && level in {Text("durably_spooled"), Text("postgres_committed")}
    requires forall m :: 19 <= m < CHECKS ==> !TimeTrouble(accepted, level, call, m)
    ensures !ValidateTime(accepted.value, level == Text("durably_spooled"), call).Reject?
  {
    LevelsDiffer();
    assert !TimeTrouble(accepted, level, call, 19);
    assert !TimeTrouble(accepted, level, call, 20);
    assert !TimeTrouble(accepted, level, call, 21);
    assert !TimeTrouble(accepted, level, call, 22);
    assert !TimeTrouble(accepted, level, call, 23);
  }

  lemma ReceiptDecides(lib: Library, r: Receipt, pairs: seq<Pair>, call: Call, n: nat)
    requires Holds(r, pairs) && call.seen.Some?
    requires 11 <= n && ReceiptTrouble(lib, pairs, call, n)
    requires forall m :: 11 <= m < n ==> !ReceiptTrouble(lib, pairs, call, m)
    ensures ValidateReceipt(lib, r, call) == Reject(ReasonAt(n))
  {
    hide *;
    if n >= 19 {
      ReachesTime(lib, r, pairs, call);
      forall m: nat | 19 <= m <= n
        ensures ReceiptTrouble(lib, pairs, call, m) <==>
            TimeTrouble(Accepted(lib, pairs), Val(pairs, "receipt_level"), call, m)
      {
        LateTrouble(lib, pairs, call, m);
      }
      TimeDecides(Accepted(lib, pairs), Val(pairs, "receipt_level"), call, n);
    } else {
      EarlyTroubleDecides(lib, r, pairs, call, n);
    }
  }

  lemma LateTrouble(lib: Library, pairs: seq<Pair>, call: Call, m: nat)
    requires m >= 19
    ensures ReceiptTrouble(lib, pairs, call, m) <==>
        TimeTrouble(Accepted(lib, pairs), Val(pairs, "receipt_level"), call, m)
  {
    hide TimeTrouble, Val, Accepted;
  }

  lemma EarlyTroubleDecides(lib: Library, r: Receipt, pairs: seq<Pair>, call: Call, n: nat)
    requires Holds(r, pairs) && call.seen.Some?
    requires 11 <= n < 19 && ReceiptTrouble(lib, pairs, call, n)
    requires forall m :: 11 <= m < n ==> !ReceiptTrouble(lib, pairs, call, m)
    ensures ValidateReceipt(lib, r, call) == Reject(ReasonAt(n))
  {
    if n >= 15 {
      ReachesContents(lib, r, pairs, call);
      ContentsDecide(lib, r, pairs, call, n);
      hide *;
    } else {
      assert n > 11 ==> !ReceiptTrouble(lib, pairs, call, 11);
      assert n > 12 ==> !ReceiptTrouble(lib, pairs, call, 12);
      assert n > 13 ==> !ReceiptTrouble(lib, pairs, call, 13);
      NineValues(r, pairs);
      UuidTexts(lib, r["receipt_id"]);
      UuidTexts(lib, r["event_id"]);
      UuidTexts(lib, r["organization_id"]);
      hide FIELDS, Holds, IsUuid, UuidText, Val, ValidateContents, TimeTrouble;
    }
  }

  lemma ReachesContents(lib: Library, r: Receipt, pairs: seq<Pair>, call: Call)
    requires Holds(r, pairs) && call.seen.Some?
    requires forall m :: 11 <= m < 15 ==> !ReceiptTrouble(lib, pairs, call, m)
    ensures r.Keys == FIELDS && ValidateReceipt(lib, r, call) == ValidateContents(lib, r, call)
  {
    assert !ReceiptTrouble(lib, pairs, call, 11) && !ReceiptTrouble(lib, pairs, call, 12);
    assert !ReceiptTrouble(lib, pairs, call, 13) && !ReceiptTrouble(lib, pairs, call, 14);
    NineValues(r, pairs);
    UuidTexts(lib, r["receipt_id"]);
    UuidTexts(lib, r["event_id"]);
    UuidTexts(lib, r["organization_id"]);
    hide FIELDS, Holds, IsUuid, UuidText, Val, ValidateContents, TimeTrouble;
  }

  lemma ContentsDecide(lib: Library, r: Receipt, pairs: seq<Pair>, call: Call, n: nat)
    requires Holds(r, pairs) && r.Keys == FIELDS
    requires 15 <= n < 19 && ReceiptTrouble(lib, pairs, call, n)
    requires forall m :: 15 <= m < n ==> !ReceiptTrouble(lib, pairs, call, m)
    ensures ValidateContents(lib, r, call) == Reject(ReasonAt(n))
  {
    assert n > 15 ==> !ReceiptTrouble(lib, pairs, call, 15);
    assert n > 16 ==> !ReceiptTrouble(lib, pairs, call, 16);
    assert n > 17 ==> !ReceiptTrouble(lib, pairs, call, 17);
    NineValues(r, pairs);
    hide FIELDS, Holds, UuidText, Val, ValidateTime, TimeTrouble;
  }

  lemma UuidTexts(lib: Library, v: Value)
    ensures IsUuid(lib, v) <==> UuidText(v)
    ensures UuidText(v) ==> v.Text?
  {
    if v.Text? { CanonicalIsPattern(v.s, lib.lenientHex); }
    hide Canonical, Pattern;
  }

  lemma NoTroubleAccepts(lib: Library, r: Receipt, pairs: seq<Pair>, call: Call)
    requires Holds(r, pairs) && call.seen.Some?
    requires forall m :: 11 <= m < CHECKS ==> !ReceiptTrouble(lib, pairs, call, m)
    ensures !ValidateReceipt(lib, r, call).Reject?
  {
    hide *;
    ChecksAre();
    ReachesTime(lib, r, pairs, call);
    forall m: nat | 19 <= m < CHECKS
      ensures !TimeTrouble(Accepted(lib, pairs), Val(pairs, "receipt_level"), call, m)
    {
      LateTrouble(lib, pairs, call, m);
    }
    NoTimeTrouble(Accepted(lib, pairs), Val(pairs, "receipt_level"), call);
  }

  lemma ChecksAre()
    ensures CHECKS == 24
  {
  }

  lemma FirstTroubleDecides(lib: Library, payload: Payload, call: Call, n: nat)
    requires n < CHECKS && Trouble(lib, payload, call, n) && Passes(lib, payload, call, n)
    ensures Validate(lib, payload, call) == Reject(ReasonAt(n))
  {
    hide Validate, ValidateReceipt, ReasonAt, Collect;
    PassesByParts(lib, payload, call, n);
    if n <= 10 {
      CallDecides(lib, payload, call, n);
    } else {
      FineCallReadsReceipt(lib, payload, call);
      var pairs := payload.decoded.pairs;
      CollectedIsVal(pairs);
      ReceiptDecides(lib, Collect(pairs).value, pairs, call, n);
    }
  }

  lemma PassesByParts(lib: Library, payload: Payload, call: Call, n: nat)
    requires Passes(lib, payload, call, n) && n <= CHECKS
    ensures forall m :: 0 <= m < n ==> !CallTrouble(lib, payload, call, m)
    ensures payload.decoded.Pairs? ==> forall m :: 0 <= m < n ==> !ReceiptTrouble(lib, payload.decoded.pairs, call, m)
    ensures n < CHECKS && Trouble(lib, payload, call, n) ==>
              if n <= 10 then CallTrouble(lib, payload, call, n)
              else payload.decoded.Pairs? && ReceiptTrouble(lib, payload.decoded.pairs, call, n)
  {
    forall m | 0 <= m < n
      ensures !CallTrouble(lib, payload, call, m)
      ensures payload.decoded.Pairs? ==> !ReceiptTrouble(lib, payload.decoded.pairs, call, m)
    {
      assert !Trouble(lib, payload, call, m);
    }
    if n < CHECKS && Trouble(lib, payload, call, n) { TroubleHasItsPart(lib, payload, call, n); }
    hide CallTrouble, ReceiptTrouble;
  }

  lemma TroubleHasItsPart(lib: Library, payload: Payload, call: Call, n: nat)
    ensures n > 10 ==> !CallTrouble(lib, payload, call, n)
    ensures n <= 10 && payload.decoded.Pairs? ==> !ReceiptTrouble(lib, payload.decoded.pairs, call, n)
  {
  }

  lemma NoTroubleIsAccepted(lib: Library, payload: Payload, call: Call)
    requires Passes(lib, payload, call, CHECKS)
    ensures !Validate(lib, payload, call).Reject?
  {
    hide Validate, ValidateReceipt, Collect, CallTrouble, ReceiptTrouble;
    PassesByParts(lib, payload, call, CHECKS);
    FineCallReadsReceipt(lib, payload, call);
    CollectedIsVal(payload.decoded.pairs);
    NoTroubleAccepts(lib, Collect(payload.decoded.pairs).value, payload.decoded.pairs, call);
  }

  lemma {:induction false} FirstOrNone(lib: Library, payload: Payload, call: Call, n: nat)
    ensures Passes(lib, payload, call, n)
        || exists m :: 0 <= m < n && Trouble(lib, payload, call, m) && Passes(lib, payload, call, m)
  {
    hide Trouble;
    if n > 0 {
      FirstOrNone(lib, payload, call, n - 1);
      if Passes(lib, payload, call, n - 1) && Trouble(lib, payload, call, n - 1) {
        assert 0 <= n - 1 < n;
      }
    }
  }

  /** The reason given is that of the first check that fails, and nothing is refused unless
      one fails. */
  lemma ReasonExactly(lib: Library, payload: Payload, call: Call, reason: Reason)
    ensures Validate(lib, payload, call) == Reject(reason) <==>
              exists n: nat :: n < CHECKS && Trouble(lib, payload, call, n) && Passes(lib, payload, call, n)
                && ReasonAt(n) == reason
    ensures Validate(lib, payload, call).Reject? <==> !Passes(lib, payload, call, CHECKS)
  {
    hide Validate, Trouble, ReasonAt, Passes;
    FirstOrNone(lib, payload, call, CHECKS);
    if Passes(lib, payload, call, CHECKS) {
      NoTroubleIsAccepted(lib, payload, call);
      PassesMeansNone(lib, payload, call);
    } else {
      var n: nat :| n < CHECKS && Trouble(lib, payload, call, n) && Passes(lib, payload, call, n);
      FirstTroubleDecides(lib, payload, call, n);
      forall m: nat | Trouble(lib, payload, call, m) && Passes(lib, payload, call, m) ensures m == n {
        OneFirstTrouble(lib, payload, call, m, n);
      }
    }
  }

  lemma PassesMeansNone(lib: Library, payload: Payload, call: Call)
    requires Passes(lib, payload, call, CHECKS)
    ensures forall m: nat :: m < CHECKS ==> !Trouble(lib, payload, call, m)
  {
    hide Trouble;
  }

  lemma OneFirstTrouble(lib: Library, payload: Payload, call: Call, m: nat, n: nat)
    requires Trouble(lib, payload, call, m) && Passes(lib, payload, call, m)
    requires Trouble(lib, payload, call, n) && Passes(lib, payload, call, n)
    ensures m == n
  {
    hide Trouble;
  }
}
