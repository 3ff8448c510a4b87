/**
  What a verified migration is worth: under a write freeze the target mirrors the
  source, any number of interrupted runs ends where one uninterrupted run ends, and
  the manifest passes the structural part of `validate_proof`.
 */
module MigrationGuarantees {
  import opened Wrappers
  import opened ObjectMigration
  import opened SetSums

  /** No two different bodies under one name in the two stores share a digest. */
  ghost predicate CollisionFree(hash: Hash, s: Store, t: Store) {
    forall id: Id :: Has(s, id) && Has(t, id) && hash(At(s, id).body) == hash(At(t, id).body) ==>
      At(s, id).body == At(t, id).body
  }

  /** The target shows, under every name, what the source holds there. */
  ghost predicate Mirrors(hash: Hash, source: Store, t: Store) {
    && t.Keys == source.Keys
    && (forall id: Id :: Has(t, id) <==> Has(source, id))
    && (forall id: Id :: Has(t, id) ==> SameObject(hash, At(source, id), At(t, id)))
  }

  predicate SameObject(hash: Hash, a: Obj, b: Obj) {
    a.meta == b.meta && hash(a.body) == hash(b.body) && |a.body| == |b.body|
  }

  /** What migration is about: bytes and metadata, without entity tags and dates. */
  ghost function Contents(s: Store): map<Bucket, map<Key, (Bytes, Metadata)>> {
    map b | b in s :: map k | k in s[b] :: (s[b][k].body, s[b][k].meta)
  }

  /** Under a write freeze a verified run leaves a mirror of the source. */
  lemma FrozenRunMirrors(timeline: nat -> Store, lo: nat, mid: nat, hi: nat, hash: Hash, t: Store, plan: Inventory,
      report: Report)
    requires Frozen(timeline, lo) && lo <= mid
    requires VerifiedRun(timeline, lo, mid, hi, hash, t, plan, report)
    ensures Mirrors(hash, timeline(lo), t)
  {
    var source := timeline(lo);
    assert timeline(mid) == source;
    forall u: nat | u >= mid ensures timeline(u) == timeline(mid) { assert timeline(u) == timeline(lo); }
    FrozenInventory(timeline, mid, hi, plan);
    forall id: Id | Has(t, id) ensures Has(source, id) && SameObject(hash, At(source, id), At(t, id)) {
      assert id in PlanIds(plan);
      var item :| item in report.items && item.id == id;
      assert Copied(timeline, lo, mid, hash, t, plan, item);
      assert ShownBetween(timeline, lo, mid, hash, item);
    }
    forall id: Id | Has(source, id) ensures Has(t, id) { assert id.bucket in plan; }
  }

  /** A mirror has exactly the source's contents, provided digests do not collide. */
  lemma MirrorHasContents(hash: Hash, source: Store, t: Store)
    requires CollisionFree(hash, source, t) && Mirrors(hash, source, t)
    ensures Contents(t) == Contents(source)
  {
    forall b | b in t ensures Contents(t)[b] == Contents(source)[b] {
      assert forall k :: k in t[b] <==> Has(t, Id(b, k));
      assert forall k :: k in source[b] <==> Has(source, Id(b, k));
      forall k | k in t[b] ensures (t[b][k].body, t[b][k].meta) == (source[b][k].body, source[b][k].meta) {
        assert SameObject(hash, At(source, Id(b, k)), At(t, Id(b, k)));
      }
    }
  }

  /** An object that the target already holds with the source's bytes and metadata
      is neither uploaded again nor touched. */
  lemma EqualObjectIsNotUploadedAgain(timeline: nat -> Store, lo: nat, hi: nat, t0: Store, t: Store, plan: Inventory,
      uploads: seq<Id>, id: Id)
    requires Frozen(timeline, lo) && RunSoFar(timeline, lo, hi, t0, t, plan, uploads)
    requires Has(t0, id) && Has(timeline(lo), id)
    requires At(t0, id).body == At(timeline(lo), id).body && At(t0, id).meta == At(timeline(lo), id).meta
    ensures id !in uploads && Has(t, id) && At(t, id) == At(t0, id)
  {
    assert id in uploads ==> WorthUploading(timeline, lo, hi, t0, id);
  }

  // ---- interrupted runs ----

  /** One run over a frozen source, cut off anywhere or finished: what `CopyAndVerify`
      ensures about the target before and after, without the instants. */
  ghost predicate Attempt(hash: Hash, source: Store, t0: Store, t: Store, verified: bool) {
    && (exists uploads: seq<Id> :: UploadedFrom(source, t0, t, uploads))
    && (verified ==> Mirrors(hash, source, t))
  }

  ghost predicate UploadedFrom(source: Store, t0: Store, t: Store, uploads: seq<Id>) {
    && OnlyUploaded(t0, t, DescribeStore(source), uploads)
    && (forall id :: id in uploads ==> Listed(DescribeStore(source), id))
  }

  lemma RunIsAttempt(timeline: nat -> Store, lo: nat, mid: nat, hi: nat, hash: Hash, t0: Store, t: Store,
      plan: Inventory, uploads: seq<Id>, r: Result<Report, Failure>)
    requires Frozen(timeline, lo) && RunSoFar(timeline, lo, hi, t0, t, plan, uploads)
    requires (plan == map[] && r.Err?) || ObservedBy(timeline, lo, hi, plan)
    requires r.Ok? ==> lo < mid && VerifiedRun(timeline, lo, mid, hi, hash, t, plan, r.value)
    ensures Attempt(hash, timeline(lo), t0, t, r.Ok?)
  {
    if ObservedBy(timeline, lo, hi, plan) {
      var now: nat :| Observed(timeline, lo, now, plan);
      FrozenInventory(timeline, lo, now, plan);
    }
    assert UploadedFrom(timeline(lo), t0, t, uploads);
    if r.Ok? { FrozenRunMirrors(timeline, lo, mid, hi, hash, t, plan, r.value); }
  }

  /** Every attempt starts from what the one before left; only the last is verified. */
  ghost predicate Attempts(hash: Hash, source: Store, states: seq<Store>) {
    && |states| >= 2
    && (forall i :: 0 <= i < |states| - 1 ==> Attempt(hash, source, states[i], states[i + 1], i == |states| - 2))
  }

  lemma AttemptKeepsIsolation(hash: Hash, source: Store, t0: Store, t: Store, verified: bool)
    requires Isolated(t0, DescribeStore(source)) && Attempt(hash, source, t0, t, verified)
    ensures Isolated(t, DescribeStore(source)) && forall id: Id :: Has(t0, id) ==> Has(t, id)
  {
    var plan := DescribeStore(source);
    var uploads: seq<Id> :| UploadedFrom(source, t0, t, uploads);
    forall b | b in t ensures t[b].Keys <= plan[b].Keys {
      forall k | k in t[b] ensures k in plan[b] {
        assert Has(t, Id(b, k));
        if Id(b, k) !in uploads { assert Has(t0, Id(b, k)); }
      }
    }
  }

  /** However often a migration is cut off, each restart meets an isolated target that
      has lost nothing, so nothing but failing calls can keep it from finishing. */
  lemma {:induction false} RestartsLoseNothing(hash: Hash, source: Store, states: seq<Store>, n: nat)
    requires Attempts(hash, source, states) && Isolated(states[0], DescribeStore(source)) && n < |states|
    ensures Isolated(states[n], DescribeStore(source))
    ensures forall id: Id :: Has(states[0], id) ==> Has(states[n], id)
  {
    if n > 0 {
      RestartsLoseNothing(hash, source, states, n - 1);
      assert Attempt(hash, source, states[n - 1], states[n - 1 + 1], n - 1 == |states| - 2);
      AttemptKeepsIsolation(hash, source, states[n - 1], states[n], n - 1 == |states| - 2);
    }
  }

  /** Any number of interrupted runs ends in the contents of one uninterrupted run. */
  lemma RestartsConverge(hash: Hash, source: Store, states: seq<Store>, uninterrupted: Store)
    requires Attempts(hash, source, states)
    requires CollisionFree(hash, source, states[|states| - 1]) && CollisionFree(hash, source, uninterrupted)
    requires Attempt(hash, source, states[0], uninterrupted, true)
    ensures Contents(states[|states| - 1]) == Contents(uninterrupted) == Contents(source)
  {
    var n := |states| - 2;
    assert Attempt(hash, source, states[n], states[n + 1], n == |states| - 2);
    MirrorHasContents(hash, source, states[n + 1]);
    MirrorHasContents(hash, source, uninterrupted);
  }

  // ---- the manifest ----

  /** A verified manifest counts what a dry run over the same inventory counts. */
  lemma ManifestMatchesDryRun(timeline: nat -> Store, lo: nat, mid: nat, hi: nat, hash: Hash, t: Store,
      plan: Inventory, report: Report)
    requires VerifiedRun(timeline, lo, mid, hi, hash, t, plan, report)
    ensures DryRun(|plan|, ObjectCount(plan), ByteTotal(plan))
        == DryRun(|report.buckets|, |report.items|, report.totalBytes)
  {
    forall item | item in report.items ensures item.bytes == SizeIn(plan)(item.id) {
      assert Copied(timeline, lo, mid, hash, t, plan, item);
    }
    DistinctItemsAddUp(report.items, SizeIn(plan));
  }

  /** One entry of a manifest as read back: any field may be missing or of another type. */
  datatype ManifestEntry = ManifestEntry(bucket: Option<string>, key: Option<string>, sha: string, bytes: Option<int>)

  predicate IsSha256(s: string) {
    |s| == 64 && forall i :: 0 <= i < |s| ==> '0' <= s[i] <= '9' || 'a' <= s[i] <= 'f'
  }

  /** Sixty-four digits, of these sixteen. */
  lemma Sha256Exactly(s: string)
    ensures IsSha256(s) <==> |s| == 64 && forall i :: 0 <= i < 64 ==> s[i] in "0123456789abcdef"
  {
    if |s| == 64 {
      forall i | 0 <= i < 64
        ensures s[i] in "0123456789abcdef" <==> '0' <= s[i] <= '9' || 'a' <= s[i] <= 'f'
      {
        if '0' <= s[i] <= '9' { assert "0123456789abcdef"[s[i] as int - '0' as int] == s[i]; }
        if 'a' <= s[i] <= 'f' { assert "0123456789abcdef"[s[i] as int - 'a' as int + 10] == s[i]; }
      }
    }
  }

  function EntryBytes(e: ManifestEntry): int { if e.bytes.Some? then e.bytes.value else 0 }

  function SumEntries(entries: seq<ManifestEntry>): int {
    if entries == [] then 0 else SumEntries(entries[..|entries| - 1]) + EntryBytes(entries[|entries| - 1])
  }

  predicate SoundEntry(e: ManifestEntry, buckets: set<string>) {
    && e.bucket.Some? && e.bucket.value in buckets && e.key.Some?
    && IsSha256(e.sha) && e.bytes.Some? && e.bytes.value >= 0
  }

  predicate SoundManifest(buckets: set<string>, entries: seq<ManifestEntry>, total: Option<int>) {
    && (forall e :: e in entries ==> SoundEntry(e, buckets))
    && DistinctPairs(entries)
    && total == Some(SumEntries(entries))
  }

  predicate DistinctPairs(entries: seq<ManifestEntry>) {
    forall i, j :: 0 <= i < j < |entries| ==> (entries[i].bucket, entries[i].key) != (entries[j].bucket, entries[j].key)
  }

  ghost function Pairs(entries: seq<ManifestEntry>): set<(Option<string>, Option<string>)> {
    set e | e in entries :: (e.bucket, e.key)
  }

  lemma PairAppends(init: seq<ManifestEntry>, e: ManifestEntry)
    ensures Pairs(init + [e]) == Pairs(init) + {(e.bucket, e.key)}
    ensures DistinctPairs(init + [e]) <==> DistinctPairs(init) && (e.bucket, e.key) !in Pairs(init)
    ensures SumEntries(init + [e]) == SumEntries(init) + EntryBytes(e)
  {
    var longer := init + [e];
    assert longer[..|init|] == init;
    assert forall x :: x in longer <==> x in init || x == e;
    if (e.bucket, e.key) in Pairs(init) {
      var twin :| twin in init && (twin.bucket, twin.key) == (e.bucket, e.key);
      var j :| 0 <= j < |init| && init[j] == twin;
      assert longer[j] == twin && longer[|init|] == e;
    }
    if DistinctPairs(longer) {
      forall i, j | 0 <= i < j < |init| ensures (init[i].bucket, init[i].key) != (init[j].bucket, init[j].key) {
        assert longer[i] == init[i] && longer[j] == init[j];
      }
    }
    if DistinctPairs(init) && (e.bucket, e.key) !in Pairs(init) {
      forall i | 0 <= i < |init| ensures (init[i].bucket, init[i].key) != (e.bucket, e.key) { assert init[i] in init; }
    }
  }

  lemma PrefixDistinct(entries: seq<ManifestEntry>, n: nat)
    requires n <= |entries| && DistinctPairs(entries)
    ensures DistinctPairs(entries[..n])
  {
  }

  /** The loop of `validate_proof` accepts exactly the sound manifests. */
  method ValidateEntries(buckets: set<string>, entries: seq<ManifestEntry>, totalBytes: Option<int>)
    returns (valid: bool)
    ensures valid <==> SoundManifest(buckets, entries, totalBytes)
  {
    hide Pairs, DistinctPairs, SumEntries;
    var identities: set<(Option<string>, Option<string>)> := {};
    var total := 0;
    NoPairs();
    for i := 0 to |entries|
      invariant total == SumEntries(entries[..i])
      invariant identities == Pairs(entries[..i]) && DistinctPairs(entries[..i])
      invariant forall j :: 0 <= j < i ==> SoundEntry(entries[j], buckets)
    {
      var e := entries[i];
      var pair := (e.bucket, e.key);
      assert entries[..i + 1] == entries[..i] + [e] && e in entries;
      PairAppends(entries[..i], e);
      if pair in identities || e.bucket == None || e.bucket.value !in buckets || e.key == None {
        if DistinctPairs(entries) { PrefixDistinct(entries, i + 1); }
        return false;
      }
      identities := identities + {pair};
      if !IsSha256(e.sha) || e.bytes == None || e.bytes.value < 0 { return false; }
      total := total + e.bytes.value;
    }
    assert entries[..|entries|] == entries;
    return totalBytes == Some(total);
  }

  lemma NoPairs()
    ensures Pairs([]) == {} && DistinctPairs([]) && SumEntries([]) == 0
  {
  }

  function Written(items: seq<Item>): (entries: seq<ManifestEntry>)
    ensures |entries| == |items|
    ensures forall i :: 0 <= i < |items| ==> entries[i] == WrittenItem(items[i])
  {
    seq(|items|, i requires 0 <= i < |items| => WrittenItem(items[i]))
  }

  function WrittenItem(item: Item): ManifestEntry {
    ManifestEntry(Some(item.id.bucket), Some(item.id.key), item.sha, Some(item.bytes))
  }

  lemma {:induction false} WrittenSum(items: seq<Item>)
    ensures SumEntries(Written(items)) == SumBytes(items)
  {
    if items != [] {
      WrittenSum(items[..|items| - 1]);
      assert Written(items)[..|items| - 1] == Written(items[..|items| - 1]);
    }
  }

  /** Every manifest of a verified run passes the structural validation. */
  lemma ManifestIsSound(timeline: nat -> Store, lo: nat, mid: nat, hi: nat, hash: Hash, t: Store, plan: Inventory,
      report: Report)
    requires VerifiedRun(timeline, lo, mid, hi, hash, t, plan, report)
    requires forall body :: IsSha256(hash(body))
    ensures SoundManifest(report.buckets, Written(report.items), Some(report.totalBytes))
  {
    var entries := Written(report.items);
    forall e | e in entries ensures SoundEntry(e, report.buckets) {
      var i :| 0 <= i < |entries| && entries[i] == e;
      assert Copied(timeline, lo, mid, hash, t, plan, report.items[i]);
    }
    forall i, j | 0 <= i < j < |entries|
      ensures (entries[i].bucket, entries[i].key) != (entries[j].bucket, entries[j].key)
    {
      assert report.items[i].id != report.items[j].id;
    }
    WrittenSum(report.items);
  }
}
