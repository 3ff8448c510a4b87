/**
  Object storage migration: the source is copied object by object into a target
  that may be half filled, and a manifest is issued.

  The source belongs to somebody else. `timeline` says what it holds at every
  instant, and each request of ours is answered from a later instant than the one
  before, so a statement over all timelines is a statement over every interleaving
  of source changes with our reads. The target has no other writer, but any call on
  it may fail, before or after taking effect, and an upload may store anything.
 */
module ObjectMigration {
  import opened Wrappers
  import opened SetSums

  type Byte = b: nat | b < 256
  type Bytes = seq<Byte>
  type Bucket = string
  type Key = string
  type Digest = string
  type Hash = Bytes -> Digest
  type Metadata = map<string, string>

  datatype Obj = Obj(body: Bytes, meta: Metadata, etag: string, modified: string)

  type Store = map<Bucket, map<Key, Obj>>

  datatype Entry = Entry(size: nat, etag: string, modified: string, meta: Metadata)

  type Inventory = map<Bucket, map<Key, Entry>>

  datatype Id = Id(bucket: Bucket, key: Key)

  datatype Item = Item(id: Id, bytes: nat, sha: Digest, meta: Metadata)

  /** One upload as it left for the target. */
  datatype Sent = Sent(id: Id, body: Bytes, meta: Metadata)

  datatype Report =
    | DryRun(bucketCount: nat, objectCount: nat, byteTotal: nat)
    | Verified(buckets: set<Bucket>, items: seq<Item>, totalBytes: nat)

  datatype Failure =
    | RequestFailed         // a request, a privacy check or a checkpoint raised
    | Missing               // no such bucket or key
    | PreconditionFailed    // the entity tag asked for is no longer current
    | SourceChanged
    | NotIsolated
    | VerificationFailed
    | KeySetDiffers

  const CHUNK := 1024 * 1024

  // ---- listing page by page ----

  /** The order in which a listing goes. */
  predicate Before(a: Key, b: Key) {
    b != "" && (a == "" || a[0] < b[0] || (a[0] == b[0] && Before(a[1..], b[1..])))
  }

  lemma {:induction false} BeforeIsTransitive(a: Key, b: Key, c: Key)
    requires Before(a, b) && Before(b, c)
    ensures Before(a, c)
  {
    if a != "" && a[0] == b[0] == c[0] { BeforeIsTransitive(a[1..], b[1..], c[1..]); }
  }

  lemma {:induction false} BeforeIsTotal(a: Key, b: Key)
    ensures a == b || Before(a, b) || Before(b, a)
    ensures !(Before(a, b) && Before(b, a)) && !Before(a, a)
  {
    if a != "" && b != "" && a[0] == b[0] {
      BeforeIsTotal(a[1..], b[1..]);
      assert a == [a[0]] + a[1..] && b == [b[0]] + b[1..];
    }
    if a != "" {
      BeforeIsTotal(a[1..], a[1..]);
    }
  }

  /** A page goes up to its last key, or is the last page and has no bound. */
  datatype Page = Page(at: nat, upTo: Option<Key>)

  predicate Reaches(page: Page, k: Key) { page.upTo.None? || !Before(page.upTo.value, k) }

  predicate Reached(pages: seq<Page>, k: Key) { exists i | 0 <= i < |pages| :: Reaches(pages[i], k) }

  /** The first page that goes as far as the key shows it. */
  predicate Shown(timeline: nat -> Store, b: Bucket, pages: seq<Page>, k: Key)
    decreases |pages|
  {
    if pages == [] then false
    else
      var init, last := pages[..|pages| - 1], pages[|pages| - 1];
      if Reached(init, k) then Shown(timeline, b, init, k)
      else Reaches(last, k) && b in timeline(last.at) && k in timeline(last.at)[b]
  }

  /** The last page, and no other, is without a bound. */
  predicate Complete(pages: seq<Page>) {
    pages != [] && pages[|pages| - 1].upTo == None && forall i :: 0 <= i < |pages| - 1 ==> pages[i].upTo.Some?
  }

  predicate InOrder(pages: seq<Page>) {
    forall i, j :: 0 <= i < j < |pages| ==>
      && pages[i].at < pages[j].at
      && (pages[i].upTo.Some? && pages[j].upTo.Some? ==> Before(pages[i].upTo.value, pages[j].upTo.value))
  }

  ghost predicate PagesShow(timeline: nat -> Store, lo: nat, hi: nat, b: Bucket, keys: set<Key>, pages: seq<Page>) {
    && InOrder(pages)
    && (forall i :: 0 <= i < |pages| ==> lo <= pages[i].at < hi && b in timeline(pages[i].at))
    && (forall k :: k in keys <==> Shown(timeline, b, pages, k))
  }

  /** What a page answers: the bucket's keys from after the last key on, up to its bound. */
  function PageKeys(objects: map<Key, Obj>, after: Option<Key>, upTo: Option<Key>): set<Key> {
    set k | k in objects && (after.Some? ==> Before(after.value, k)) && (upTo.Some? ==> !Before(upTo.value, k))
  }

  /** A bound is the last key of its page. */
  predicate IsBound(objects: map<Key, Obj>, after: Option<Key>, upTo: Option<Key>) {
    upTo.Some? ==> upTo.value in PageKeys(objects, after, upTo)
  }

  /** A page is what comes first: every later key of the bucket lies after all keys of it. */
  lemma PageComesFirst(objects: map<Key, Obj>, after: Option<Key>, upTo: Option<Key>, k: Key, l: Key)
    requires k in PageKeys(objects, after, upTo) && l in objects && l !in PageKeys(objects, after, upTo)
    requires after.Some? ==> Before(after.value, l)
    ensures upTo.Some? && Before(k, l)
  {
    BeforeIsTotal(k, upTo.value);
    if k != upTo.value { BeforeIsTransitive(k, upTo.value, l); }
  }

  /** Each key was listed, or missed, at an instant at which the bucket did or did not have it. */
  lemma {:induction false} ShownAtSomeInstant(timeline: nat -> Store, b: Bucket, pages: seq<Page>, k: Key)
    requires Reached(pages, k) && forall i :: 0 <= i < |pages| ==> b in timeline(pages[i].at)
    ensures exists i :: 0 <= i < |pages| && (Shown(timeline, b, pages, k) <==> k in timeline(pages[i].at)[b])
    decreases |pages|
  {
    var init, last := pages[..|pages| - 1], pages[|pages| - 1];
    if Reached(init, k) {
      ShownAtSomeInstant(timeline, b, init, k);
      var i :| 0 <= i < |init| && (Shown(timeline, b, init, k) <==> k in timeline(init[i].at)[b]);
      assert pages[i] == init[i];
    } else {
      assert Reaches(last, k);
      assert pages[|pages| - 1] == last;
    }
  }

  lemma EveryKeyHasAnInstant(timeline: nat -> Store, lo: nat, hi: nat, b: Bucket, keys: set<Key>, k: Key)
    requires KeysObserved(timeline, lo, hi, b, keys)
    ensures exists t: nat :: lo <= t < hi && b in timeline(t) && (k in keys <==> k in timeline(t)[b])
  {
    var pages: seq<Page> :| Complete(pages) && PagesShow(timeline, lo, hi, b, keys, pages);
    assert Reaches(pages[|pages| - 1], k);
    ShownAtSomeInstant(timeline, b, pages, k);
  }

  // ---- reading stores ----

  predicate Has(s: Store, id: Id) { id.bucket in s && id.key in s[id.bucket] }

  function At(s: Store, id: Id): Obj
    requires Has(s, id)
  {
    s[id.bucket][id.key]
  }

  function Describe(o: Obj): Entry { Entry(|o.body|, o.etag, o.modified, o.meta) }

  function DescribeStore(s: Store): Inventory {
    map b | b in s :: map k | k in s[b] :: Describe(s[b][k])
  }

  predicate Listed(plan: Inventory, id: Id) { id.bucket in plan && id.key in plan[id.bucket] }

  /** The store holds, under the item's name, an object with its metadata, digest and size. */
  predicate Shows(s: Store, hash: Hash, item: Item) {
    && Has(s, item.id)
    && At(s, item.id).meta == item.meta
    && hash(At(s, item.id).body) == item.sha
    && |At(s, item.id).body| == item.bytes
  }

  ghost predicate ShownBetween(timeline: nat -> Store, lo: nat, hi: nat, hash: Hash, item: Item) {
    exists t: nat :: lo <= t < hi && Shows(timeline(t), hash, item)
  }

  /** The inventory is made of answers given between the two instants. */
  ghost predicate Observed(timeline: nat -> Store, lo: nat, hi: nat, plan: Inventory) {
    && (exists t: nat :: lo <= t < hi && plan.Keys == timeline(t).Keys)
    && (forall b :: b in plan ==> KeysObserved(timeline, lo, hi, b, plan[b].Keys))
    && (forall b, k :: b in plan && k in plan[b] ==> EntryObserved(timeline, lo, hi, Id(b, k), plan[b][k]))
  }

  /** An inventory taken from the first instant on and finished by the second. */
  ghost predicate ObservedBy(timeline: nat -> Store, lo: nat, hi: nat, plan: Inventory) {
    exists now: nat :: now <= hi && Observed(timeline, lo, now, plan)
  }

  /** The key set of a bucket was put together from pages, each asked for at an instant of
      its own and answering for the keys after the last one of the page before. */
  ghost predicate KeysObserved(timeline: nat -> Store, lo: nat, hi: nat, b: Bucket, keys: set<Key>) {
    exists pages: seq<Page> :: Complete(pages) && PagesShow(timeline, lo, hi, b, keys, pages)
  }

  ghost predicate EntryObserved(timeline: nat -> Store, lo: nat, hi: nat, id: Id, entry: Entry) {
    exists t: nat :: lo <= t < hi && Has(timeline(t), id) && Describe(At(timeline(t), id)) == entry
  }

  /** The writers are frozen from the instant on. */
  ghost predicate Frozen(timeline: nat -> Store, from: nat) {
    forall t: nat :: t >= from ==> timeline(t) == timeline(from)
  }

  lemma FrozenInventory(timeline: nat -> Store, lo: nat, hi: nat, plan: Inventory)
    requires Frozen(timeline, lo) && Observed(timeline, lo, hi, plan)
    ensures plan == DescribeStore(timeline(lo))
  {
    hide KeysObserved;
    forall b | b in plan
      ensures plan[b].Keys == timeline(lo)[b].Keys
    {
      FrozenKeySet(timeline, lo, hi, b, plan[b].Keys);
    }
    forall b | b in plan ensures plan[b] == DescribeStore(timeline(lo))[b] {
      forall k | k in plan[b] ensures plan[b][k] == Describe(timeline(lo)[b][k]) {
        assert EntryObserved(timeline, lo, hi, Id(b, k), plan[b][k]);
      }
    }
  }

  /** Under a freeze all pages answer from the same key set. */
  lemma FrozenKeySet(timeline: nat -> Store, lo: nat, hi: nat, b: Bucket, keys: set<Key>)
    requires Frozen(timeline, lo) && KeysObserved(timeline, lo, hi, b, keys) && b in timeline(lo)
    ensures keys == timeline(lo)[b].Keys
  {
    hide KeysObserved;
    forall k ensures k in keys <==> k in timeline(lo)[b] { EveryKeyHasAnInstant(timeline, lo, hi, b, keys, k); }
  }

  // ---- the two services ----

  class Source {
    const timeline: nat -> Store
    const reliable: bool         // no request fails
    var clock: nat

    constructor (timeline: nat -> Store, reliable: bool)
      ensures this.timeline == timeline && this.reliable == reliable && clock == 0
    {
      this.timeline, this.reliable := timeline, reliable;
      clock := 0;
    }

    method Fails() returns (fails: bool)
      ensures reliable ==> !fails
    {
      fails := *;
      fails := fails && !reliable;
    }

    method ListBuckets() returns (r: Result<set<Bucket>, Failure>)
      modifies this
      ensures clock == old(clock) + 1
      ensures r == Ok(timeline(old(clock)).Keys) || (r == Err(RequestFailed) && !reliable)
    {
      var now := timeline(clock);
      clock := clock + 1;
      var fails := Fails();
      if fails { return Err(RequestFailed); }
      return Ok(now.Keys);
    }

    /** One page of a listing: the first keys after the last one seen, however many, and
        the bound up to which they are complete. */
    method ListPage(b: Bucket, after: Option<Key>) returns (r: Result<(set<Key>, Option<Key>), Failure>)
      modifies this
      ensures clock == old(clock) + 1
      ensures r.Ok? ==>
                && b in timeline(old(clock)) && r.value.0 == PageKeys(timeline(old(clock))[b], after, r.value.1)
                && IsBound(timeline(old(clock))[b], after, r.value.1)
      ensures r.Err? ==> (r.error == RequestFailed && !reliable) || (r.error == Missing && b !in timeline(old(clock)))
    {
      var now := timeline(clock);
      clock := clock + 1;
      var fails := Fails();
      if fails { return Err(RequestFailed); }
      if b !in now { return Err(Missing); }
      var upTo: Option<Key> := *;
      if !IsBound(now[b], after, upTo) { upTo := None; }
      return Ok((PageKeys(now[b], after, upTo), upTo));
    }

    method Head(id: Id) returns (r: Result<Entry, Failure>)
      modifies this
      ensures clock == old(clock) + 1
      ensures r.Ok? ==> Has(timeline(old(clock)), id) && r.value == Describe(At(timeline(old(clock)), id))
      ensures r.Err? ==>
          (r.error == RequestFailed && !reliable) || (r.error == Missing && !Has(timeline(old(clock)), id))
    {
      var now := timeline(clock);
      clock := clock + 1;
      var fails := Fails();
      if fails { return Err(RequestFailed); }
      if !Has(now, id) { return Err(Missing); }
      return Ok(Describe(At(now, id)));
    }

    /** A conditional read: the whole answer is the object of one instant. */
    method Get(id: Id, ifMatch: string) returns (r: Result<Obj, Failure>)
      modifies this
      ensures clock == old(clock) + 1
      ensures r.Ok? ==>
          Has(timeline(old(clock)), id) && r.value == At(timeline(old(clock)), id) && r.value.etag == ifMatch
      ensures r.Err? ==>
                || (r.error == RequestFailed && !reliable)
                || (r.error == Missing && !Has(timeline(old(clock)), id))
                || (r.error == PreconditionFailed && Has(timeline(old(clock)), id)
                  && At(timeline(old(clock)), id).etag != ifMatch)
    {
      var now := timeline(clock);
      clock := clock + 1;
      var fails := Fails();
      if fails { return Err(RequestFailed); }
      if !Has(now, id) { return Err(Missing); }
      if At(now, id).etag != ifMatch { return Err(PreconditionFailed); }
      return Ok(At(now, id));
    }
  }

  class Target {
    const reliable: bool         // no request fails
    const honest: bool           // an upload that succeeds stores what was sent
    var store: Store
    ghost var uploads: seq<Id>   // the uploads of the current run
    ghost var sent: seq<Sent>    // and what was sent with them

    constructor (store: Store, reliable: bool, honest: bool)
      ensures this.store == store && this.reliable == reliable && this.honest == honest
      ensures uploads == [] && sent == []
    {
      this.store, this.reliable, this.honest := store, reliable, honest;
      uploads, sent := [], [];
    }

    method Fails() returns (fails: bool)
      ensures reliable ==> !fails
    {
      fails := *;
      fails := fails && !reliable;
    }

    method ListBuckets() returns (r: Result<set<Bucket>, Failure>)
      ensures r == Ok(store.Keys) || (r == Err(RequestFailed) && !reliable)
    {
      var fails := Fails();
      if fails { return Err(RequestFailed); }
      return Ok(store.Keys);
    }

    method CreateBucket(b: Bucket) returns (r: Result<(), Failure>)
      requires b !in store
      modifies this`store
      ensures store == old(store)[b := map[]] || (r.Err? && store == old(store))
      ensures r.Err? ==> (r.error == RequestFailed && !reliable)
    {
      var fails := Fails();
      if fails { return Err(RequestFailed); }
      store := store[b := map[]];
      fails := Fails();
      if fails { return Err(RequestFailed); }
      return Ok(());
    }

    method ListKeys(b: Bucket) returns (r: Result<set<Key>, Failure>)
      ensures r.Ok? ==> b in store && r.value == store[b].Keys
      ensures r.Err? ==> (r.error == RequestFailed && !reliable) || (r.error == Missing && b !in store)
    {
      var fails := Fails();
      if fails { return Err(RequestFailed); }
      if b !in store { return Err(Missing); }
      return Ok(store[b].Keys);
    }

    method Get(id: Id) returns (r: Result<Obj, Failure>)
      ensures r.Ok? ==> Has(store, id) && r.value == At(store, id)
      ensures r.Err? ==> (r.error == RequestFailed && !reliable) || (r.error == Missing && !Has(store, id))
    {
      var fails := Fails();
      if fails { return Err(RequestFailed); }
      if !Has(store, id) { return Err(Missing); }
      return Ok(At(store, id));
    }

    /** Writes nothing but the named object; unless it is honest, what ends up there is up to
        the service. */
    method Upload(id: Id, body: Bytes, meta: Metadata) returns (r: Result<(), Failure>)
      requires id.bucket in store
      modifies this
      ensures uploads == old(uploads) + [id] && sent == old(sent) + [Sent(id, body, meta)]
      ensures OnlyWrote(old(store), store, id) && (r.Ok? ==> Has(store, id))
      ensures r.Ok? && honest ==> At(store, id).body == body && At(store, id).meta == meta
      ensures r.Err? ==> (r.error == RequestFailed && !reliable)
    {
      uploads, sent := uploads + [id], sent + [Sent(id, body, meta)];
      var fails := Fails();
      if fails { return Err(RequestFailed); }
      var stored: Obj := *;
      if honest { stored := stored.(body := body, meta := meta); }
      store := store[id.bucket := store[id.bucket][id.key := stored]];
      fails := Fails();
      if fails { return Err(RequestFailed); }
      return Ok(());
    }
  }

  ghost predicate OnlyWrote(s: Store, t: Store, id: Id) {
    && t.Keys == s.Keys
    && (forall other: Id :: Has(s, other) ==> Has(t, other))
    && (forall other: Id :: other != id && Has(t, other) ==> Has(s, other) && At(t, other) == At(s, other))
  }

  /** The store still holds the inventoried object. */
  predicate Current(s: Store, id: Id, expected: Entry) {
    Has(s, id) && Describe(At(s, id)) == expected
  }

  // ---- what a run may do to the target ----

  /** Nothing disappears, and everything new or different was uploaded by this run. */
  ghost predicate OnlyUploaded(t0: Store, t: Store, plan: Inventory, uploads: seq<Id>) {
    && t0.Keys <= t.Keys <= t0.Keys + plan.Keys
    && (forall id: Id :: Has(t0, id) ==> Has(t, id))
    && (forall id: Id :: Has(t, id) && id !in uploads ==> Has(t0, id) && At(t0, id) == At(t, id))
  }

  /** The source answered with an object that the target did not hold when the run began. */
  ghost predicate WorthUploading(timeline: nat -> Store, lo: nat, hi: nat, t0: Store, id: Id) {
    exists t: nat :: lo <= t < hi && Has(timeline(t), id)
      && !(Has(t0, id) && At(t0, id).body == At(timeline(t), id).body && At(t0, id).meta == At(timeline(t), id).meta)
  }

  predicate Distinct<T(==)>(s: seq<T>) { forall i, j :: 0 <= i < j < |s| ==> s[i] != s[j] }

  /** What holds at every moment of a run, finished or cut off. */
  ghost predicate RunSoFar(timeline: nat -> Store, lo: nat, hi: nat, t0: Store, t: Store, plan: Inventory,
      uploads: seq<Id>) {
    && OnlyUploaded(t0, t, plan, uploads)
    && Distinct(uploads)
    && (forall id :: id in uploads ==> Listed(plan, id) && WorthUploading(timeline, lo, hi, t0, id))
  }

  ghost function Ids(items: seq<Item>): set<Id> { set item | item in items :: item.id }

  ghost function PlanIds(plan: Inventory): set<Id> {
    set b, k | b in plan && k in plan[b] :: Id(b, k)
  }

  /** The item records what the inventory says, and both stores have shown it. */
  ghost predicate Copied(timeline: nat -> Store, lo: nat, hi: nat, hash: Hash, t: Store, plan: Inventory, item: Item) {
    && Listed(plan, item.id)
    && item.meta == plan[item.id.bucket][item.id.key].meta
    && item.bytes == plan[item.id.bucket][item.id.key].size
    && Shows(t, hash, item)
    && ShownBetween(timeline, lo, hi, hash, item)
  }

  ghost predicate AllCopied(timeline: nat -> Store, lo: nat, hi: nat, hash: Hash, t: Store, plan: Inventory,
      items: seq<Item>, ids: set<Id>) {
    && DistinctItems(items)
    && Ids(items) == ids
    && (forall item :: item in items ==> Copied(timeline, lo, hi, hash, t, plan, item))
  }

  /** Failures that no change of the source explains: a call failed, or the target stored
      something else than it was sent. */
  predicate OwnFault(source: Source, target: Target, f: Failure) {
    || (f == RequestFailed && !(source.reliable && target.reliable))
    || (f == VerificationFailed && !target.honest)
  }

  // ---- loops over a set ----

  ghost predicate Partition<T>(all: set<T>, todo: set<T>, done: set<T>) { todo !! done && todo + done == all }

  lemma MovedNone<T>(all: set<T>)
    ensures Partition(all, all, {})
  {
  }

  lemma Move<T>(all: set<T>, todo: set<T>, done: set<T>, x: T)
    requires Partition(all, todo, done) && x in todo
    ensures Partition(all, todo - {x}, done + {x}) && x in all && x !in done && done <= all
  {
  }

  lemma MovedAll<T>(all: set<T>, done: set<T>)
    requires Partition(all, {}, done)
    ensures done == all
  {
  }

  // ---- the program ----

  datatype Fetched = Fetched(spool: Bytes, sha: Digest, size: nat)

  /** Reads a body piece by piece; short pieces are allowed, empty ones end it. */
  method Drain(hash: Hash, body: Bytes, reliable: bool) returns (r: Result<Fetched, Failure>)
    ensures r == Ok(Fetched(body, hash(body), |body|)) || (r == Err(RequestFailed) && !reliable)
  {
    var spool: Bytes := [];
    var size := 0;
    var rest := body;
    while rest != []
      invariant spool + rest == body && size == |spool|
      decreases |rest|
    {
      var fails: bool := *;
      if fails && !reliable { return Err(RequestFailed); }
      var n: int := *;
      if n < 1 || n > CHUNK || n > |rest| { n := 1; }
      var chunk := rest[..n];
      spool := spool + chunk;
      size := size + |chunk|;
      rest := rest[n..];
    }
    assert spool == body;
    return Ok(Fetched(spool, hash(spool), size));
  }

  /** Bucket by bucket, and key by key within a bucket, what the answers so far said. */
  ghost predicate Collected(timeline: nat -> Store, lo: nat, hi: nat, plan: Inventory, done: set<Bucket>) {
    && plan.Keys == done
    && (forall b :: b in plan ==>
      CollectedKeys(timeline, lo, hi, b, plan[b], plan[b].Keys) && KeysObserved(timeline, lo, hi, b, plan[b].Keys))
  }

  ghost predicate CollectedKeys(timeline: nat -> Store, lo: nat, hi: nat, b: Bucket, objects: map<Key, Entry>,
      done: set<Key>) {
    && objects.Keys == done
    && (forall k :: k in objects ==> EntryObserved(timeline, lo, hi, Id(b, k), objects[k]))
  }

  lemma CollectKey(timeline: nat -> Store, lo: nat, now: nat, hi: nat, b: Bucket, objects: map<Key, Entry>,
      done: set<Key>, k: Key, entry: Entry)
    requires CollectedKeys(timeline, lo, now, b, objects, done) && lo <= now < hi
    requires Has(timeline(now), Id(b, k)) && entry == Describe(At(timeline(now), Id(b, k)))
    ensures CollectedKeys(timeline, lo, hi, b, objects[k := entry], done + {k})
  {
    assert EntryObserved(timeline, lo, hi, Id(b, k), entry);
  }

  lemma CollectBucket(timeline: nat -> Store, lo: nat, now: nat, hi: nat, plan: Inventory, done: set<Bucket>,
      b: Bucket, objects: map<Key, Entry>)
    requires Collected(timeline, lo, now, plan, done) && now <= hi
    requires CollectedKeys(timeline, lo, hi, b, objects, objects.Keys)
        && KeysObserved(timeline, lo, hi, b, objects.Keys)
    ensures Collected(timeline, lo, hi, plan[b := objects], done + {b})
  {
    hide CollectedKeys, KeysObserved;
    forall c | c in plan
      ensures CollectedKeys(timeline, lo, hi, c, plan[c], plan[c].Keys)
          && KeysObserved(timeline, lo, hi, c, plan[c].Keys)
    {
      CollectedStays(timeline, lo, now, hi, c, plan[c]);
    }
  }

  lemma CollectedStays(timeline: nat -> Store, lo: nat, now: nat, hi: nat, b: Bucket, objects: map<Key, Entry>)
    requires CollectedKeys(timeline, lo, now, b, objects, objects.Keys)
        && KeysObserved(timeline, lo, now, b, objects.Keys)
    requires now <= hi
    ensures CollectedKeys(timeline, lo, hi, b, objects, objects.Keys) && KeysObserved(timeline, lo, hi, b, objects.Keys)
  {
    forall k | k in objects ensures EntryObserved(timeline, lo, hi, Id(b, k), objects[k]) {
      assert EntryObserved(timeline, lo, now, Id(b, k), objects[k]);
    }
  }

  lemma CollectedAll(timeline: nat -> Store, lo: nat, hi: nat, plan: Inventory)
    requires Collected(timeline, lo, hi, plan, timeline(lo).Keys) && lo < hi
    ensures Observed(timeline, lo, hi, plan)
  {
    forall b, k | b in plan && k in plan[b] ensures EntryObserved(timeline, lo, hi, Id(b, k), plan[b][k]) {
      assert CollectedKeys(timeline, lo, hi, b, plan[b], plan[b].Keys);
    }
  }

  lemma CollectedNothing(timeline: nat -> Store, lo: nat, hi: nat)
    ensures Collected(timeline, lo, hi, map[], {})
    ensures forall b :: CollectedKeys(timeline, lo, hi, b, map[], {})
  {
  }

  method TakeInventory(source: Source) returns (r: Result<Inventory, Failure>)
    modifies source
    ensures source.clock > old(source.clock)
    ensures r.Ok? ==> Observed(source.timeline, old(source.clock), source.clock, r.value)
    ensures r.Err? ==> r.error == RequestFailed || r.error == Missing
    ensures r.Err? && Frozen(source.timeline, old(source.clock)) ==> r.error == RequestFailed && !source.reliable
  {
    hide *;
    ghost var lo := source.clock;
    var listing := source.ListBuckets();
    if listing.Err? { return Err(listing.error); }
    var inventory: Inventory := map[];
    var todo := listing.value;
    ghost var done: set<Bucket> := {};
    MovedNone(todo);
    CollectedNothing(source.timeline, lo, source.clock);
    while todo != {}
      invariant source.clock > lo && Partition(listing.value, todo, done)
      invariant Collected(source.timeline, lo, source.clock, inventory, done)
      decreases |todo|
    {
      var b :| b in todo;
      Move(listing.value, todo, done, b);
      todo := todo - {b};
      var special := source.Fails();  // a configuration that needs a separate migration
      if special { return Err(RequestFailed); }
      ghost var now := source.clock;
      var objects := InventoryBucket(source, b, lo);
      if objects.Err? { return Err(objects.error); }
      CollectBucket(source.timeline, lo, now, source.clock, inventory, done, b, objects.value);
      inventory, done := inventory[b := objects.value], done + {b};
    }
    MovedAll(listing.value, done);
    CollectedAll(source.timeline, lo, source.clock, inventory);
    return Ok(inventory);
  }

  /** The pages of one bucket, with the heads of each page before the next page. */
  method InventoryBucket(source: Source, b: Bucket, ghost lo: nat) returns (r: Result<map<Key, Entry>, Failure>)
    requires lo < source.clock
    modifies source
    ensures source.clock > old(source.clock)
    ensures r.Ok? ==> KeysObserved(source.timeline, lo, source.clock, b, r.value.Keys)
    ensures r.Ok? ==> CollectedKeys(source.timeline, lo, source.clock, b, r.value, r.value.Keys)
    ensures r.Err? ==> r.error == RequestFailed || r.error == Missing
    ensures r.Err? && Frozen(source.timeline, lo) && b in source.timeline(lo) ==>
        r.error == RequestFailed && !source.reliable
  {
    hide *;
    var objects: map<Key, Entry> := map[];
    var after: Option<Key> := None;
    ghost var pages: seq<Page> := [];
    CollectedNothing(source.timeline, lo, source.clock);
    NoPages(source.timeline, lo, source.clock, b);
    var patience: nat := *;  // how many more pages until the listing ends or a request fails
    if source.reliable && b in source.timeline(source.clock) {
      patience := |source.timeline(source.clock)[b].Keys| + 1;
    }
    if source.reliable { RestStarts(source.timeline, lo, source.clock, b, patience); }
    while patience > 0
      invariant source.clock >= old(source.clock)
      invariant source.reliable ==> Enough(source.timeline, lo, b, after, patience)
      invariant CollectedKeys(source.timeline, lo, source.clock, b, objects, objects.Keys)
      invariant PagesUpTo(source.timeline, lo, source.clock, b, objects.Keys, pages, after)
      decreases patience
    {
      patience := patience - 1;
      ghost var now := source.clock;
      var page := source.ListPage(b, after);
      if page.Err? {
        FrozenBuckets(source.timeline, lo, now, b);
        return Err(page.error);
      }
      var (keys, upTo) := page.value;
      LaterKeys(source.timeline, lo, now, source.clock, b, objects);
      PageIsOnPage(source.timeline, now, b, after, upTo);
      var more := InventoryPage(source, b, keys, objects, lo, now);
      if more.Err? { return Err(more.error); }
      NextPage(source.timeline, lo, now, source.clock, b, objects.Keys, pages, after, keys, upTo);
      RestShrinks(source.timeline, lo, now, b, after, upTo, patience);
      objects, pages, after := more.value, pages + [Page(now, upTo)], upTo;
      if upTo == None { return Ok(objects); }
    }
    NothingIsEnough(source.timeline, lo, b, after);
    var failed := source.ListPage(b, after);
    return Err(RequestFailed);
  }

  /** While the writers are frozen, so many pages suffice for the rest of the listing. */
  ghost predicate Enough(timeline: nat -> Store, lo: nat, b: Bucket, after: Option<Key>, patience: nat) {
    Frozen(timeline, lo) && b in timeline(lo) ==> |PageKeys(timeline(lo)[b], after, None)| < patience
  }

  lemma RestStarts(timeline: nat -> Store, lo: nat, now: nat, b: Bucket, patience: nat)
    requires lo <= now && (b in timeline(now) ==> patience > |timeline(now)[b].Keys|)
    ensures Enough(timeline, lo, b, None, patience)
  {
    if Frozen(timeline, lo) && b in timeline(lo) {
      assert timeline(now) == timeline(lo);
      assert PageKeys(timeline(lo)[b], None, None) == timeline(lo)[b].Keys;
    }
  }

  /** A page with a bound takes at least its bound from what is left. */
  lemma RestShrinks(timeline: nat -> Store, lo: nat, now: nat, b: Bucket, after: Option<Key>, upTo: Option<Key>,
      patience: nat)
    requires lo <= now && b in timeline(now) && IsBound(timeline(now)[b], after, upTo)
    ensures Enough(timeline, lo, b, after, patience + 1) && upTo.Some? ==> Enough(timeline, lo, b, upTo, patience)
  {
    if Enough(timeline, lo, b, after, patience + 1) && upTo.Some? && Frozen(timeline, lo) && b in timeline(lo) {
      assert timeline(now) == timeline(lo);
      var more, rest := PageKeys(timeline(lo)[b], after, None), PageKeys(timeline(lo)[b], upTo, None);
      forall k | k in rest ensures k in more {
        if after.Some? { BeforeIsTransitive(after.value, upTo.value, k); }
      }
      BeforeIsTotal(upTo.value, upTo.value);
      SubsetIsSmaller(rest, more - {upTo.value});
    }
  }

  lemma {:induction false} SubsetIsSmaller<T>(a: set<T>, b: set<T>)
    requires a <= b
    ensures |a| <= |b|
  {
    assert b == a + (b - a);
  }

  lemma NothingIsEnough(timeline: nat -> Store, lo: nat, b: Bucket, after: Option<Key>)
    ensures Enough(timeline, lo, b, after, 0) ==> !(Frozen(timeline, lo) && b in timeline(lo))
  {
  }

  /** The heads of one page. */
  method InventoryPage(source: Source, b: Bucket, keys: set<Key>, before: map<Key, Entry>, ghost lo: nat,
      ghost listed: nat)
    returns (r: Result<map<Key, Entry>, Failure>)
    requires lo <= listed < source.clock && OnPage(source.timeline, listed, b, keys)
    requires CollectedKeys(source.timeline, lo, source.clock, b, before, before.Keys)
    modifies source
    ensures source.clock >= old(source.clock)
    ensures r.Ok? ==> r.value.Keys == before.Keys + keys
    ensures r.Ok? ==> CollectedKeys(source.timeline, lo, source.clock, b, r.value, r.value.Keys)
    ensures r.Err? ==> r.error == RequestFailed || r.error == Missing
    ensures r.Err? && Frozen(source.timeline, lo) ==> r.error == RequestFailed && !source.reliable
  {
    hide *;
    var objects := before;
    var todo := keys;
    ghost var done: set<Key> := {};
    MovedNone(todo);
    while todo != {}
      invariant source.clock >= old(source.clock) && Partition(keys, todo, done)
      invariant objects.Keys == before.Keys + done
      invariant CollectedKeys(source.timeline, lo, source.clock, b, objects, before.Keys + done)
      decreases |todo|
    {
      var k :| k in todo;
      Move(keys, todo, done, k);
      todo := todo - {k};
      ghost var now := source.clock;
      var head := source.Head(Id(b, k));
      if head.Err? {
        FrozenKeys(source.timeline, lo, listed, now, b, keys, k);
        return Err(head.error);
      }
      var special := source.Fails();  // an object that needs a separate migration
      if special { return Err(RequestFailed); }
      CollectKey(source.timeline, lo, now, source.clock, b, objects, before.Keys + done, k, head.value);
      OneMoreKey(before.Keys, done, k, objects, head.value);
      objects, done := objects[k := head.value], done + {k};
    }
    MovedAll(keys, done);
    return Ok(objects);
  }

  lemma OneMoreKey(before: set<Key>, done: set<Key>, k: Key, objects: map<Key, Entry>, entry: Entry)
    ensures before + done + {k} == before + (done + {k})
    ensures objects[k := entry].Keys == objects.Keys + {k}
  {
  }

  lemma PageIsOnPage(timeline: nat -> Store, listed: nat, b: Bucket, after: Option<Key>, upTo: Option<Key>)
    requires b in timeline(listed)
    ensures OnPage(timeline, listed, b, PageKeys(timeline(listed)[b], after, upTo))
  {
  }

  ghost predicate OnPage(timeline: nat -> Store, listed: nat, b: Bucket, keys: set<Key>) {
    b in timeline(listed) && keys <= timeline(listed)[b].Keys
  }

  lemma LaterKeys(timeline: nat -> Store, lo: nat, now: nat, hi: nat, b: Bucket, objects: map<Key, Entry>)
    requires CollectedKeys(timeline, lo, now, b, objects, objects.Keys) && now <= hi
    ensures CollectedKeys(timeline, lo, hi, b, objects, objects.Keys)
  {
    forall k | k in objects ensures EntryObserved(timeline, lo, hi, Id(b, k), objects[k]) {
      assert EntryObserved(timeline, lo, now, Id(b, k), objects[k]);
    }
  }

  /** The pages so far, all bounded, account for everything up to the last key seen. */
  ghost predicate PagesUpTo(timeline: nat -> Store, lo: nat, hi: nat, b: Bucket, keys: set<Key>, pages: seq<Page>,
      after: Option<Key>) {
    && PagesShow(timeline, lo, hi, b, keys, pages)
    && (forall i :: 0 <= i < |pages| ==> pages[i].upTo.Some?)
    && after == (if pages == [] then None else pages[|pages| - 1].upTo)
  }

  lemma NoPages(timeline: nat -> Store, lo: nat, hi: nat, b: Bucket)
    ensures PagesUpTo(timeline, lo, hi, b, {}, [], None)
  {
  }

  /** The bounds grow, so the keys that the pages reach are those up to the last bound. */
  lemma ReachedUpTo(pages: seq<Page>, k: Key)
    requires pages != [] && InOrder(pages) && forall i :: 0 <= i < |pages| ==> pages[i].upTo.Some?
    ensures Reached(pages, k) <==> !Before(pages[|pages| - 1].upTo.value, k)
  {
    var last := pages[|pages| - 1].upTo.value;
    if i :| 0 <= i < |pages| && Reaches(pages[i], k) {
      if i < |pages| - 1 && Before(last, k) { BeforeIsTransitive(pages[i].upTo.value, last, k); }
    }
    if !Before(last, k) { assert Reaches(pages[|pages| - 1], k); }
  }

  lemma NextPage(timeline: nat -> Store, lo: nat, now: nat, hi: nat, b: Bucket, keys: set<Key>, pages: seq<Page>,
      after: Option<Key>, more: set<Key>, upTo: Option<Key>)
    requires PagesUpTo(timeline, lo, now, b, keys, pages, after) && lo <= now < hi && b in timeline(now)
    requires more == PageKeys(timeline(now)[b], after, upTo) && IsBound(timeline(now)[b], after, upTo)
    ensures upTo == None ==> KeysObserved(timeline, lo, hi, b, keys + more)
    ensures upTo.Some? ==> PagesUpTo(timeline, lo, hi, b, keys + more, pages + [Page(now, upTo)], upTo)
  {
    hide Shown, Reached, Before, InOrder;
    var longer := pages + [Page(now, upTo)];
    forall k ensures k in keys + more <==> Shown(timeline, b, longer, k) {
      NextKey(timeline, lo, now, b, keys, pages, after, more, upTo, k);
    }
    NextInOrder(timeline, lo, now, b, keys, pages, after, upTo);
    assert PagesShow(timeline, lo, hi, b, keys + more, longer);
    assert upTo == None ==> Complete(longer);
  }

  /** A key is shown by the pages up to this one, or this page has it. */
  lemma NextKey(timeline: nat -> Store, lo: nat, now: nat, b: Bucket, keys: set<Key>, pages: seq<Page>,
      after: Option<Key>, more: set<Key>, upTo: Option<Key>, k: Key)
    requires PagesUpTo(timeline, lo, now, b, keys, pages, after) && b in timeline(now)
    requires more == PageKeys(timeline(now)[b], after, upTo)
    ensures k in keys + more <==> Shown(timeline, b, pages + [Page(now, upTo)], k)
  {
    var longer := pages + [Page(now, upTo)];
    assert longer[..|pages|] == pages;
    if pages != [] { ReachedUpTo(pages, k); }
    ShownIsReached(timeline, b, pages, k);
    assert k in keys <==> Shown(timeline, b, pages, k);
    hide PagesShow, Reached, Before;
  }

  lemma NextInOrder(timeline: nat -> Store, lo: nat, now: nat, b: Bucket, keys: set<Key>, pages: seq<Page>,
      after: Option<Key>, upTo: Option<Key>)
    requires PagesUpTo(timeline, lo, now, b, keys, pages, after)
    requires b in timeline(now) && IsBound(timeline(now)[b], after, upTo)
    ensures InOrder(pages + [Page(now, upTo)])
  {
    hide Shown, Reached, Before;
    BoundsGrow(pages, after, upTo);
  }

  lemma {:induction false} ShownIsReached(timeline: nat -> Store, b: Bucket, pages: seq<Page>, k: Key)
    ensures Shown(timeline, b, pages, k) ==> Reached(pages, k)
    decreases |pages|
  {
    if pages != [] {
      var init := pages[..|pages| - 1];
      ShownIsReached(timeline, b, init, k);
      if i :| 0 <= i < |init| && Reaches(init[i], k) { assert Reaches(pages[i], k); }
      assert Reaches(pages[|pages| - 1], k) ==> Reached(pages, k);
    }
  }

  /** A new bound lies beyond all earlier ones. */
  lemma BoundsGrow(pages: seq<Page>, after: Option<Key>, upTo: Option<Key>)
    requires InOrder(pages) && (forall i :: 0 <= i < |pages| ==> pages[i].upTo.Some?)
    requires after == (if pages == [] then None else pages[|pages| - 1].upTo)
    requires after.Some? && upTo.Some? ==> Before(after.value, upTo.value)
    ensures upTo.Some? ==> forall i :: 0 <= i < |pages| ==> Before(pages[i].upTo.value, upTo.value)
  {
    if upTo.Some? {
      forall i | 0 <= i < |pages| ensures Before(pages[i].upTo.value, upTo.value) {
        if i < |pages| - 1 { BeforeIsTransitive(pages[i].upTo.value, after.value, upTo.value); }
      }
    }
  }

  lemma FrozenBuckets(timeline: nat -> Store, lo: nat, now: nat, b: Bucket)
    requires lo <= now
    ensures Frozen(timeline, lo) && b in timeline(lo) ==> b in timeline(now)
  {
  }

  lemma FrozenKeys(timeline: nat -> Store, lo: nat, listed: nat, now: nat, b: Bucket, keys: set<Key>, k: Key)
    requires lo <= listed <= now && OnPage(timeline, listed, b, keys) && k in keys
    ensures Frozen(timeline, lo) ==> Has(timeline(now), Id(b, k))
  {
    if Frozen(timeline, lo) { assert timeline(now) == timeline(listed); }
  }

  /** Reads one object from the source, uploads it unless the target already shows
      it, and verifies what the target holds in the end. */
  method CopyObject(hash: Hash, source: Source, target: Target, id: Id, expected: Entry)
    returns (r: Result<Item, Failure>)
    requires id.bucket in target.store
    modifies source, target
    ensures source.clock > old(source.clock)
    ensures (target.uploads == old(target.uploads) && target.sent == old(target.sent)
                && target.store == old(target.store))
            || (target.uploads == old(target.uploads) + [id]
                && SentFrom(source.timeline(old(source.clock)), old(target.sent), target.sent, id)
                && OnlyWrote(old(target.store), target.store, id)
                && WorthUploading(source.timeline, old(source.clock), source.clock, old(target.store), id))
    ensures r.Ok? ==>
              && r.value.id == id && r.value.meta == expected.meta && r.value.bytes == expected.size
              && Shows(target.store, hash, r.value)
              && ShownBetween(source.timeline, old(source.clock), source.clock, hash, r.value)
    ensures r.Err? ==> r.error in {RequestFailed, Missing, PreconditionFailed, SourceChanged, VerificationFailed}
    ensures r.Err? && Current(source.timeline(old(source.clock)), id, expected) ==>
        OwnFault(source, target, r.error)
    ensures source.reliable && target.reliable && target.honest ==>
        Current(source.timeline(old(source.clock)), id, expected) ==> r.Ok?
  {
    ghost var asked := source.clock;
    var response := source.Get(id, expected.etag);
    if response.Err? { return Err(response.error); }
    var fetched := Drain(hash, response.value.body, source.reliable);
    if fetched.Err? { return Err(fetched.error); }
    if fetched.value.size != expected.size || response.value.meta != expected.meta { return Err(SourceChanged); }
    var item := Item(id, fetched.value.size, fetched.value.sha, expected.meta);
    assert Shows(source.timeline(asked), hash, item);
    var same := false;
    var head := target.Get(id);
    if head.Err? && head.error != Missing { return Err(head.error); }
    if head.Ok? && head.value.meta == expected.meta {
      var there := DigestTarget(hash, target, id);
      if there.Err? { return Err(there.error); }
      same := there.value == (item.sha, item.bytes);
    }
    if !same {
      assert WorthUploading(source.timeline, asked, source.clock, target.store, id);
      var sent := target.Upload(id, fetched.value.spool, response.value.meta);
      if sent.Err? { return Err(sent.error); }
    }
    head := target.Get(id);
    if head.Err? { return Err(head.error); }
    if head.value.meta != expected.meta { return Err(VerificationFailed); }
    var there := DigestTarget(hash, target, id);
    if there.Err? { return Err(there.error); }
    if there.value != (item.sha, item.bytes) { return Err(VerificationFailed); }
    return Ok(item);
  }

  /** One more upload, with the body and the metadata that this store has under the name. */
  ghost predicate SentFrom(s: Store, before: seq<Sent>, after: seq<Sent>, id: Id) {
    Has(s, id) && after == before + [Sent(id, At(s, id).body, At(s, id).meta)]
  }

  /** Everything sent is an object of the source as it was at an instant of the run. */
  ghost predicate SentWasShown(timeline: nat -> Store, lo: nat, hi: nat, sent: seq<Sent>) {
    forall i :: 0 <= i < |sent| ==> WasShown(timeline, lo, hi, sent[i])
  }

  ghost predicate WasShown(timeline: nat -> Store, lo: nat, hi: nat, x: Sent) {
    exists t: nat :: lo <= t < hi && Has(timeline(t), x.id)
      && At(timeline(t), x.id).body == x.body && At(timeline(t), x.id).meta == x.meta
  }

  /** The uploads and what was sent with them. */
  ghost predicate SentSoFar(timeline: nat -> Store, lo: nat, hi: nat, uploads: seq<Id>, sent: seq<Sent>) {
    && |uploads| == |sent| && (forall i :: 0 <= i < |sent| ==> sent[i].id == uploads[i])
    && SentWasShown(timeline, lo, hi, sent)
  }

  lemma SentLater(timeline: nat -> Store, lo: nat, mid: nat, hi: nat, uploads: seq<Id>, sent: seq<Sent>)
    requires mid <= hi && SentSoFar(timeline, lo, mid, uploads, sent)
    ensures SentSoFar(timeline, lo, hi, uploads, sent)
  {
    forall i | 0 <= i < |sent| ensures WasShown(timeline, lo, hi, sent[i]) {
      assert WasShown(timeline, lo, mid, sent[i]);
    }
  }

  lemma SentOneMore(timeline: nat -> Store, lo: nat, mid: nat, hi: nat, uploads: seq<Id>, sent: seq<Sent>,
      after: seq<Sent>, id: Id)
    requires lo <= mid < hi && SentSoFar(timeline, lo, mid, uploads, sent)
    requires SentFrom(timeline(mid), sent, after, id)
    ensures SentSoFar(timeline, lo, hi, uploads + [id], after)
  {
    SentLater(timeline, lo, mid, hi, uploads, sent);
    assert WasShown(timeline, lo, hi, after[|sent|]);
  }

  lemma NothingSent(timeline: nat -> Store, lo: nat, hi: nat)
    ensures SentSoFar(timeline, lo, hi, [], [])
  {
  }

  method DigestTarget(hash: Hash, target: Target, id: Id) returns (r: Result<(Digest, nat), Failure>)
    requires Has(target.store, id)
    ensures r == Ok((hash(At(target.store, id).body), |At(target.store, id).body|))
        || (r == Err(RequestFailed) && !target.reliable)
  {
    var response := target.Get(id);
    if response.Err? { return Err(response.error); }
    var fetched := Drain(hash, response.value.body, target.reliable);
    if fetched.Err? { return Err(fetched.error); }
    return Ok((fetched.value.sha, fetched.value.size));
  }

  /** `digest` with an expectation: the source object must still be the inventoried one. */
  method DigestSource(hash: Hash, source: Source, id: Id, expected: Entry) returns (r: Result<(Digest, nat), Failure>)
    modifies source
    ensures source.clock == old(source.clock) + 1
    ensures r.Ok? ==> Shows(source.timeline(old(source.clock)), hash, Item(id, r.value.1, r.value.0, expected.meta))
    ensures r.Err? ==> r.error in {RequestFailed, Missing, PreconditionFailed, SourceChanged}
    ensures var now := source.timeline(old(source.clock));
            Current(now, id, expected) ==>
                r == Ok((hash(At(now, id).body), expected.size)) || (r == Err(RequestFailed) && !source.reliable)
  {
    var response := source.Get(id, expected.etag);
    if response.Err? { return Err(response.error); }
    var fetched := Drain(hash, response.value.body, source.reliable);
    if fetched.Err? { return Err(fetched.error); }
    if fetched.value.size != expected.size || response.value.meta != expected.meta { return Err(SourceChanged); }
    return Ok((fetched.value.sha, fetched.value.size));
  }

  lemma RunSoFarGrows(timeline: nat -> Store, lo: nat, mid: nat, hi: nat, t0: Store, s: Store, t: Store,
      plan: Inventory, uploads: seq<Id>, id: Id)
    requires lo <= mid <= hi
    requires RunSoFar(timeline, lo, mid, t0, s, plan, uploads)
    requires id !in uploads && Listed(plan, id) && OnlyWrote(s, t, id)
    requires WorthUploading(timeline, mid, hi, s, id)
    ensures RunSoFar(timeline, lo, hi, t0, t, plan, uploads + [id])
  {
    assert Has(t0, id) ==> Has(s, id) && At(s, id) == At(t0, id);
    assert Has(s, id) ==> Has(t0, id);
    assert WorthUploading(timeline, lo, hi, t0, id);
  }

  lemma CopiedStays(timeline: nat -> Store, lo: nat, mid: nat, hi: nat, hash: Hash, s: Store, t: Store,
      plan: Inventory, items: seq<Item>, id: Id)
    requires mid <= hi && AllCopied(timeline, lo, mid, hash, s, plan, items, Ids(items))
    requires s == t || (OnlyWrote(s, t, id) && id !in Ids(items))
    ensures AllCopied(timeline, lo, hi, hash, t, plan, items, Ids(items))
  {
    forall item | item in items ensures Copied(timeline, lo, hi, hash, t, plan, item) {
      assert Copied(timeline, lo, mid, hash, s, plan, item);
      assert item.id in Ids(items);
    }
  }

  lemma CopiedAppends(timeline: nat -> Store, lo: nat, hi: nat, hash: Hash, t: Store, plan: Inventory,
      items: seq<Item>, item: Item)
    requires AllCopied(timeline, lo, hi, hash, t, plan, items, Ids(items))
    requires Copied(timeline, lo, hi, hash, t, plan, item) && item.id !in Ids(items)
    ensures AllCopied(timeline, lo, hi, hash, t, plan, items + [item], Ids(items) + {item.id})
  {
    var longer := items + [item];
    forall i, j | 0 <= i < j < |longer| ensures longer[i].id != longer[j].id {
      if j == |items| { assert items[i] in items; assert items[i].id in Ids(items); }
    }
    assert forall x :: x in longer <==> x in items || x == item;
    assert Ids(longer) == Ids(items) + {item.id};
  }

  ghost function BucketIds(b: Bucket, keys: set<Key>): set<Id> { set k | k in keys :: Id(b, k) }

  /** A run that has copied exactly these items so far. */
  ghost predicate Copying(timeline: nat -> Store, lo: nat, hi: nat, hash: Hash, t0: Store, t: Store, plan: Inventory,
      uploads: seq<Id>, items: seq<Item>) {
    && RunSoFar(timeline, lo, hi, t0, t, plan, uploads)
    && AllCopied(timeline, lo, hi, hash, t, plan, items, Ids(items))
    && (forall id :: id in uploads ==> id in Ids(items))
  }

  method CopyNext(hash: Hash, source: Source, target: Target, plan: Inventory, id: Id, items: seq<Item>,
      ghost lo: nat, ghost t0: Store)
    returns (r: Result<seq<Item>, Failure>)
    requires Listed(plan, id) && id.bucket in target.store && id !in Ids(items) && lo < source.clock
    requires Copying(source.timeline, lo, source.clock, hash, t0, target.store, plan, target.uploads, items)
    requires SentSoFar(source.timeline, lo, source.clock, target.uploads, target.sent)
    modifies source, target
    ensures source.clock > old(source.clock) && target.store.Keys == old(target.store.Keys)
    ensures SentSoFar(source.timeline, lo, source.clock, target.uploads, target.sent)
    ensures RunSoFar(source.timeline, lo, source.clock, t0, target.store, plan, target.uploads)
    ensures r.Ok? ==> Copying(source.timeline, lo, source.clock, hash, t0, target.store, plan, target.uploads, r.value)
    ensures r.Ok? ==> Ids(r.value) == Ids(items) + {id}
    ensures r.Err? && Current(source.timeline(old(source.clock)), id, plan[id.bucket][id.key]) ==>
        OwnFault(source, target, r.error)
  {
    ghost var mid, s, done, sent := source.clock, target.store, target.uploads, target.sent;
    var copied := CopyObject(hash, source, target, id, plan[id.bucket][id.key]);
    if target.uploads != done {
      SentOneMore(source.timeline, lo, mid, source.clock, done, sent, target.sent, id);
      RunSoFarGrows(source.timeline, lo, mid, source.clock, t0, s, target.store, plan, done, id);
    } else {
      SentLater(source.timeline, lo, mid, source.clock, done, sent);
    }
    if copied.Err? { return Err(copied.error); }
    CopiedStays(source.timeline, lo, mid, source.clock, hash, s, target.store, plan, items, id);
    assert Copied(source.timeline, lo, source.clock, hash, target.store, plan, copied.value);
    CopiedAppends(source.timeline, lo, source.clock, hash, target.store, plan, items, copied.value);
    var fails := target.Fails();  // the checkpoint
    if fails { return Err(RequestFailed); }
    return Ok(items + [copied.value]);
  }

  lemma CopyingRuns(timeline: nat -> Store, lo: nat, hi: nat, hash: Hash, t0: Store, t: Store, plan: Inventory,
      uploads: seq<Id>, items: seq<Item>)
    requires Copying(timeline, lo, hi, hash, t0, t, plan, uploads, items)
    ensures RunSoFar(timeline, lo, hi, t0, t, plan, uploads)
  {
  }

  lemma FrozenEntry(timeline: nat -> Store, lo: nat, now: nat, plan: Inventory, id: Id)
    requires now >= lo && Listed(plan, id)
    ensures Frozen(timeline, lo) && plan == DescribeStore(timeline(lo)) ==>
        Current(timeline(now), id, plan[id.bucket][id.key])
  {
    if Frozen(timeline, lo) { assert timeline(now) == timeline(lo); }
  }

  /** The inner loop: every object of one bucket. */
  method CopyObjects(hash: Hash, source: Source, target: Target, plan: Inventory, b: Bucket, verified: seq<Item>,
      ghost lo: nat, ghost t0: Store)
    returns (r: Result<seq<Item>, Failure>)
    requires b in plan && b in target.store && lo < source.clock
    requires Copying(source.timeline, lo, source.clock, hash, t0, target.store, plan, target.uploads, verified)
    requires forall id :: id in Ids(verified) ==> id.bucket != b
    requires SentSoFar(source.timeline, lo, source.clock, target.uploads, target.sent)
    modifies source, target
    ensures source.clock >= old(source.clock) && target.store.Keys == old(target.store.Keys)
    ensures SentSoFar(source.timeline, lo, source.clock, target.uploads, target.sent)
    ensures RunSoFar(source.timeline, lo, source.clock, t0, target.store, plan, target.uploads)
    ensures r.Ok? ==> Copying(source.timeline, lo, source.clock, hash, t0, target.store, plan, target.uploads, r.value)
    ensures r.Ok? ==> Ids(r.value) == Ids(verified) + BucketIds(b, plan[b].Keys)
    ensures r.Err? && Frozen(source.timeline, lo) && plan == DescribeStore(source.timeline(lo)) ==>
        OwnFault(source, target, r.error)
  {
    hide *;
    var items := verified;
    var todo := plan[b].Keys;
    ghost var done: set<Key> := {};
    MovedNone(todo);
    NoObjects(verified, b);
    while todo != {}
      invariant Partition(plan[b].Keys, todo, done) && source.clock >= old(source.clock)
      invariant target.store.Keys == old(target.store.Keys)
      invariant Copying(source.timeline, lo, source.clock, hash, t0, target.store, plan, target.uploads, items)
      invariant AddedObjects(verified, items, b, done)
      invariant SentSoFar(source.timeline, lo, source.clock, target.uploads, target.sent)
      decreases |todo|
    {
      var k :| k in todo;
      Move(plan[b].Keys, todo, done, k);
      todo := todo - {k};
      ghost var before, asked := items, source.clock;
      NextObject(verified, items, plan, b, done, k);
      r := CopyNext(hash, source, target, plan, Id(b, k), items, lo, t0);
      if r.Err? {
        FrozenEntry(source.timeline, lo, asked, plan, Id(b, k));
        return r;
      }
      items := r.value;
      AddObject(verified, before, items, b, done, k);
      done := done + {k};
    }
    MovedAll(plan[b].Keys, done);
    AllObjects(verified, items, b, done);
    CopyingRuns(source.timeline, lo, source.clock, hash, t0, target.store, plan, target.uploads, items);
    return Ok(items);
  }

  ghost predicate AddedObjects(verified: seq<Item>, items: seq<Item>, b: Bucket, keys: set<Key>) {
    Ids(items) == Ids(verified) + BucketIds(b, keys)
  }

  lemma NoObjects(verified: seq<Item>, b: Bucket)
    ensures AddedObjects(verified, verified, b, {})
  {
  }

  lemma NextObject(verified: seq<Item>, items: seq<Item>, plan: Inventory, b: Bucket, keys: set<Key>, k: Key)
    requires AddedObjects(verified, items, b, keys) && k !in keys && b in plan && k in plan[b]
    requires forall id :: id in Ids(verified) ==> id.bucket != b
    ensures Id(b, k) !in Ids(items) && Listed(plan, Id(b, k))
  {
  }

  lemma AddObject(verified: seq<Item>, before: seq<Item>, items: seq<Item>, b: Bucket, keys: set<Key>, k: Key)
    requires AddedObjects(verified, before, b, keys) && Ids(items) == Ids(before) + {Id(b, k)}
    ensures AddedObjects(verified, items, b, keys + {k})
  {
    assert BucketIds(b, keys + {k}) == BucketIds(b, keys) + {Id(b, k)};
  }

  lemma AllObjects(verified: seq<Item>, items: seq<Item>, b: Bucket, keys: set<Key>)
    requires AddedObjects(verified, items, b, keys)
    ensures Ids(items) == Ids(verified) + BucketIds(b, keys)
  {
  }

  method CopyBucket(hash: Hash, source: Source, target: Target, plan: Inventory, b: Bucket, verified: seq<Item>,
      ghost lo: nat, ghost t0: Store)
    returns (r: Result<seq<Item>, Failure>)
    requires b in plan && b in target.store && lo < source.clock
    requires Copying(source.timeline, lo, source.clock, hash, t0, target.store, plan, target.uploads, verified)
    requires forall id :: id in Ids(verified) ==> id.bucket != b
    requires SentSoFar(source.timeline, lo, source.clock, target.uploads, target.sent)
    modifies source, target
    ensures source.clock >= old(source.clock) && target.store.Keys == old(target.store.Keys)
    ensures SentSoFar(source.timeline, lo, source.clock, target.uploads, target.sent)
    ensures RunSoFar(source.timeline, lo, source.clock, t0, target.store, plan, target.uploads)
    ensures r.Ok? ==> Copying(source.timeline, lo, source.clock, hash, t0, target.store, plan, target.uploads, r.value)
    ensures r.Ok? ==> Ids(r.value) == Ids(verified) + BucketIds(b, plan[b].Keys)
    ensures r.Ok? ==> target.store[b].Keys == plan[b].Keys
    ensures r.Err? && Frozen(source.timeline, lo) && plan == DescribeStore(source.timeline(lo)) ==>
              OwnFault(source, target, r.error) || (r.error == KeySetDiffers && !(target.store[b].Keys <= plan[b].Keys))
  {
    r := CopyObjects(hash, source, target, plan, b, verified, lo, t0);
    if r.Err? { return r; }
    var actual := target.ListKeys(b);
    if actual.Err? { return Err(actual.error); }
    CopiedKeysAreThere(source.timeline, lo, source.clock, hash, t0, target.store, plan, target.uploads, r.value, b);
    if actual.value != plan[b].Keys { return Err(KeySetDiffers); }
  }

  lemma CopiedKeysAreThere(timeline: nat -> Store, lo: nat, hi: nat, hash: Hash, t0: Store, t: Store,
      plan: Inventory, uploads: seq<Id>, items: seq<Item>, b: Bucket)
    requires b in plan && b in t && Copying(timeline, lo, hi, hash, t0, t, plan, uploads, items)
    requires BucketIds(b, plan[b].Keys) <= Ids(items)
    ensures plan[b].Keys <= t[b].Keys
  {
    forall k | k in plan[b].Keys ensures k in t[b].Keys {
      assert Id(b, k) in Ids(items);
      var item :| item in items && item.id == Id(b, k);
      assert Copied(timeline, lo, hi, hash, t, plan, item);
    }
  }

  /** Every target key of these buckets was there for the inventory to know. */
  ghost predicate NoStrangers(t0: Store, plan: Inventory, buckets: set<Bucket>) {
    forall b :: b in buckets && b in t0 ==> b in plan && t0[b].Keys <= plan[b].Keys
  }

  lemma BucketCreated(timeline: nat -> Store, lo: nat, hi: nat, hash: Hash, t0: Store, t: Store, plan: Inventory,
      uploads: seq<Id>, items: seq<Item>, b: Bucket)
    requires Copying(timeline, lo, hi, hash, t0, t, plan, uploads, items) && b in plan && b !in t
    ensures Copying(timeline, lo, hi, hash, t0, t[b := map[]], plan, uploads, items)
  {
    var u := t[b := map[]];
    forall item | item in items ensures Copied(timeline, lo, hi, hash, u, plan, item) {
      assert Copied(timeline, lo, hi, hash, t, plan, item);
    }
  }

  ghost function IdsOf(plan: Inventory, buckets: set<Bucket>): set<Id>
    requires buckets <= plan.Keys
  {
    set b, k | b in buckets && k in plan[b] :: Id(b, k)
  }

  lemma IdsOfGrow(plan: Inventory, buckets: set<Bucket>, b: Bucket)
    requires buckets <= plan.Keys && b in plan
    ensures IdsOf(plan, buckets + {b}) == IdsOf(plan, buckets) + BucketIds(b, plan[b].Keys)
  {
  }

  /** The outer loop: every bucket of the inventory. */
  method CopyAll(hash: Hash, source: Source, target: Target, plan: Inventory, present: set<Bucket>, ghost lo: nat)
    returns (r: Result<seq<Item>, Failure>)
    requires lo < source.clock && present == target.store.Keys && present <= plan.Keys && target.uploads == []
    requires SentSoFar(source.timeline, lo, source.clock, target.uploads, target.sent)
    modifies source, target
    ensures source.clock >= old(source.clock)
    ensures SentSoFar(source.timeline, lo, source.clock, target.uploads, target.sent)
    ensures RunSoFar(source.timeline, lo, source.clock, old(target.store), target.store, plan, target.uploads)
    ensures r.Ok? ==>
        Copying(source.timeline, lo, source.clock, hash, old(target.store), target.store, plan, target.uploads, r.value)
    ensures r.Ok? ==>
        Ids(r.value) == PlanIds(plan) && target.store.Keys == plan.Keys
          && NoStrangers(old(target.store), plan, plan.Keys)
    ensures r.Err? && Frozen(source.timeline, lo) && plan == DescribeStore(source.timeline(lo)) ==>
              || OwnFault(source, target, r.error)
              || (r.error == KeySetDiffers && !NoStrangers(old(target.store), plan, plan.Keys))
  {
    ghost var t0 := target.store;
    hide *;
    NothingCopied(source.timeline, lo, source.clock, hash, t0, plan);
    var verified: seq<Item> := [];
    var todo := plan.Keys;
    ghost var done: set<Bucket> := {};
    MovedNone(plan.Keys);
    while todo != {}
      invariant Partition(plan.Keys, todo, done) && source.clock >= old(source.clock)
      invariant BucketsCopied(source.timeline, lo, source.clock, hash, t0, target.store, plan, target.uploads,
          verified, done)
      invariant SentSoFar(source.timeline, lo, source.clock, target.uploads, target.sent)
      decreases |todo|
    {
      var b :| b in todo;
      Move(plan.Keys, todo, done, b);
      todo := todo - {b};
      ghost var items, s := verified, target.store;
      BeforeBucket(source.timeline, lo, source.clock, hash, t0, s, plan, target.uploads, items, done, b);
      r := CopyOneBucket(hash, source, target, plan, b, b in present, verified, lo, t0);
      if r.Err? {
        OneStranger(t0, plan, b);
        return r;
      }
      verified := r.value;
      AfterBucket(source.timeline, lo, source.clock, hash, t0, s, target.store, plan, target.uploads, items,
        verified, done, b);
      done := done + {b};
    }
    MovedAll(plan.Keys, done);
    AllBuckets(source.timeline, lo, source.clock, hash, t0, target.store, plan, target.uploads, verified);
    return Ok(verified);
  }

  lemma NothingCopied(timeline: nat -> Store, lo: nat, hi: nat, hash: Hash, t0: Store, plan: Inventory)
    requires t0.Keys <= plan.Keys
    ensures BucketsCopied(timeline, lo, hi, hash, t0, t0, plan, [], [], {})
  {
  }

  lemma BeforeBucket(timeline: nat -> Store, lo: nat, hi: nat, hash: Hash, t0: Store, t: Store, plan: Inventory,
      uploads: seq<Id>, items: seq<Item>, done: set<Bucket>, b: Bucket)
    requires b in plan && b !in done && done <= plan.Keys
    requires BucketsCopied(timeline, lo, hi, hash, t0, t, plan, uploads, items, done)
    ensures Copying(timeline, lo, hi, hash, t0, t, plan, uploads, items)
    ensures NoStrangers(t0, plan, done) && Ids(items) == IdsOf(plan, done) && t.Keys == t0.Keys + done
    ensures forall id :: id in Ids(items) ==> id.bucket != b
  {
  }

  lemma AfterBucket(timeline: nat -> Store, lo: nat, hi: nat, hash: Hash, t0: Store, s: Store, t: Store,
      plan: Inventory, uploads: seq<Id>, before: seq<Item>, items: seq<Item>, done: set<Bucket>, b: Bucket)
    requires b in plan && done <= plan.Keys && NoStrangers(t0, plan, done) && NoStrangers(t0, plan, {b})
    requires s.Keys == t0.Keys + done && t.Keys == s.Keys + {b}
    requires Ids(before) == IdsOf(plan, done) && Ids(items) == Ids(before) + BucketIds(b, plan[b].Keys)
    requires Copying(timeline, lo, hi, hash, t0, t, plan, uploads, items)
    ensures BucketsCopied(timeline, lo, hi, hash, t0, t, plan, uploads, items, done + {b})
  {
    IdsOfGrow(plan, done, b);
  }

  lemma OneStranger(t0: Store, plan: Inventory, b: Bucket)
    requires b in plan
    ensures !NoStrangers(t0, plan, {b}) ==> !NoStrangers(t0, plan, plan.Keys)
  {
  }

  lemma AllBuckets(timeline: nat -> Store, lo: nat, hi: nat, hash: Hash, t0: Store, t: Store, plan: Inventory,
      uploads: seq<Id>, items: seq<Item>)
    requires t0.Keys <= plan.Keys && BucketsCopied(timeline, lo, hi, hash, t0, t, plan, uploads, items, plan.Keys)
    ensures Copying(timeline, lo, hi, hash, t0, t, plan, uploads, items)
        && RunSoFar(timeline, lo, hi, t0, t, plan, uploads)
    ensures Ids(items) == PlanIds(plan) && t.Keys == plan.Keys && NoStrangers(t0, plan, plan.Keys)
  {
    assert IdsOf(plan, plan.Keys) == PlanIds(plan);
  }

  ghost predicate BucketsCopied(timeline: nat -> Store, lo: nat, hi: nat, hash: Hash, t0: Store, t: Store,
      plan: Inventory, uploads: seq<Id>, items: seq<Item>, done: set<Bucket>) {
    && Copying(timeline, lo, hi, hash, t0, t, plan, uploads, items)
    && done <= plan.Keys && Ids(items) == IdsOf(plan, done)
    && t.Keys == t0.Keys + done
    && NoStrangers(t0, plan, done)
  }

  method CopyOneBucket(hash: Hash, source: Source, target: Target, plan: Inventory, b: Bucket, there: bool,
      verified: seq<Item>, ghost lo: nat, ghost t0: Store)
    returns (r: Result<seq<Item>, Failure>)
    requires b in plan && there == (b in target.store) && lo < source.clock
    requires Copying(source.timeline, lo, source.clock, hash, t0, target.store, plan, target.uploads, verified)
    requires forall id :: id in Ids(verified) ==> id.bucket != b
    requires SentSoFar(source.timeline, lo, source.clock, target.uploads, target.sent)
    modifies source, target
    ensures source.clock >= old(source.clock)
    ensures SentSoFar(source.timeline, lo, source.clock, target.uploads, target.sent)
    ensures RunSoFar(source.timeline, lo, source.clock, t0, target.store, plan, target.uploads)
    ensures r.Ok? ==> target.store.Keys == old(target.store.Keys) + {b}
    ensures r.Ok? ==> Copying(source.timeline, lo, source.clock, hash, t0, target.store, plan, target.uploads, r.value)
    ensures r.Ok? ==> Ids(r.value) == Ids(verified) + BucketIds(b, plan[b].Keys)
    ensures r.Ok? ==> NoStrangers(t0, plan, {b})
    ensures r.Err? && Frozen(source.timeline, lo) && plan == DescribeStore(source.timeline(lo)) ==>
              OwnFault(source, target, r.error) || (r.error == KeySetDiffers && !NoStrangers(t0, plan, {b}))
  {
    if !there {
      BucketCreated(source.timeline, lo, source.clock, hash, t0, target.store, plan, target.uploads, verified, b);
      var created := target.CreateBucket(b);
      if created.Err? { return Err(created.error); }
    }
    r := CopyBucket(hash, source, target, plan, b, verified, lo, t0);
    StrangersShow(source.timeline, lo, source.clock, t0, target.store, plan, target.uploads, b);
  }

  lemma StrangersShow(timeline: nat -> Store, lo: nat, hi: nat, t0: Store, t: Store, plan: Inventory,
      uploads: seq<Id>, b: Bucket)
    requires RunSoFar(timeline, lo, hi, t0, t, plan, uploads) && b in plan && b in t
    ensures NoStrangers(t0, plan, {b}) <==> t[b].Keys <= plan[b].Keys
  {
    if NoStrangers(t0, plan, {b}) {
      forall k | k in t[b].Keys ensures k in plan[b].Keys {
        assert Has(t, Id(b, k));
        if Id(b, k) !in uploads { assert Has(t0, Id(b, k)); }
      }
    } else {
      var k :| k in t0[b].Keys && k !in plan[b].Keys;
      assert Has(t0, Id(b, k)) && Has(t, Id(b, k));
    }
  }

  // ---- totals ----

  function SizeIn(plan: Inventory): Id -> nat {
    id => if Listed(plan, id) then plan[id.bucket][id.key].size else 0
  }

  ghost function ObjectCount(plan: Inventory): nat { |PlanIds(plan)| }

  ghost function ByteTotal(plan: Inventory): nat { SetSum(PlanIds(plan), SizeIn(plan)) }

  function SumBytes(items: seq<Item>): nat {
    if items == [] then 0 else SumBytes(items[..|items| - 1]) + items[|items| - 1].bytes
  }

  lemma {:induction false} DistinctItemsAddUp(items: seq<Item>, size: Id -> nat)
    requires DistinctItems(items)
    requires forall item :: item in items ==> item.bytes == size(item.id)
    ensures |Ids(items)| == |items| && SetSum(Ids(items), size) == SumBytes(items)
  {
    if items == [] {
      NoItems(size);
    } else {
      var init, last := items[..|items| - 1], items[|items| - 1];
      InitIsDistinct(items);
      DistinctItemsAddUp(init, size);
      hide *;
      IdsAppend(items);
      SetSumAdd(Ids(init), last.id, size);
      SumAppend(items);
    }
  }

  predicate DistinctItems(items: seq<Item>) {
    forall i, j :: 0 <= i < j < |items| ==> items[i].id != items[j].id
  }

  lemma NoItems(size: Id -> nat)
    ensures |Ids([])| == 0 && SetSum(Ids([]), size) == SumBytes([])
  {
  }

  lemma InitIsDistinct(items: seq<Item>)
    requires items != [] && DistinctItems(items)
    ensures DistinctItems(items[..|items| - 1])
  {
  }

  lemma SumAppend(items: seq<Item>)
    requires items != []
    ensures SumBytes(items) == SumBytes(items[..|items| - 1]) + items[|items| - 1].bytes
  {
  }

  lemma IdsAppend(items: seq<Item>)
    requires items != [] && DistinctItems(items)
    ensures var init, last := items[..|items| - 1], items[|items| - 1];
            Ids(items) == Ids(init) + {last.id} && last.id !in Ids(init)
  {
    var init, last := items[..|items| - 1], items[|items| - 1];
    assert items == init + [last];
    forall item | item in init ensures item.id != last.id {
      var i :| 0 <= i < |init| && init[i] == item;
      assert items[i] == item;
    }
  }

  /** The two sums of a dry run. */
  method CountInventory(plan: Inventory) returns (objects: nat, bytes: nat)
    ensures objects == ObjectCount(plan) && bytes == ByteTotal(plan)
  {
    hide Partition, SetSum;
    objects, bytes := 0, 0;
    var todo := plan.Keys;
    ghost var done: set<Bucket> := {};
    MovedNone(todo);
    NoIds(plan);
    while todo != {}
      invariant Partition(plan.Keys, todo, done) && done <= plan.Keys
      invariant objects == |IdsOf(plan, done)| && bytes == SetSum(IdsOf(plan, done), SizeIn(plan))
      decreases |todo|
    {
      var b :| b in todo;
      Move(plan.Keys, todo, done, b);
      todo := todo - {b};
      objects, bytes := CountBucket(plan, b, IdsOf(plan, done), objects, bytes);
      IdsOfGrow(plan, done, b);
      done := done + {b};
    }
    MovedAll(plan.Keys, done);
    assert IdsOf(plan, plan.Keys) == PlanIds(plan);
  }

  method CountBucket(plan: Inventory, b: Bucket, ghost counted: set<Id>, objects0: nat, bytes0: nat)
    returns (objects: nat, bytes: nat)
    requires b in plan && forall id :: id in counted ==> id.bucket != b
    requires objects0 == |counted| && bytes0 == SetSum(counted, SizeIn(plan))
    ensures objects == |counted + BucketIds(b, plan[b].Keys)|
    ensures bytes == SetSum(counted + BucketIds(b, plan[b].Keys), SizeIn(plan))
  {
    hide *;
    objects, bytes := objects0, bytes0;
    var todo := plan[b].Keys;
    ghost var done: set<Key> := {};
    MovedNone(todo);
    CountNothing(b, counted);
    while todo != {}
      invariant Partition(plan[b].Keys, todo, done)
      invariant objects == |counted + BucketIds(b, done)| && bytes == SetSum(counted + BucketIds(b, done), SizeIn(plan))
      decreases |todo|
    {
      var k :| k in todo;
      Move(plan[b].Keys, todo, done, k);
      todo := todo - {k};
      objects, bytes := objects + 1, bytes + plan[b][k].size;
      CountOne(plan, b, counted, done, k);
      done := done + {k};
    }
    MovedAll(plan[b].Keys, done);
  }

  lemma NoIds(plan: Inventory)
    ensures IdsOf(plan, {}) == {} && SetSum(IdsOf(plan, {}), SizeIn(plan)) == 0
  {
  }

  lemma CountNothing(b: Bucket, counted: set<Id>)
    ensures counted + BucketIds(b, {}) == counted
  {
  }

  lemma CountOne(plan: Inventory, b: Bucket, counted: set<Id>, done: set<Key>, k: Key)
    requires b in plan && k in plan[b] && k !in done && forall id :: id in counted ==> id.bucket != b
    ensures |counted + BucketIds(b, done + {k})| == |counted + BucketIds(b, done)| + 1
    ensures SetSum(counted + BucketIds(b, done + {k}), SizeIn(plan))
            == SetSum(counted + BucketIds(b, done), SizeIn(plan)) + plan[b][k].size
  {
    SetSumAdd(counted + BucketIds(b, done), Id(b, k), SizeIn(plan));
    assert counted + BucketIds(b, done + {k}) == (counted + BucketIds(b, done)) + {Id(b, k)};
  }

  // ---- the whole run ----

  /** What a verified report promises: the target has exactly the inventory's buckets
      and keys, and every object is recorded with a digest, size and metadata that the
      target holds, that the source showed while copying and that it showed again
      after the last copy. */
  ghost predicate VerifiedRun(timeline: nat -> Store, lo: nat, mid: nat, hi: nat, hash: Hash, t: Store,
      plan: Inventory, report: Report) {
    && report.Verified? && report.buckets == plan.Keys
    && SameKeys(t, plan)
    && AllCopied(timeline, lo, mid, hash, t, plan, report.items, PlanIds(plan))
    && Observed(timeline, mid, hi, plan)
    && Reread(timeline, mid, hi, hash, report.items)
    && report.totalBytes == SumBytes(report.items)
  }

  ghost predicate SameKeys(t: Store, plan: Inventory) {
    t.Keys == plan.Keys && forall b :: b in plan ==> t[b].Keys == plan[b].Keys
  }

  ghost predicate Reread(timeline: nat -> Store, mid: nat, hi: nat, hash: Hash, items: seq<Item>) {
    forall item :: item in items ==> ShownBetween(timeline, mid, hi, hash, item)
  }

  /** The target holds nothing that the source does not list. */
  ghost predicate Isolated(t: Store, plan: Inventory) {
    t.Keys <= plan.Keys && NoStrangers(t, plan, plan.Keys)
  }

  ghost predicate FairStart(timeline: nat -> Store, from: nat, t: Store) {
    Frozen(timeline, from) && Isolated(t, DescribeStore(timeline(from)))
  }

  method VerifySource(hash: Hash, source: Source, plan: Inventory, items: seq<Item>, ghost lo: nat, ghost mid: nat,
      ghost t: Store)
    returns (r: Result<(), Failure>)
    requires lo < mid < source.clock && AllCopied(source.timeline, lo, mid, hash, t, plan, items, PlanIds(plan))
    modifies source
    ensures source.clock >= old(source.clock)
    ensures r.Ok? ==> Reread(source.timeline, mid, source.clock, hash, items)
    ensures r.Err? && Frozen(source.timeline, lo) && plan == DescribeStore(source.timeline(lo)) ==>
        r.error == RequestFailed && !source.reliable
  {
    RereadNone(source.timeline, mid, source.clock, hash, items);
    hide *;
    for i := 0 to |items|
      invariant source.clock >= old(source.clock)
      invariant RereadUpTo(source.timeline, mid, source.clock, hash, items, i)
    {
      ghost var now := source.clock;
      CopiedItem(source.timeline, lo, mid, hash, t, plan, items, i);
      var item := items[i];
      var again := DigestSource(hash, source, item.id, plan[item.id.bucket][item.id.key]);
      FrozenEntry(source.timeline, lo, now, plan, item.id);
      if again.Err? { return Err(again.error); }
      FrozenDigest(source.timeline, lo, mid, now, hash, t, plan, item);
      if again.value != (item.sha, item.bytes) { return Err(SourceChanged); }
      RereadOne(source.timeline, mid, now, source.clock, hash, items, i);
    }
    RereadAll(source.timeline, mid, source.clock, hash, items);
    return Ok(());
  }

  ghost predicate RereadUpTo(timeline: nat -> Store, mid: nat, hi: nat, hash: Hash, items: seq<Item>, n: nat) {
    forall i :: 0 <= i < n && i < |items| ==> ShownBetween(timeline, mid, hi, hash, items[i])
  }

  lemma RereadNone(timeline: nat -> Store, mid: nat, hi: nat, hash: Hash, items: seq<Item>)
    ensures RereadUpTo(timeline, mid, hi, hash, items, 0)
  {
  }

  lemma CopiedItem(timeline: nat -> Store, lo: nat, hi: nat, hash: Hash, t: Store, plan: Inventory, items: seq<Item>,
      i: nat)
    requires i < |items| && AllCopied(timeline, lo, hi, hash, t, plan, items, PlanIds(plan))
    ensures Copied(timeline, lo, hi, hash, t, plan, items[i]) && Listed(plan, items[i].id)
    ensures items[i].id.bucket in plan && items[i].id.key in plan[items[i].id.bucket]
    ensures items[i].meta == plan[items[i].id.bucket][items[i].id.key].meta
  {
  }

  lemma FrozenDigest(timeline: nat -> Store, lo: nat, mid: nat, now: nat, hash: Hash, t: Store, plan: Inventory,
      item: Item)
    requires lo < mid <= now && Copied(timeline, lo, mid, hash, t, plan, item)
    ensures Frozen(timeline, lo) ==>
        Has(timeline(now), item.id) && hash(At(timeline(now), item.id).body) == item.sha
          && plan[item.id.bucket][item.id.key].size == item.bytes
  {
    if Frozen(timeline, lo) { assert timeline(now) == timeline(lo); }
  }

  lemma RereadOne(timeline: nat -> Store, mid: nat, now: nat, hi: nat, hash: Hash, items: seq<Item>, i: nat)
    requires i < |items| && mid <= now < hi && Shows(timeline(now), hash, items[i])
    requires RereadUpTo(timeline, mid, now, hash, items, i)
    ensures RereadUpTo(timeline, mid, hi, hash, items, i + 1)
  {
  }

  lemma RereadAll(timeline: nat -> Store, mid: nat, hi: nat, hash: Hash, items: seq<Item>)
    requires RereadUpTo(timeline, mid, hi, hash, items, |items|)
    ensures Reread(timeline, mid, hi, hash, items)
  {
  }

  /** `copy_and_verify`. `plan` is the first inventory, `mid` the instant at which the
      last copy was finished.

      Whatever happens, the run only adds what it uploads, uploads only what the
      inventory lists and the target did not hold already, and each of it once. A
      verified report is a `VerifiedRun`. Everything sent to the target is an object that
      the source had at an instant of the run. While the writers are frozen and the target
      is isolated, only a failing call or a target that stored something else can stop it,
      so on services that do neither the run is verified. */
  method CopyAndVerify(hash: Hash, source: Source, target: Target, dryRun: bool)
    returns (r: Result<Report, Failure>, ghost plan: Inventory, ghost mid: nat)
    modifies source, target
    ensures RunSoFar(source.timeline, old(source.clock), source.clock, old(target.store), target.store, plan,
        target.uploads)
    ensures SentSoFar(source.timeline, old(source.clock), source.clock, target.uploads, target.sent)
    ensures dryRun ==> target.store == old(target.store)
    ensures !dryRun && !(old(target.store).Keys <= plan.Keys) ==>
        r.Err? && target.store == old(target.store)
    ensures r.Ok? && dryRun ==> r.value == DryRun(|plan|, ObjectCount(plan), ByteTotal(plan))
    ensures (plan == map[] && r.Err?) || ObservedBy(source.timeline, old(source.clock), source.clock, plan)
    ensures r.Ok? && !dryRun ==>
              && old(source.clock) < mid <= source.clock && ObservedBy(source.timeline, old(source.clock), mid, plan)
              && VerifiedRun(source.timeline, old(source.clock), mid, source.clock, hash, target.store, plan, r.value)
              && Isolated(old(target.store), plan)
    ensures r.Err? && FairStart(source.timeline, old(source.clock), old(target.store)) ==>
        OwnFault(source, target, r.error)
    ensures source.reliable && target.reliable && target.honest ==>
        FairStart(source.timeline, old(source.clock), old(target.store)) ==> r.Ok?
  {
    hide *;
    FairStarts(source, target);
    ghost var lo, t0 := source.clock, target.store;
    target.uploads, target.sent := [], [];
    plan, mid := map[], 0;
    NothingRun(source.timeline, lo, t0);
    NothingSent(source.timeline, lo, source.clock);
    var before := TakeInventory(source);
    NothingSent(source.timeline, lo, source.clock);
    if before.Err? {
      LaterRun(source.timeline, lo, lo, source.clock, t0, target.store, plan, target.uploads);
      return Err(before.error), plan, mid;
    }
    plan := before.value;
    UntouchedRun(source.timeline, lo, source.clock, t0, plan);
    FrozenPlan(source.timeline, lo, source.clock, plan);
    ObservedEarlier(source.timeline, lo, source.clock, plan);
    if dryRun {
      var objects, bytes := CountInventory(before.value);
      return Ok(DryRun(|before.value|, objects, bytes)), plan, mid;
    }
    var present := target.ListBuckets();
    if present.Err? { return Err(present.error), plan, mid; }
    if !(present.value <= before.value.Keys) {
      StrangeBucket(t0, plan);
      return Err(NotIsolated), plan, mid;
    }
    var copied := CopyAll(hash, source, target, before.value, present.value, lo);
    mid := source.clock;
    if copied.Err? {
      StrangeKeys(t0, plan);
      return Err(copied.error), plan, mid;
    }
    var again := TakeInventory(source);
    SentLater(source.timeline, lo, mid, source.clock, target.uploads, target.sent);
    LaterRun(source.timeline, lo, mid, source.clock, t0, target.store, plan, target.uploads);
    FrozenLater(source.timeline, lo, mid);
    if again.Err? { return Err(again.error), plan, mid; }
    FrozenPlan(source.timeline, mid, source.clock, again.value);
    if again.value != before.value { return Err(SourceChanged), plan, mid; }
    CopyingItems(source.timeline, lo, mid, hash, t0, target.store, plan, target.uploads, copied.value);
    ghost var reading := source.clock;
    var accepted := VerifySource(hash, source, before.value, copied.value, lo, mid, target.store);
    SentLater(source.timeline, lo, reading, source.clock, target.uploads, target.sent);
    LaterRun(source.timeline, lo, reading, source.clock, t0, target.store, plan, target.uploads);
    if accepted.Err? { return Err(accepted.error), plan, mid; }
    LaterObserved(source.timeline, mid, reading, source.clock, plan);
    var report := Verified(before.value.Keys, copied.value, SumBytes(copied.value));
    Accept(source.timeline, lo, mid, source.clock, hash, t0, target.store, plan, target.uploads, report);
    return Ok(report), plan, mid;
  }

  lemma FairStarts(source: Source, target: Target)
    ensures FairStart(source.timeline, source.clock, target.store) <==>
        Frozen(source.timeline, source.clock)
          && Isolated(target.store, DescribeStore(source.timeline(source.clock)))
    ensures !(source.reliable && target.reliable) ==> OwnFault(source, target, RequestFailed)
    ensures source.reliable && target.reliable && target.honest ==> forall f :: !OwnFault(source, target, f)
  {
  }

  lemma NothingRun(timeline: nat -> Store, lo: nat, t0: Store)
    ensures RunSoFar(timeline, lo, lo, t0, t0, map[], [])
  {
  }

  lemma UntouchedRun(timeline: nat -> Store, lo: nat, hi: nat, t0: Store, plan: Inventory)
    ensures RunSoFar(timeline, lo, hi, t0, t0, plan, [])
  {
  }

  lemma LaterRun(timeline: nat -> Store, lo: nat, mid: nat, hi: nat, t0: Store, t: Store, plan: Inventory,
      uploads: seq<Id>)
    requires mid <= hi && RunSoFar(timeline, lo, mid, t0, t, plan, uploads)
    ensures RunSoFar(timeline, lo, hi, t0, t, plan, uploads)
  {
  }

  lemma LaterObserved(timeline: nat -> Store, lo: nat, mid: nat, hi: nat, plan: Inventory)
    requires mid <= hi && Observed(timeline, lo, mid, plan)
    ensures Observed(timeline, lo, hi, plan)
  {
    forall b, k | b in plan && k in plan[b] ensures EntryObserved(timeline, lo, hi, Id(b, k), plan[b][k]) {
      assert EntryObserved(timeline, lo, mid, Id(b, k), plan[b][k]);
    }
  }

  lemma ObservedEarlier(timeline: nat -> Store, lo: nat, now: nat, plan: Inventory)
    requires Observed(timeline, lo, now, plan)
    ensures forall hi: nat :: now <= hi ==> ObservedBy(timeline, lo, hi, plan)
  {
  }

  lemma FrozenPlan(timeline: nat -> Store, lo: nat, hi: nat, plan: Inventory)
    requires Observed(timeline, lo, hi, plan)
    ensures Frozen(timeline, lo) ==> plan == DescribeStore(timeline(lo))
  {
    if Frozen(timeline, lo) { FrozenInventory(timeline, lo, hi, plan); }
  }

  lemma FrozenLater(timeline: nat -> Store, lo: nat, mid: nat)
    requires lo <= mid
    ensures Frozen(timeline, lo) ==> Frozen(timeline, mid) && timeline(mid) == timeline(lo)
  {
  }

  lemma StrangeBucket(t0: Store, plan: Inventory)
    requires !(t0.Keys <= plan.Keys)
    ensures !Isolated(t0, plan)
  {
  }

  lemma StrangeKeys(t0: Store, plan: Inventory)
    ensures !NoStrangers(t0, plan, plan.Keys) ==> !Isolated(t0, plan)
  {
  }

  /** The two inventories of a verified run are equal: every object was there before the last
      copy and after it, with the same size, entity tag, date and metadata. */
  lemma EveryObjectIsSeenTwice(timeline: nat -> Store, lo: nat, mid: nat, hi: nat, hash: Hash, t: Store,
      plan: Inventory, report: Report, id: Id)
    requires ObservedBy(timeline, lo, mid, plan) && VerifiedRun(timeline, lo, mid, hi, hash, t, plan, report)
    requires Listed(plan, id)
    ensures exists u: nat, v: nat :: lo <= u < mid <= v < hi && SeenAlike(timeline(u), timeline(v), id)
  {
    var now: nat :| now <= mid && Observed(timeline, lo, now, plan);
    assert EntryObserved(timeline, lo, now, Id(id.bucket, id.key), plan[id.bucket][id.key]);
    assert EntryObserved(timeline, mid, hi, Id(id.bucket, id.key), plan[id.bucket][id.key]);
    var u: nat :| lo <= u < now && Has(timeline(u), id)
      && Describe(At(timeline(u), id)) == plan[id.bucket][id.key];
    var v: nat :| mid <= v < hi && Has(timeline(v), id)
      && Describe(At(timeline(v), id)) == plan[id.bucket][id.key];
    assert SeenAlike(timeline(u), timeline(v), id);
  }

  predicate SeenAlike(s: Store, t: Store, id: Id) {
    && Has(s, id) && Has(t, id)
    && |At(s, id).body| == |At(t, id).body| && At(s, id).etag == At(t, id).etag
    && At(s, id).modified == At(t, id).modified && At(s, id).meta == At(t, id).meta
  }

  lemma CopyingItems(timeline: nat -> Store, lo: nat, hi: nat, hash: Hash, t0: Store, t: Store, plan: Inventory,
      uploads: seq<Id>, items: seq<Item>)
    requires Copying(timeline, lo, hi, hash, t0, t, plan, uploads, items) && Ids(items) == PlanIds(plan)
    ensures AllCopied(timeline, lo, hi, hash, t, plan, items, PlanIds(plan))
  {
  }

  lemma Accept(timeline: nat -> Store, lo: nat, mid: nat, hi: nat, hash: Hash, t0: Store, t: Store, plan: Inventory,
      uploads: seq<Id>, report: Report)
    requires report.Verified? && report.buckets == plan.Keys && report.totalBytes == SumBytes(report.items)
    requires AllCopied(timeline, lo, mid, hash, t, plan, report.items, PlanIds(plan))
        && Observed(timeline, mid, hi, plan)
    requires Reread(timeline, mid, hi, hash, report.items)
    requires RunSoFar(timeline, lo, hi, t0, t, plan, uploads) && t.Keys == plan.Keys && NoStrangers(t0, plan, plan.Keys)
    ensures VerifiedRun(timeline, lo, mid, hi, hash, t, plan, report) && Isolated(t0, plan)
  {
    forall b | b in plan ensures t[b].Keys == plan[b].Keys {
      forall k | k in plan[b] ensures k in t[b] {
        assert Id(b, k) in PlanIds(plan);
        var item :| item in report.items && item.id == Id(b, k);
        assert Copied(timeline, lo, mid, hash, t, plan, item);
      }
      forall k | k in t[b] ensures k in plan[b] {
        assert Has(t, Id(b, k));
        if Id(b, k) !in uploads { assert Has(t0, Id(b, k)); }
      }
    }
  }
}
