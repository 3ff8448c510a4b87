/**
  The cadence registry of the acquisition fixture: family defaults and device
  overrides behind one lock, changed by batches that name the revision they expect.
  `Server` is the program; `World` interleaves any number of clients, where a writer's
  answer is read in a second locked section after its commit.
 */
module CadenceRegistry {
  import opened Wrappers

  /** A Python float: JSON text may also spell a value that is not a number. */
  datatype Number = Finite(r: real) | NaN | PosInf | NegInf

  datatype Json =
    | Null
    | Bool(b: bool)
    | Int(n: int)
    | Float(x: Number)
    | Str(s: string)
    | List(items: seq<Json>)
    | Object(fields: map<string, Json>)

  /** What the handler finds in the request. */
  datatype Body = Unreadable | Fields(fields: map<string, Json>)

  type Family = (string, string)
  type FamilyUpdate = (Family, Number)
  type DeviceUpdate = (string, Option<Number>)

  datatype Registry = Registry(
    revision: int,
    defaults: map<Family, Number>,
    overrides: map<string, Number>,
    mutations: nat)

  datatype Verdict =
    | Conflict
    | Invalid
    | Exceeds
    | Uncaught   // a TypeError leaves the handler; nothing is answered
    | Accept(families: seq<FamilyUpdate>, devices: seq<DeviceUpdate>)

  datatype Status = OK | CONFLICT | UNPROCESSABLE | DROPPED

  const XJP: Family := ("rs485-main", "xjp60d")
  const LE: Family := ("rs485-main", "le01mp")
  const XJP_DEVICE := "xjp60d-106"
  const LE_DEVICE := "le01mp-200"
  const INITIAL_REVISION := 7

  const INITIAL := Registry(INITIAL_REVISION, map[XJP := Finite(60.0), LE := Finite(30.0)],
    map[XJP_DEVICE := Finite(60.0)], 0)

  // ---- one request, as a function ----

  function Field(fields: map<string, Json>, name: string): Json { if name in fields then fields[name] else Null }

  predicate Less(a: Number, b: real) { a == NegInf || (a.Finite? && a.r < b) }

  predicate Greater(a: Number, b: real) { a == PosInf || (a.Finite? && a.r > b) }

  /** `_interval`; every comparison with a value that is not a number is false. */
  function Interval(v: Json): Option<Number> {
    match v
    case Int(n) => if n < 10 || n > 3600 then None else Some(Finite(n as real))
    case Float(x) => if Less(x, 10.0) || Greater(x, 3600.0) then None else Some(x)
    case _ => None
  }

  function Characters(s: string): seq<Json> { seq(|s|, i requires 0 <= i < |s| => Str([s[i]])) }

  /** What iterating over an optional field yields; None is a TypeError. */
  function Iterate(fields: map<string, Json>, name: string): Option<seq<Json>> {
    if name !in fields then Some([])
    else
      match fields[name]
      case List(items) => Some(items)
      case Str(s) => Some(Characters(s))
      case Object(m) => Some(if m == map[] then [] else [Str("")])  // keys, none of them an object
      case _ => None
  }

  function Text(v: Json): string { if v.Str? then v.s else "" }

  function FamilyItem(known: set<Family>, item: Json): Option<FamilyUpdate> {
    if !item.Object? then None
    else
      var key := (Text(Field(item.fields, "bus_id")), Text(Field(item.fields, "device_family")));
      var interval := Interval(Field(item.fields, "interval_seconds"));
      if key !in known || interval == None then None else Some((key, interval.value))
  }

  function DeviceItem(item: Json): Option<DeviceUpdate> {
    if !item.Object? then None
    else
      var device := Text(Field(item.fields, "device_id"));
      var raw := Field(item.fields, "interval_seconds");
      if device != XJP_DEVICE && device != LE_DEVICE then None
      else if raw == Null then Some((device, None))
      else if Interval(raw) == None then None
      else Some((device, Some(Interval(raw).value)))
  }

  function FamilyUpdates(known: set<Family>, items: seq<Json>): Option<seq<FamilyUpdate>> {
    if items == [] then Some([])
    else Prepend(FamilyItem(known, items[0]), FamilyUpdates(known, items[1..]))
  }

  function DeviceUpdates(items: seq<Json>): Option<seq<DeviceUpdate>> {
    if items == [] then Some([])
    else Prepend(DeviceItem(items[0]), DeviceUpdates(items[1..]))
  }

  function Prepend<T>(x: Option<T>, rest: Option<seq<T>>): Option<seq<T>> {
    if x == None || rest == None then None else Some([x.value] + rest.value)
  }

  predicate Blank(s: string) { forall c :: c in s ==> IsSpace(c) }

  /** What `strip` takes for white space. */
  predicate IsSpace(c: char) {
    || c in {' ', '\U{85}', '\U{A0}', '\U{1680}', '\U{2028}', '\U{2029}', '\U{202F}', '\U{205F}', '\U{3000}'}
    || '\U{9}' <= c <= '\U{D}' || '\U{1C}' <= c <= '\U{1F}' || '\U{2000}' <= c <= '\U{200A}'
  }

  /** `strip`: without the white space at both ends. */
  function Stripped(s: string): string
    decreases |s|
  {
    if s == "" then s
    else if IsSpace(s[0]) then Stripped(s[1..])
    else if IsSpace(s[|s| - 1]) then Stripped(s[..|s| - 1])
    else s
  }

  /** A reason is blank exactly when nothing is left of it. */
  lemma {:induction false} BlankIsStrippedEmpty(s: string)
    ensures Blank(s) <==> Stripped(s) == ""
    decreases |s|
  {
    hide IsSpace;
    if s != "" {
      assert s[0] in s && s[|s| - 1] in s;
      assert forall c :: c in s <==> c == s[0] || c in s[1..];
      assert s == s[..|s| - 1] + [s[|s| - 1]];
      if IsSpace(s[0]) {
        BlankIsStrippedEmpty(s[1..]);
      } else if IsSpace(s[|s| - 1]) {
        BlankIsStrippedEmpty(s[..|s| - 1]);
        assert s[0] in s[..|s| - 1];
      }
    }
  }

  predicate AsksForTen(families: seq<FamilyUpdate>, devices: seq<DeviceUpdate>) {
    || (exists u :: u in families && u.1 == Finite(10.0))
    || (exists u :: u in devices && u.1 == Some(Finite(10.0)))
  }

  function Decide(reg: Registry, body: Body): Verdict {
    if body == Unreadable || !Field(body.fields, "expected_revision").Int? then Invalid
    else if !Field(body.fields, "reason").Str? || Blank(Field(body.fields, "reason").s) then Invalid
    else if Field(body.fields, "expected_revision").n != reg.revision then Conflict
    else
      var familyItems := Iterate(body.fields, "family_defaults");
      if familyItems == None then Uncaught
      else
        var families := FamilyUpdates(reg.defaults.Keys, familyItems.value);
        if families == None then Invalid
        else DecideDevices(body.fields, families.value)
  }

  function DecideDevices(fields: map<string, Json>, families: seq<FamilyUpdate>): Verdict {
    var deviceItems := Iterate(fields, "device_overrides");
    if deviceItems == None then Uncaught
    else
      var devices := DeviceUpdates(deviceItems.value);
      if devices == None then Invalid
      else if AsksForTen(families, devices.value) then Exceeds
      else if families == [] && devices.value == [] then Invalid
      else Accept(families, devices.value)
  }

  function ApplyFamilies(m: map<Family, Number>, updates: seq<FamilyUpdate>): map<Family, Number>
    decreases |updates|
  {
    if updates == [] then m else ApplyFamilies(m[updates[0].0 := updates[0].1], updates[1..])
  }

  function ApplyDevice(m: map<string, Number>, u: DeviceUpdate): map<string, Number> {
    match u.1
    case None => m - {u.0}
    case Some(x) => m[u.0 := x]
  }

  function ApplyDevices(m: map<string, Number>, updates: seq<DeviceUpdate>): map<string, Number>
    decreases |updates|
  {
    if updates == [] then m else ApplyDevices(ApplyDevice(m, updates[0]), updates[1..])
  }

  function Commit(reg: Registry, v: Verdict): Registry {
    if v.Accept? then
      Registry(reg.revision + 1,
               ApplyFamilies(reg.defaults, v.families), ApplyDevices(reg.overrides, v.devices),
               reg.mutations + 1)
    else reg
  }

  function Answer(v: Verdict): Status {
    match v
    case Conflict => CONFLICT
    case Invalid => UNPROCESSABLE
    case Exceeds => UNPROCESSABLE
    case Uncaught => DROPPED
    case Accept(_, _) => OK
  }

  // ---- the program ----

  class Server {
    var revision: int
    var defaults: map<Family, Number>
    var overrides: map<string, Number>
    var mutations: nat

    constructor ()
      ensures Contents() == INITIAL
    {
      revision, defaults, overrides, mutations := INITIAL.revision, INITIAL.defaults, INITIAL.overrides,
        INITIAL.mutations;
    }

    function Contents(): Registry
      reads this
    {
      Registry(revision, defaults, overrides, mutations)
    }

    method CollectFamilies(items: seq<Json>) returns (updates: Option<seq<FamilyUpdate>>)
      ensures updates == FamilyUpdates(defaults.Keys, items)
    {
      var collected: seq<FamilyUpdate> := [];
      assert items[0..] == items;
      BehindNothing(FamilyUpdates(defaults.Keys, items));
      for i := 0 to |items|
        invariant FamilyUpdates(defaults.Keys, items) == Behind(collected, FamilyUpdates(defaults.Keys, items[i..]))
      {
        var item := items[i];
        assert items[i..][0] == item && items[i..][1..] == items[i + 1..];
        if !item.Object? { return None; }
        var key := (Text(Field(item.fields, "bus_id")), Text(Field(item.fields, "device_family")));
        if key !in defaults { return None; }
        var interval := Interval(Field(item.fields, "interval_seconds"));
        if interval == None { return None; }
        BehindStep(collected, (key, interval.value), FamilyUpdates(defaults.Keys, items[i + 1..]));
        collected := collected + [(key, interval.value)];
      }
      assert collected + [] == collected;
      return Some(collected);
    }

    method CollectDevices(items: seq<Json>) returns (updates: Option<seq<DeviceUpdate>>)
      ensures updates == DeviceUpdates(items)
    {
      var collected: seq<DeviceUpdate> := [];
      assert items[0..] == items;
      BehindNothing(DeviceUpdates(items));
      for i := 0 to |items|
        invariant DeviceUpdates(items) == Behind(collected, DeviceUpdates(items[i..]))
      {
        var item := items[i];
        assert items[i..][0] == item && items[i..][1..] == items[i + 1..];
        if !item.Object? { return None; }
        var device := Text(Field(item.fields, "device_id"));
        if device != XJP_DEVICE && device != LE_DEVICE { return None; }
        var raw := Field(item.fields, "interval_seconds");
        var interval := Interval(raw);
        if raw != Null && interval == None { return None; }
        BehindStep(collected, (device, interval), DeviceUpdates(items[i + 1..]));
        collected := collected + [(device, interval)];
      }
      assert collected + [] == collected;
      return Some(collected);
    }

    method StoreUpdates(families: seq<FamilyUpdate>, devices: seq<DeviceUpdate>)
      modifies this
      ensures Contents() == Commit(old(Contents()), Accept(families, devices))
    {
      for i := 0 to |families|
        invariant unchanged(this`revision, this`overrides, this`mutations)
        invariant ApplyFamilies(defaults, families[i..]) == ApplyFamilies(old(defaults), families)
      {
        assert families[i..][0] == families[i] && families[i..][1..] == families[i + 1..];
        defaults := defaults[families[i].0 := families[i].1];
      }
      for i := 0 to |devices|
        invariant unchanged(this`revision, this`mutations) && defaults == ApplyFamilies(old(defaults), families)
        invariant ApplyDevices(overrides, devices[i..]) == ApplyDevices(old(overrides), devices)
      {
        assert devices[i..][0] == devices[i] && devices[i..][1..] == devices[i + 1..];
        var (device, interval) := devices[i];
        if interval == None {
          overrides := overrides - {device};
        } else {
          overrides := overrides[device := interval.value];
        }
      }
      revision := revision + 1;
      mutations := mutations + 1;
    }

    /** The locked part of `_put_cadence`: everything is checked before anything is stored. */
    method PutCadence(body: Body) returns (status: Status)
      modifies this
      ensures status == Answer(Decide(old(Contents()), body))
      ensures Contents() == Commit(old(Contents()), Decide(old(Contents()), body))
      ensures PutFits(old(Contents()), body, status, Contents())
    {
      DecisionFits(Contents(), body);
      hide PutFits;
      if body == Unreadable { return UNPROCESSABLE; }
      var expected := Field(body.fields, "expected_revision");
      var reason := Field(body.fields, "reason");
      if !expected.Int? { return UNPROCESSABLE; }
      if !reason.Str? || Blank(reason.s) { return UNPROCESSABLE; }
      if expected.n != revision { return CONFLICT; }
      var familyItems := Iterate(body.fields, "family_defaults");
      if familyItems == None { return DROPPED; }
      var families := CollectFamilies(familyItems.value);
      if families == None { return UNPROCESSABLE; }
      var deviceItems := Iterate(body.fields, "device_overrides");
      if deviceItems == None { return DROPPED; }
      var devices := CollectDevices(deviceItems.value);
      if devices == None { return UNPROCESSABLE; }
      if AsksForTen(families.value, devices.value) { return UNPROCESSABLE; }
      if families.value == [] && devices.value == [] { return UNPROCESSABLE; }
      StoreUpdates(families.value, devices.value);
      return OK;
    }

    /** Any other PUT. */
    method PutOther()
      modifies this
      ensures Contents() == old(Contents()).(mutations := old(Contents()).mutations + 1)
    {
      mutations := mutations + 1;
    }
  }

  function Behind<T>(front: seq<T>, rest: Option<seq<T>>): Option<seq<T>> {
    if rest == None then None else Some(front + rest.value)
  }

  lemma BehindStep<T>(front: seq<T>, x: T, rest: Option<seq<T>>)
    ensures Behind(front, Prepend(Some(x), rest)) == Behind(front + [x], rest)
  {
    if rest != None { assert front + ([x] + rest.value) == (front + [x]) + rest.value; }
  }

  lemma BehindNothing<T>(rest: Option<seq<T>>)
    ensures Behind([], rest) == rest
  {
    if rest != None { assert [] + rest.value == rest.value; }
  }

  // ---- what an accepted batch means ----

  function LastWrite<K(==), V>(updates: seq<(K, V)>, k: K): Option<V>
    decreases |updates|
  {
    if updates == [] then None
    else
      var last := updates[|updates| - 1];
      if last.0 == k then Some(last.1) else LastWrite(updates[..|updates| - 1], k)
  }

  lemma {:induction false} LastWriteOfTail<K, V>(updates: seq<(K, V)>, k: K)
    requires updates != []
    ensures LastWrite(updates, k) ==
            if LastWrite(updates[1..], k) != None then LastWrite(updates[1..], k)
            else if updates[0].0 == k then Some(updates[0].1) else None
    decreases |updates|
  {
    if |updates| > 1 && updates[|updates| - 1].0 != k {
      LastWriteOfTail(updates[..|updates| - 1], k);
      assert updates[..|updates| - 1][1..] == updates[1..][..|updates| - 2];
    }
  }

  /** A stored default is the batch's last write to its family, or what it was. */
  lemma {:induction false} FamiliesTakeLastWrite(m: map<Family, Number>, updates: seq<FamilyUpdate>, k: Family)
    ensures var r := ApplyFamilies(m, updates);
            match LastWrite(updates, k)
            case Some(x) => k in r && r[k] == x
            case None => (k in r <==> k in m) && (k in m ==> r[k] == m[k])
    decreases |updates|
  {
    if updates != [] {
      FamiliesTakeLastWrite(m[updates[0].0 := updates[0].1], updates[1..], k);
      LastWriteOfTail(updates, k);
    }
  }

  /** An override is the batch's last write to its device, absent if that was a removal. */
  lemma {:induction false} DevicesTakeLastWrite(m: map<string, Number>, updates: seq<DeviceUpdate>, k: string)
    ensures var r := ApplyDevices(m, updates);
            var last: Option<Option<Number>> := LastWrite(updates, k);
            && (last == None ==> (k in r <==> k in m) && (k in m ==> r[k] == m[k]))
            && (last == Some(None) ==> k !in r)
            && (last.Some? && last.value.Some? ==> k in r && r[k] == last.value.value)
    decreases |updates|
  {
    if updates != [] {
      DevicesTakeLastWrite(ApplyDevice(m, updates[0]), updates[1..], k);
      LastWriteOfTail(updates, k);
    }
  }

  /** Only known families, only the two devices, no 10 seconds and never out of range:
      what the check of a whole batch leaves. */
  predicate GoodInterval(x: Number) { x == NaN || (x.Finite? && 10.0 < x.r <= 3600.0) }

  lemma {:induction false} FamilyUpdatesAreGood(known: set<Family>, items: seq<Json>)
    ensures var r := FamilyUpdates(known, items);
            r.Some? ==> |r.value| == |items| && forall u :: u in r.value ==>
              u.0 in known && (GoodInterval(u.1) || u.1 == Finite(10.0))
  {
    if items != [] { FamilyUpdatesAreGood(known, items[1..]); }
  }

  lemma {:induction false} DeviceUpdatesAreGood(items: seq<Json>)
    ensures var r := DeviceUpdates(items);
            r.Some? ==> |r.value| == |items| && forall u :: u in r.value ==>
              (u.0 == XJP_DEVICE || u.0 == LE_DEVICE)
                && (u.1.Some? ==> GoodInterval(u.1.value) || u.1.value == Finite(10.0))
  {
    if items != [] { DeviceUpdatesAreGood(items[1..]); }
  }

  lemma AcceptedBatchIsGood(reg: Registry, body: Body)
    requires Decide(reg, body).Accept?
    ensures var v := Decide(reg, body);
            && (v.families != [] || v.devices != [])
            && (forall u :: u in v.families ==> u.0 in reg.defaults && GoodInterval(u.1))
            && (forall u :: u in v.devices ==>
              (u.0 == XJP_DEVICE || u.0 == LE_DEVICE) && (u.1.Some? ==> GoodInterval(u.1.value)))
  {
    FamilyUpdatesAreGood(reg.defaults.Keys, Iterate(body.fields, "family_defaults").value);
    DeviceUpdatesAreGood(Iterate(body.fields, "device_overrides").value);
  }

  // ---- which requests are accepted ----

  /** A number of seconds that may be stored. */
  predicate IntervalOk(v: Json) {
    (v.Int? && 10 < v.n <= 3600) || (v.Float? && GoodInterval(v.x))
  }

  predicate FamilyOk(known: set<Family>, item: Json) {
    && item.Object? && (Text(Field(item.fields, "bus_id")), Text(Field(item.fields, "device_family"))) in known
    && IntervalOk(Field(item.fields, "interval_seconds"))
  }

  predicate DeviceOk(item: Json) {
    && item.Object? && Text(Field(item.fields, "device_id")) in {XJP_DEVICE, LE_DEVICE}
    && (Field(item.fields, "interval_seconds") == Null || IntervalOk(Field(item.fields, "interval_seconds")))
  }

  lemma {:induction false} FamilyUpdatesExactly(known: set<Family>, items: seq<Json>)
    ensures var r := FamilyUpdates(known, items);
            (r.Some? && forall u :: u in r.value ==> u.1 != Finite(10.0)) <==>
              forall item :: item in items ==> FamilyOk(known, item)
  {
    if items != [] {
      FamilyUpdatesExactly(known, items[1..]);
      var r, rest := FamilyUpdates(known, items), FamilyUpdates(known, items[1..]);
      assert forall item :: item in items <==> item == items[0] || item in items[1..];
      FamilyItemExactly(known, items[0]);
      if r.Some? { assert forall u :: u in r.value <==> u == FamilyItem(known, items[0]).value || u in rest.value; }
      hide FamilyItem, FamilyOk;
    }
  }

  lemma FamilyItemExactly(known: set<Family>, item: Json)
    ensures (FamilyItem(known, item).Some? && FamilyItem(known, item).value.1 != Finite(10.0)) <==>
        FamilyOk(known, item)
  {
  }

  lemma {:induction false} DeviceUpdatesExactly(items: seq<Json>)
    ensures var r := DeviceUpdates(items);
            (r.Some? && forall u :: u in r.value ==> u.1 != Some(Finite(10.0))) <==>
              forall item :: item in items ==> DeviceOk(item)
  {
    if items != [] {
      DeviceUpdatesExactly(items[1..]);
      var r, rest := DeviceUpdates(items), DeviceUpdates(items[1..]);
      assert forall item :: item in items <==> item == items[0] || item in items[1..];
      DeviceItemExactly(items[0]);
      if r.Some? { assert forall u :: u in r.value <==> u == DeviceItem(items[0]).value || u in rest.value; }
      hide DeviceItem, DeviceOk;
    }
  }

  lemma DeviceItemExactly(item: Json)
    ensures (DeviceItem(item).Some? && DeviceItem(item).value.1 != Some(Finite(10.0))) <==> DeviceOk(item)
  {
  }

  /** The request is addressed to this revision and gives a reason. */
  predicate Addressed(reg: Registry, fields: map<string, Json>) {
    && Field(fields, "expected_revision") == Int(reg.revision)
    && Field(fields, "reason").Str? && !Blank(Field(fields, "reason").s)
  }

  /** A batch is accepted exactly when it is addressed, every one of its items is in
      order by itself, and it has one. */
  lemma AcceptsExactly(reg: Registry, fields: map<string, Json>)
    ensures Decide(reg, Fields(fields)).Accept? <==>
              && Addressed(reg, fields)
              && var (families, devices) := (Iterate(fields, "family_defaults"), Iterate(fields, "device_overrides"));
              && families.Some? && devices.Some? && families.value + devices.value != []
              && (forall item :: item in families.value ==> FamilyOk(reg.defaults.Keys, item))
              && (forall item :: item in devices.value ==> DeviceOk(item))
  {
    var families, devices := Iterate(fields, "family_defaults"), Iterate(fields, "device_overrides");
    if families.Some? && devices.Some? {
      FamilyUpdatesExactly(reg.defaults.Keys, families.value);
      DeviceUpdatesExactly(devices.value);
      FamilyUpdatesAreGood(reg.defaults.Keys, families.value);
      DeviceUpdatesAreGood(devices.value);
    }
    AcceptsReadBatch(reg, fields);
    hide FamilyUpdates, DeviceUpdates, FamilyOk, DeviceOk, Iterate, Blank, GoodInterval, Decide, Addressed;
  }

  lemma AcceptsReadBatch(reg: Registry, fields: map<string, Json>)
    ensures Decide(reg, Fields(fields)).Accept? <==>
              && Addressed(reg, fields)
              && var (families, devices) := (Iterate(fields, "family_defaults"), Iterate(fields, "device_overrides"));
              && families.Some? && devices.Some?
              && var (f, d) := (FamilyUpdates(reg.defaults.Keys, families.value), DeviceUpdates(devices.value));
              && f.Some? && d.Some? && !AsksForTen(f.value, d.value) && !(f.value == [] && d.value == [])
  {
    hide FamilyUpdates, DeviceUpdates, AsksForTen, Iterate, Blank;
  }

  // ---- which status a request is answered with ----

  /** A number of seconds that passes the check of a single interval. */
  predicate Readable(v: Json) {
    || (v.Int? && 10 <= v.n <= 3600)
    || (v.Float? && (v.x == NaN || (v.x.Finite? && 10.0 <= v.x.r <= 3600.0)))
  }

  predicate FamilyReadable(known: set<Family>, item: Json) {
    && item.Object? && (Text(Field(item.fields, "bus_id")), Text(Field(item.fields, "device_family"))) in known
    && Readable(Field(item.fields, "interval_seconds"))
  }

  lemma {:induction false} FamiliesReadable(known: set<Family>, items: seq<Json>)
    ensures FamilyUpdates(known, items).Some? <==> forall item :: item in items ==> FamilyReadable(known, item)
  {
    if items != [] {
      FamiliesReadable(known, items[1..]);
      assert forall item :: item in items <==> item == items[0] || item in items[1..];
      assert FamilyItem(known, items[0]).Some? <==> FamilyReadable(known, items[0]);
      hide FamilyItem, FamilyReadable;
    }
  }

  /** A value that cannot be iterated over. */
  predicate Uniterable(fields: map<string, Json>, name: string) {
    name in fields && (fields[name].Null? || fields[name].Bool? || fields[name].Int? || fields[name].Float?)
  }

  /** Which of the four answers a request gets; an unreadable request is unprocessable. The
      connection is dropped exactly when an addressed request has something that cannot be
      iterated over where the first of its unusable parts is. */
  lemma StatusExactly(reg: Registry, fields: map<string, Json>)
    ensures var status := Answer(Decide(reg, Fields(fields)));
            var good := Field(fields, "reason").Str? && !Blank(Field(fields, "reason").s);
            && (status == OK <==> Decide(reg, Fields(fields)).Accept?)
            && (status == CONFLICT <==>
              good && Field(fields, "expected_revision").Int?
                && Field(fields, "expected_revision").n != reg.revision)
            && (status == DROPPED <==>
              && Addressed(reg, fields)
              && (Uniterable(fields, "family_defaults")
                || (Uniterable(fields, "device_overrides")
                  && forall item :: item in Items(Fields(fields), "family_defaults") ==>
                    FamilyReadable(reg.defaults.Keys, item))))
  {
    FamiliesReadable(reg.defaults.Keys, Items(Fields(fields), "family_defaults"));
    hide FamilyUpdates, DeviceUpdates, FamilyReadable, Blank, AsksForTen;
  }

  lemma {:induction false} LastWriteIsMember<K, V>(updates: seq<(K, V)>, k: K)
    ensures LastWrite(updates, k).Some? ==> (k, LastWrite(updates, k).value) in updates
    decreases |updates|
  {
    if updates != [] {
      var last := updates[|updates| - 1];
      assert last in updates && last == (last.0, last.1);
      LastWriteIsMember(updates[..|updates| - 1], k);
    }
  }

  /** The registry's own invariant. */
  ghost predicate Sound(reg: Registry) {
    && reg.defaults.Keys == {XJP, LE} && reg.overrides.Keys <= {XJP_DEVICE, LE_DEVICE}
    && (forall k :: k in reg.defaults ==> GoodInterval(reg.defaults[k]))
    && (forall k :: k in reg.overrides ==> GoodInterval(reg.overrides[k]))
  }

  lemma CommitKeepsSound(reg: Registry, body: Body)
    requires Sound(reg)
    ensures Sound(Commit(reg, Decide(reg, body)))
  {
    var v := Decide(reg, body);
    if v.Accept? {
      AcceptedBatchIsGood(reg, body);
      var next := Commit(reg, v);
      forall k: Family
        ensures (k in next.defaults <==> k in reg.defaults) && (k in next.defaults ==> GoodInterval(next.defaults[k]))
      {
        FamiliesTakeLastWrite(reg.defaults, v.families, k);
        LastWriteIsMember(v.families, k);
      }
      forall k | k in next.overrides ensures k in {XJP_DEVICE, LE_DEVICE} && GoodInterval(next.overrides[k]) {
        DevicesTakeLastWrite(reg.overrides, v.devices, k);
        LastWriteIsMember(v.devices, k);
      }
    }
  }

  /** The items that are in order: the two families and the two devices by name, and a number
      above 10 and up to 3600, or NaN; null as well for a device. */
  lemma OkExactly(reg: Registry, item: Json)
    requires Sound(reg) && item.Object?
    ensures var raw := Field(item.fields, "interval_seconds");
            var fits := (raw.Int? && 10 < raw.n <= 3600)
              || (raw.Float? && (raw.x == NaN || (raw.x.Finite? && 10.0 < raw.x.r <= 3600.0)));
            && (FamilyOk(reg.defaults.Keys, item) <==>
              fits && Field(item.fields, "bus_id") == Str("rs485-main")
                && Field(item.fields, "device_family") in {Str("xjp60d"), Str("le01mp")})
            && (DeviceOk(item) <==>
              (raw == Null || fits) && Field(item.fields, "device_id") in {Str("xjp60d-106"), Str("le01mp-200")})
  {
    assert "rs485-main"[0] == 'r' && "xjp60d"[0] == 'x' && "le01mp"[0] == 'l';
    assert "xjp60d-106"[0] == 'x' && "le01mp-200"[0] == 'l';
  }

  /** Every stored interval is a number of seconds above 10 and up to 3600. */
  ghost predicate InRange(reg: Registry) {
    && (forall k :: k in reg.defaults ==> reg.defaults[k] != NaN && GoodInterval(reg.defaults[k]))
    && (forall k :: k in reg.overrides ==> reg.overrides[k] != NaN && GoodInterval(reg.overrides[k]))
  }

  // ---- values that are no numbers ----

  function FamilyNamed(item: Json): Option<Family> {
    if item.Object? then Some((Text(Field(item.fields, "bus_id")), Text(Field(item.fields, "device_family")))) else None
  }

  function DeviceNamed(item: Json): Option<string> {
    if item.Object? then Some(Text(Field(item.fields, "device_id"))) else None
  }

  /** The last of the items that names this key. */
  function LastNaming<K(==)>(items: seq<Json>, named: Json -> Option<K>, k: K): Option<Json>
    decreases |items|
  {
    if items == [] then None
    else if LastNaming(items[1..], named, k).Some? then LastNaming(items[1..], named, k)
    else if named(items[0]) == Some(k) then Some(items[0])
    else None
  }

  /** Item i names this key, and no later one does. */
  predicate NamesLast<K(==)>(items: seq<Json>, named: Json -> Option<K>, k: K, i: int) {
    0 <= i < |items| && named(items[i]) == Some(k) && forall j :: i < j < |items| ==> named(items[j]) != Some(k)
  }

  predicate NamesNot<K(==)>(items: seq<Json>, named: Json -> Option<K>, k: K) {
    forall j :: 0 <= j < |items| ==> named(items[j]) != Some(k)
  }

  lemma LettersAreNotBlank(s: string, c: char)
    requires c in s && 'a' <= c <= 'z'
    ensures !Blank(s)
  {
    assert !IsSpace(c);
  }

  lemma {:induction false} LastNamingExactly<K>(items: seq<Json>, named: Json -> Option<K>, k: K)
    ensures LastNaming(items, named, k).None? <==> NamesNot(items, named, k)
    ensures forall i :: NamesLast(items, named, k, i) ==> LastNaming(items, named, k) == Some(items[i])
  {
    if items != [] {
      LastNamingExactly(items[1..], named, k);
      NamesNotInTail(items, named, k);
      forall i | NamesLast(items, named, k, i)
        ensures LastNaming(items, named, k) == Some(items[i])
      {
        NamesLastInTail(items, named, k, i);
      }
    }
  }

  lemma NamesNotInTail<K>(items: seq<Json>, named: Json -> Option<K>, k: K)
    requires items != []
    ensures NamesNot(items, named, k) <==> NamesNot(items[1..], named, k) && named(items[0]) != Some(k)
  {
    var tail := items[1..];
    assert forall j :: 0 < j < |items| ==> items[j] == tail[j - 1];
    assert forall j :: 0 <= j < |tail| ==> tail[j] == items[j + 1];
  }

  lemma NamesLastInTail<K>(items: seq<Json>, named: Json -> Option<K>, k: K, i: int)
    requires NamesLast(items, named, k, i)
    ensures if i > 0 then NamesLast(items[1..], named, k, i - 1) && items[1..][i - 1] == items[i]
            else NamesNot(items[1..], named, k)
  {
    var tail := items[1..];
    assert forall j :: 0 <= j < |tail| ==> tail[j] == items[j + 1];
  }

  /** The number that the item asks for: an integer as it is, a float as it is. */
  predicate Gives(item: Json, x: Number) {
    && item.Object?
    && var v := Field(item.fields, "interval_seconds");
    (v.Int? && x == Finite(v.n as real)) || (v.Float? && x == v.x)
  }

  predicate Removes(item: Json) { item.Object? && Field(item.fields, "interval_seconds") == Null }

  /** What a request leaves under a key, given its last item for the key and what was there. */
  predicate ValueAfter(last: Option<Json>, before: Option<Number>, after: Option<Number>) {
    match last
    case None => after == before
    case Some(item) => if after.Some? then Gives(item, after.value) else Removes(item)
  }

  function Stored<K>(m: map<K, Number>, k: K): Option<Number> { if k in m then Some(m[k]) else None }

  predicate GivesNaN(item: Option<Json>) {
    item.Some? && item.value.Object? && Field(item.value.fields, "interval_seconds") == Float(NaN)
  }

  lemma NaNAfter(last: Option<Json>, before: Option<Number>, after: Option<Number>)
    requires ValueAfter(last, before, after)
    ensures after == Some(NaN) <==> if last.Some? then GivesNaN(last) else before == Some(NaN)
  {
  }

  function Items(body: Body, name: string): seq<Json> {
    if body.Fields? && Iterate(body.fields, name).Some? then Iterate(body.fields, name).value else []
  }

  /** The request lists these items under the name: a list, or nothing at all. */
  predicate Lists(body: Body, name: string, items: seq<Json>) {
    && body.Fields?
    && if name in body.fields
       then body.fields[name] == List(items) || (items == [] && body.fields[name] in {Str(""), Object(map[])})
       else items == []
  }

  lemma ItemsAreListed(body: Body, name: string, items: seq<Json>)
    requires Lists(body, name, items)
    ensures Items(body, name) == items
  {
    if name in body.fields && body.fields[name] == Str("") { assert Characters("") == []; }
  }

  lemma FamilyItemGives(known: set<Family>, item: Json)
    ensures var u := FamilyItem(known, item);
            u.Some? ==> FamilyNamed(item) == Some(u.value.0) && Gives(item, u.value.1)
  {
  }

  lemma DeviceItemGives(item: Json)
    ensures var u := DeviceItem(item);
            u.Some? ==>
              DeviceNamed(item) == Some(u.value.0)
                && if u.value.1.Some? then Gives(item, u.value.1.value) else Removes(item)
  {
  }

  lemma {:induction false} LastFamilyWrite(known: set<Family>, items: seq<Json>, k: Family)
    requires FamilyUpdates(known, items).Some?
    ensures var last := LastNaming(items, FamilyNamed, k); var write := LastWrite(FamilyUpdates(known, items).value, k);
            && (last.Some? <==> write.Some?) && (last.Some? ==> Gives(last.value, write.value))
    decreases |items|
  {
    if items != [] {
      LastFamilyWrite(known, items[1..], k);
      LastWriteOfTail(FamilyUpdates(known, items).value, k);
      assert FamilyUpdates(known, items).value[1..] == FamilyUpdates(known, items[1..]).value;
      FamilyItemGives(known, items[0]);
      hide FamilyItem, Gives, FamilyNamed, Interval;
    }
  }

  lemma {:induction false} LastDeviceWrite(items: seq<Json>, k: string)
    requires DeviceUpdates(items).Some?
    ensures var last := LastNaming(items, DeviceNamed, k);
            var write: Option<Option<Number>> := LastWrite(DeviceUpdates(items).value, k);
            && (last.Some? <==> write.Some?)
            && (last.Some? ==>
              if write.value.Some? then Gives(last.value, write.value.value) else Removes(last.value))
    decreases |items|
  {
    if items != [] {
      LastDeviceWrite(items[1..], k);
      LastWriteOfTail(DeviceUpdates(items).value, k);
      assert DeviceUpdates(items).value[1..] == DeviceUpdates(items[1..]).value;
      DeviceItemGives(items[0]);
      hide DeviceItem, Gives, Removes, DeviceNamed, Interval;
    }
  }

  predicate FamilyIsNaN(reg: Registry, k: Family) { k in reg.defaults && reg.defaults[k] == NaN }

  predicate DeviceIsNaN(reg: Registry, k: string) { k in reg.overrides && reg.overrides[k] == NaN }

  /** What an accepted request leaves under a family. */
  lemma FamilyAfterwards(reg: Registry, body: Body, k: Family)
    requires Decide(reg, body).Accept?
    ensures ValueAfter(LastNaming(Items(body, "family_defaults"), FamilyNamed, k),
      Stored(reg.defaults, k), Stored(Commit(reg, Decide(reg, body)).defaults, k))
  {
    var v := Decide(reg, body);
    LastFamilyWrite(reg.defaults.Keys, Items(body, "family_defaults"), k);
    FamiliesTakeLastWrite(reg.defaults, v.families, k);
    assert v.families == FamilyUpdates(reg.defaults.Keys, Items(body, "family_defaults")).value;
    hide FamilyUpdates, DeviceUpdates, LastWrite, LastNaming, ApplyFamilies, ApplyDevices, AsksForTen, Blank, Gives,
      Removes;
  }

  lemma DeviceAfterwards(reg: Registry, body: Body, k: string)
    requires Decide(reg, body).Accept?
    ensures ValueAfter(LastNaming(Items(body, "device_overrides"), DeviceNamed, k),
      Stored(reg.overrides, k), Stored(Commit(reg, Decide(reg, body)).overrides, k))
  {
    var v := Decide(reg, body);
    LastDeviceWrite(Items(body, "device_overrides"), k);
    DevicesTakeLastWrite(reg.overrides, v.devices, k);
    assert v.devices == DeviceUpdates(Items(body, "device_overrides")).value;
    var write: Option<Option<Number>> := LastWrite(v.devices, k);
    var next := Commit(reg, v);
    assert next.overrides == ApplyDevices(reg.overrides, v.devices);
    hide Decide, Commit, LastWrite, LastNaming, ApplyDevices, Gives, Removes, Items;
    assert write.None? || write == Some(None) || (write.Some? && write.value.Some?);
  }

  ghost predicate CarriedOut(reg: Registry, next: Registry, families: seq<Json>, devices: seq<Json>) {
    && next.revision == reg.revision + 1
    && (forall k, i :: NamesLast(families, FamilyNamed, k, i) ==>
      ValueAfter(Some(families[i]), None, Stored(next.defaults, k)))
    && (forall k :: NamesNot(families, FamilyNamed, k) ==> Stored(next.defaults, k) == Stored(reg.defaults, k))
    && (forall k, i :: NamesLast(devices, DeviceNamed, k, i) ==>
      ValueAfter(Some(devices[i]), None, Stored(next.overrides, k)))
    && (forall k :: NamesNot(devices, DeviceNamed, k) ==> Stored(next.overrides, k) == Stored(reg.overrides, k))
  }

  /** The number stored is the number asked for. After an accepted request a key holds what
      the last item naming it gives, nothing if that item gives null, and what it held
      before if no item names it. */
  lemma StoredIsAsked(reg: Registry, body: Body, families: seq<Json>, devices: seq<Json>)
    requires Decide(reg, body).Accept?
    requires Lists(body, "family_defaults", families) && Lists(body, "device_overrides", devices)
    ensures CarriedOut(reg, Commit(reg, Decide(reg, body)), families, devices)
  {
    hide NamesLast, NamesNot, ValueAfter, Stored, Decide, Commit, Lists;
    OneMoreRevision(reg, body);
    forall k, i | NamesLast(families, FamilyNamed, k, i)
      ensures ValueAfter(Some(families[i]), None, Stored(Commit(reg, Decide(reg, body)).defaults, k))
    {
      FamilyIsAsked(reg, body, families, k, i);
    }
    forall k | NamesNot(families, FamilyNamed, k)
      ensures Stored(Commit(reg, Decide(reg, body)).defaults, k) == Stored(reg.defaults, k)
    {
      FamilyIsAsked(reg, body, families, k, 0);
    }
    forall k, i | NamesLast(devices, DeviceNamed, k, i)
      ensures ValueAfter(Some(devices[i]), None, Stored(Commit(reg, Decide(reg, body)).overrides, k))
    {
      DeviceIsAsked(reg, body, devices, k, i);
    }
    forall k | NamesNot(devices, DeviceNamed, k)
      ensures Stored(Commit(reg, Decide(reg, body)).overrides, k) == Stored(reg.overrides, k)
    {
      DeviceIsAsked(reg, body, devices, k, 0);
    }
  }

  lemma OneMoreRevision(reg: Registry, body: Body)
    requires Decide(reg, body).Accept?
    ensures Commit(reg, Decide(reg, body)).revision == reg.revision + 1
    ensures forall items: seq<Json>, k: Family, i :: NamesLast(items, FamilyNamed, k, i) ==> 0 <= i < |items|
    ensures forall items: seq<Json>, k: string, i :: NamesLast(items, DeviceNamed, k, i) ==> 0 <= i < |items|
  {
  }

  lemma FamilyIsAsked(reg: Registry, body: Body, families: seq<Json>, k: Family, i: int)
    requires Decide(reg, body).Accept? && Lists(body, "family_defaults", families)
    ensures var value := Stored(Commit(reg, Decide(reg, body)).defaults, k);
            && (NamesLast(families, FamilyNamed, k, i) ==> ValueAfter(Some(families[i]), None, value))
            && (NamesNot(families, FamilyNamed, k) ==> value == Stored(reg.defaults, k))
  {
    ItemsAreListed(body, "family_defaults", families);
    FamilyAfterwards(reg, body, k);
    LastNamingExactly(families, FamilyNamed, k);
    hide Decide, Commit, LastNaming, NamesNot, Stored, Gives, Removes, Items, Lists;
  }

  lemma DeviceIsAsked(reg: Registry, body: Body, devices: seq<Json>, k: string, i: int)
    requires Decide(reg, body).Accept? && Lists(body, "device_overrides", devices)
    ensures var value := Stored(Commit(reg, Decide(reg, body)).overrides, k);
            && (NamesLast(devices, DeviceNamed, k, i) ==> ValueAfter(Some(devices[i]), None, value))
            && (NamesNot(devices, DeviceNamed, k) ==> value == Stored(reg.overrides, k))
  {
    ItemsAreListed(body, "device_overrides", devices);
    DeviceAfterwards(reg, body, k);
    LastNamingExactly(devices, DeviceNamed, k);
    hide Decide, Commit, LastNaming, NamesNot, Stored, Gives, Removes, Items, Lists;
  }

  /** The items that a request lists. */
  predicate Batch(body: Body, families: seq<Json>, devices: seq<Json>) {
    Lists(body, "family_defaults", families) && Lists(body, "device_overrides", devices)
  }

  /** The request is addressed to the registry and lists an item, and all items are in order. */
  predicate InOrder(reg: Registry, body: Body, families: seq<Json>, devices: seq<Json>) {
    && body.Fields? && Addressed(reg, body.fields) && families + devices != []
    && (forall item :: item in families ==> FamilyOk(reg.defaults.Keys, item))
    && (forall item :: item in devices ==> DeviceOk(item))
  }

  /** What a request means for the registry: it is accepted exactly when it lists a batch that
      is in order, and then the batch is carried out; otherwise nothing changes, and it is a
      conflict exactly when a sound request names another revision. */
  ghost predicate PutFits(reg: Registry, body: Body, status: Status, next: Registry) {
    && (status == OK <==> exists f, d :: Batch(body, f, d) && InOrder(reg, body, f, d))
    && (status == OK ==> forall f, d :: Batch(body, f, d) ==> CarriedOut(reg, next, f, d))
    && (status != OK ==> next == reg)
    && (status == CONFLICT <==>
      && body.Fields? && Field(body.fields, "reason").Str? && !Blank(Field(body.fields, "reason").s)
      && Field(body.fields, "expected_revision").Int? && Field(body.fields, "expected_revision").n != reg.revision)
  }

  lemma ListedItems(body: Body, name: string)
    requires body.Fields? && Iterate(body.fields, name).Some?
    requires forall item :: item in Items(body, name) ==> item.Object?
    ensures Lists(body, name, Items(body, name))
  {
    var items := Items(body, name);
    if items != [] { assert items[0] in items; }
  }

  lemma AcceptedIsListed(reg: Registry, body: Body)
    requires Decide(reg, body).Accept?
    ensures var (f, d) := (Items(body, "family_defaults"), Items(body, "device_overrides"));
            Batch(body, f, d) && InOrder(reg, body, f, d)
  {
    AcceptsExactly(reg, body.fields);
    hide Decide, Iterate, Blank, IntervalOk;
    ListedItems(body, "family_defaults");
    ListedItems(body, "device_overrides");
  }

  lemma ListedIsAccepted(reg: Registry, body: Body, f: seq<Json>, d: seq<Json>)
    requires Batch(body, f, d) && InOrder(reg, body, f, d)
    ensures Decide(reg, body).Accept?
  {
    AcceptsExactly(reg, body.fields);
    ItemsAreListed(body, "family_defaults", f);
    ItemsAreListed(body, "device_overrides", d);
    ListsIterate(body, "family_defaults", f);
    ListsIterate(body, "device_overrides", d);
    hide Decide, Iterate, Blank, FamilyOk, DeviceOk, Lists, Addressed;
  }

  lemma ListsIterate(body: Body, name: string, items: seq<Json>)
    requires Lists(body, name, items)
    ensures Iterate(body.fields, name).Some?
  {
  }

  lemma DecisionFits(reg: Registry, body: Body)
    ensures PutFits(reg, body, Answer(Decide(reg, body)), Commit(reg, Decide(reg, body)))
  {
    hide Decide, Batch, InOrder, CarriedOut, Blank;
    if Decide(reg, body).Accept? {
      AcceptedIsListed(reg, body);
      forall f, d | Batch(body, f, d) ensures CarriedOut(reg, Commit(reg, Decide(reg, body)), f, d) {
        BatchIsCarriedOut(reg, body, f, d);
      }
    }
    forall f, d | Batch(body, f, d) && InOrder(reg, body, f, d) ensures Decide(reg, body).Accept? {
      ListedIsAccepted(reg, body, f, d);
    }
    if body.Fields? { StatusExactly(reg, body.fields); } else { UnreadableIsInvalid(reg, body); }
    AnswerIs(Decide(reg, body));
    hide Commit, Answer, Addressed, Uniterable, Items, FamilyReadable;
  }

  lemma BatchIsCarriedOut(reg: Registry, body: Body, f: seq<Json>, d: seq<Json>)
    requires Decide(reg, body).Accept? && Batch(body, f, d)
    ensures CarriedOut(reg, Commit(reg, Decide(reg, body)), f, d)
  {
    StoredIsAsked(reg, body, f, d);
    hide CarriedOut, Decide;
  }

  lemma UnreadableIsInvalid(reg: Registry, body: Body)
    requires body.Unreadable?
    ensures Decide(reg, body) == Invalid
  {
  }

  lemma AnswerIs(v: Verdict)
    ensures Answer(v) == OK <==> v.Accept?
    ensures Answer(Invalid) == UNPROCESSABLE
  {
  }

  lemma FamilyNaNIs(reg: Registry, k: Family)
    ensures FamilyIsNaN(reg, k) <==> Stored(reg.defaults, k) == Some(NaN)
  {
  }

  lemma DeviceNaNIs(reg: Registry, k: string)
    ensures DeviceIsNaN(reg, k) <==> Stored(reg.overrides, k) == Some(NaN)
  {
  }

  lemma SoundAndNumbers(reg: Registry)
    requires Sound(reg)
    ensures InRange(reg) <==> (forall k :: !FamilyIsNaN(reg, k)) && (forall k :: !DeviceIsNaN(reg, k))
  {
    if forall k :: !FamilyIsNaN(reg, k) {
      forall k | k in reg.defaults ensures reg.defaults[k] != NaN { assert !FamilyIsNaN(reg, k); }
    }
    if forall k :: !DeviceIsNaN(reg, k) {
      forall k | k in reg.overrides ensures reg.overrides[k] != NaN { assert !DeviceIsNaN(reg, k); }
    }
    hide GoodInterval;
  }

  predicate LastFamilyItemIsNaN(body: Body, k: Family) {
    GivesNaN(LastNaming(Items(body, "family_defaults"), FamilyNamed, k))
  }

  predicate LastDeviceItemIsNaN(body: Body, k: string) {
    GivesNaN(LastNaming(Items(body, "device_overrides"), DeviceNamed, k))
  }

  /** The validation lets one value through that is no interval at all: NaN, since both
      of its comparisons are false. An accepted request keeps the registry in range exactly
      when for every key its last item that names the key does not give NaN. */
  lemma RangeIsKeptExactly(reg: Registry, body: Body)
    requires Sound(reg) && InRange(reg) && Decide(reg, body).Accept?
    ensures InRange(Commit(reg, Decide(reg, body))) <==>
              (forall k :: !LastFamilyItemIsNaN(body, k)) && (forall k :: !LastDeviceItemIsNaN(body, k))
  {
    var next := Commit(reg, Decide(reg, body));
    CommitKeepsSound(reg, body);
    SoundAndNumbers(reg);
    SoundAndNumbers(next);
    hide Commit, Decide, InRange, Sound, FamilyIsNaN, DeviceIsNaN;
    forall k ensures FamilyIsNaN(next, k) <==> LastFamilyItemIsNaN(body, k) {
      FamilyAfterwards(reg, body, k);
      NaNAfter(LastNaming(Items(body, "family_defaults"), FamilyNamed, k), Stored(reg.defaults, k),
        Stored(next.defaults, k));
      FamilyNaNIs(reg, k);
      FamilyNaNIs(next, k);
      OnlyItemsGiveNaN(LastNaming(Items(body, "family_defaults"), FamilyNamed, k));
      hide LastNaming, GivesNaN;
    }
    forall k ensures DeviceIsNaN(next, k) <==> LastDeviceItemIsNaN(body, k) {
      DeviceAfterwards(reg, body, k);
      NaNAfter(LastNaming(Items(body, "device_overrides"), DeviceNamed, k), Stored(reg.overrides, k),
        Stored(next.overrides, k));
      DeviceNaNIs(reg, k);
      DeviceNaNIs(next, k);
      OnlyItemsGiveNaN(LastNaming(Items(body, "device_overrides"), DeviceNamed, k));
      hide LastNaming, GivesNaN;
    }
    hide LastFamilyItemIsNaN, LastDeviceItemIsNaN;
  }

  lemma OnlyItemsGiveNaN(item: Option<Json>)
    ensures GivesNaN(item) ==> item.Some?
  {
  }

  /** One such request, accepted by the initial registry. */
  lemma NaNIsAccepted() returns (body: Body)
    ensures Decide(INITIAL, body).Accept? && !InRange(Commit(INITIAL, Decide(INITIAL, body)))
  {
    var item := Object(map["device_id" := Str(LE_DEVICE), "interval_seconds" := Float(NaN)]);
    var fields := map["expected_revision" := Int(INITIAL_REVISION), "reason" := Str("test"),
      "device_overrides" := List([item])];
    body := Fields(fields);
    assert Field(item.fields, "device_id") == Str(LE_DEVICE) && Field(item.fields, "interval_seconds") == Float(NaN);
    assert DeviceItem(item) == Some((LE_DEVICE, Some(NaN)));
    var updates: seq<DeviceUpdate> := [(LE_DEVICE, Some(NaN))];
    assert DeviceUpdates([item]) == Some(updates) by {
      assert [item][1..] == [];
      assert DeviceUpdates([item]) == Prepend(DeviceItem(item), DeviceUpdates([]));
      assert updates + [] == updates;
    }
    assert "reason"[0] == 'r' && Field(fields, "reason") == Str("test");
    LettersAreNotBlank("test", 't');
    assert Iterate(fields, "family_defaults") == Some([]);
    assert FamilyUpdates(INITIAL.defaults.Keys, []) == Some([]);
    assert !AsksForTen([], updates);
    hide Blank;
    assert Decide(INITIAL, body) == Accept([], updates);
    DevicesTakeLastWrite(INITIAL.overrides, updates, LE_DEVICE);
  }

  // ---- many clients ----

  datatype CadenceSource = DeviceOverride | FamilyDefault

  datatype Payload = Payload(
    revision: int,
    defaults: map<Family, Number>,
    overrides: map<string, Number>,
    xjp: (Number, CadenceSource),
    le: (Number, CadenceSource))

  /** `_effective_interval`: an override goes before the family's default. */
  function Effective(reg: Registry, device: string, family: Family): (Number, CadenceSource)
    requires family in reg.defaults
  {
    if device in reg.overrides then (reg.overrides[device], DeviceOverride) else (reg.defaults[family], FamilyDefault)
  }

  function CadencePayload(reg: Registry): Payload
    requires XJP in reg.defaults && LE in reg.defaults
  {
    Payload(reg.revision, reg.defaults, reg.overrides, Effective(reg, XJP_DEVICE, XJP), Effective(reg, LE_DEVICE, LE))
  }

  type Client = nat

  /** One locked section or answer of some request. */
  datatype Event =
    | Put(c: Client, body: Body)
    | PutElsewhere
    | Post                  // counts a discovery, which no other state sees
    | Read(c: Client)       // the locked section of a GET, or of the answer to an accepted PUT

  datatype Reply = Reply(c: Client, payload: Payload, committed: nat)

  /** `past` lists the registry after every event, the newest last. */
  datatype World = World(
    past: seq<Registry>,
    accepted: seq<int>,            // the revisions that accepted writers expected
    elsewhere: nat,                // other PUT requests
    committed: map<Client, nat>,   // where in `past` a client's accepted commit is
    replies: seq<Reply>)           // the 200 answers

  function Current(w: World): Registry
    requires w.past != []
  {
    w.past[|w.past| - 1]
  }

  function Happen(w: World, e: Event): World
    requires w.past != []
  {
    match e
    case Put(c, body) =>
      var v := Decide(Current(w), body);
      var next := w.(past := w.past + [Commit(Current(w), v)]);
      if v.Accept?
      then next.(accepted := w.accepted + [Field(body.fields, "expected_revision").n],
                 committed := w.committed[c := |w.past|])
      else next
    case PutElsewhere =>
      w.(past := w.past + [Current(w).(mutations := Current(w).mutations + 1)], elsewhere := w.elsewhere + 1)
    case Post => w.(past := w.past + [Current(w)])
    case Read(c) =>
      var since := if c in w.committed then w.committed[c] else 0;
      var next := w.(past := w.past + [Current(w)]);
      if XJP in Current(w).defaults && LE in Current(w).defaults then
        next.(replies := w.replies + [Reply(c, CadencePayload(Current(w)), since)])
      else next  // a KeyError, no answer
  }

  const START := World([INITIAL], [], 0, map[], [])

  /** All the world's events, the earliest first. */
  function History(events: seq<Event>): (w: World)
    ensures w.past != []
    decreases |events|
  {
    if events == [] then START else Happen(History(events[..|events| - 1]), events[|events| - 1])
  }

  lemma {:induction false} HistoryKeepsInv(events: seq<Event>)
    ensures WorldInv(History(events))
    decreases |events|
  {
    if events != [] {
      HistoryKeepsInv(events[..|events| - 1]);
      HappenKeepsInv(History(events[..|events| - 1]), events[|events| - 1]);
    }
  }

  ghost predicate WorldInv(w: World) {
    && w.past != []
    && (forall i :: 0 <= i < |w.past| ==> Sound(w.past[i]))
    && (forall i, j :: 0 <= i <= j < |w.past| ==> w.past[i].revision <= w.past[j].revision)
    && Current(w).revision == INITIAL_REVISION + |w.accepted|
    && Current(w).mutations == |w.accepted| + w.elsewhere
    && (forall i :: 0 <= i < |w.accepted| ==> w.accepted[i] == INITIAL_REVISION + i)
    && (forall c :: c in w.committed ==> w.committed[c] < |w.past|)
    && (forall r :: r in w.replies ==> Consistent(w.past, r))
  }

  /** The answer is one registry that existed at or after the client's own commit. */
  ghost predicate Consistent(past: seq<Registry>, r: Reply) {
    exists i :: r.committed <= i < |past| && Sound(past[i]) && r.payload == CadencePayload(past[i])
      && past[r.committed].revision <= past[i].revision
  }

  lemma ConsistentStays(past: seq<Registry>, reg: Registry, r: Reply)
    requires Consistent(past, r)
    ensures Consistent(past + [reg], r)
  {
    var i :| r.committed <= i < |past| && Sound(past[i]) && r.payload == CadencePayload(past[i])
      && past[r.committed].revision <= past[i].revision;
    var longer := past + [reg];
    assert longer[i] == past[i] && longer[r.committed] == past[r.committed];
  }

  lemma AcceptedNamesRevision(reg: Registry, body: Body)
    requires Decide(reg, body).Accept?
    ensures body.Fields? && Field(body.fields, "expected_revision") == Int(reg.revision)
  {
  }

  lemma HappenKeepsInv(w: World, e: Event)
    requires WorldInv(w)
    ensures WorldInv(Happen(w, e))
  {
    hide Decide, GoodInterval;
    var next := Happen(w, e);
    var reg := Current(next);
    assert next.past == w.past + [reg];
    if e.Put? {
      CommitKeepsSound(Current(w), e.body);
      if Decide(Current(w), e.body).Accept? { AcceptedNamesRevision(Current(w), e.body); }
    }
    forall r | r in next.replies ensures Consistent(next.past, r) {
      if r in w.replies {
        ConsistentStays(w.past, reg, r);
      } else {
        assert next.past[|w.past|] == reg == Current(w);
        assert r.payload == CadencePayload(next.past[|w.past|]);
      }
    }
  }

  /** Over every interleaving: the revision counts the accepted cadence changes and the
      mutation counter counts those and the other PUTs. */
  lemma CountersAddUp(events: seq<Event>)
    ensures var w := History(events);
            Current(w).revision == 7 + |w.accepted| && Current(w).mutations == |w.accepted| + w.elsewhere
  {
    HistoryKeepsInv(events);
  }

  /** No two accepted writers expected the same revision. */
  lemma WritersNeverShareARevision(events: seq<Event>, i: nat, j: nat)
    requires i < j < |History(events).accepted|
    ensures History(events).accepted[i] < History(events).accepted[j]
  {
    HistoryKeepsInv(events);
  }

  /** A request that is not accepted leaves the registry as it was. */
  lemma RejectedChangesNothing(events: seq<Event>, c: Client, body: Body)
    requires Answer(Decide(Current(History(events)), body)) != OK
    ensures Current(History(events + [Put(c, body)])) == Current(History(events))
    ensures History(events + [Put(c, body)]).accepted == History(events).accepted
  {
    assert (events + [Put(c, body)])[..|events|] == events;
  }

  /** The last item naming the key in the latest accepted request that has one. */
  function LatestItem<K(==)>(events: seq<Event>, name: string, named: Json -> Option<K>, k: K): Option<Json>
    decreases |events|
  {
    if events == [] then None
    else
      var init, last := events[..|events| - 1], events[|events| - 1];
      if last.Put? && Decide(Current(History(init)), last.body).Accept?
        && LastNaming(Items(last.body, name), named, k).Some?
      then LastNaming(Items(last.body, name), named, k)
      else LatestItem(init, name, named, k)
  }

  predicate LatestFamilyIsNaN(events: seq<Event>, k: Family) {
    GivesNaN(LatestItem(events, "family_defaults", FamilyNamed, k))
  }

  predicate LatestDeviceIsNaN(events: seq<Event>, k: string) {
    GivesNaN(LatestItem(events, "device_overrides", DeviceNamed, k))
  }

  function FamilyAt(events: seq<Event>, k: Family): Option<Number> { Stored(Current(History(events)).defaults, k) }

  function DeviceAt(events: seq<Event>, k: string): Option<Number> { Stored(Current(History(events)).overrides, k) }

  /** Over every interleaving: what is stored for a family is the number in the latest
      accepted item that names it, or the initial one. */
  lemma {:induction false} StoredFamilyIsLatest(events: seq<Event>, k: Family)
    ensures ValueAfter(LatestItem(events, "family_defaults", FamilyNamed, k), FamilyAt([], k), FamilyAt(events, k))
    decreases |events|
  {
    if events != [] {
      var init, last := events[..|events| - 1], events[|events| - 1];
      StoredFamilyIsLatest(init, k);
      var reg := Current(History(init));
      if last.Put? && Decide(reg, last.body).Accept? { FamilyAfterwards(reg, last.body, k); }
      hide Decide, LastNaming, Gives, Removes, Items, ApplyFamilies, ApplyDevices;
    }
  }

  lemma {:induction false} StoredDeviceIsLatest(events: seq<Event>, k: string)
    ensures ValueAfter(LatestItem(events, "device_overrides", DeviceNamed, k), DeviceAt([], k), DeviceAt(events, k))
    decreases |events|
  {
    if events != [] {
      var init, last := events[..|events| - 1], events[|events| - 1];
      StoredDeviceIsLatest(init, k);
      var reg := Current(History(init));
      if last.Put? && Decide(reg, last.body).Accept? { DeviceAfterwards(reg, last.body, k); }
      hide Decide, LastNaming, Gives, Removes, Items, ApplyFamilies, ApplyDevices;
    }
  }

  lemma InitialValues()
    ensures FamilyAt([], XJP) == Some(Finite(60.0)) && FamilyAt([], LE) == Some(Finite(30.0))
    ensures DeviceAt([], XJP_DEVICE) == Some(Finite(60.0)) && DeviceAt([], LE_DEVICE) == None
    ensures forall k: Family :: k != XJP && k != LE ==> FamilyAt([], k) == None
  {
    assert XJP.1[0] == 'x' && LE.1[0] == 'l' && XJP_DEVICE[0] == 'x' && LE_DEVICE[0] == 'l';
  }

  /** The answer shows this interval for a device: its override's, unless it has none; then
      its family's. Both are what the latest accepted items say. */
  predicate ShowsLatest(events: seq<Event>, shown: (Number, CadenceSource), device: string, override: Option<Number>,
      family: Family, default: Number) {
    var ofDevice := LatestItem(events, "device_overrides", DeviceNamed, device);
    var ofFamily := LatestItem(events, "family_defaults", FamilyNamed, family);
    match shown.1
    case DeviceOverride => ValueAfter(ofDevice, override, Some(shown.0))
    case FamilyDefault => ValueAfter(ofDevice, override, None) && ValueAfter(ofFamily, Some(default), Some(shown.0))
  }

  /** Every read is answered with the intervals that the latest accepted items ask for. */
  lemma AnswersShowLatest(events: seq<Event>, c: Client)
    ensures var w := History(events + [Read(c)]);
            && |w.replies| == |History(events).replies| + 1
            && var payload := w.replies[|w.replies| - 1].payload;
            && payload.revision == Current(History(events)).revision
            && ShowsLatest(events, payload.xjp, XJP_DEVICE, Some(Finite(60.0)), XJP, Finite(60.0))
            && ShowsLatest(events, payload.le, LE_DEVICE, None, LE, Finite(30.0))
  {
    hide *;
    HistoryAppends(events, Read(c));
    IntervalsStayGood(events);
    InitialValues();
    ReadShows(History(events), c);
    EffectiveIsLatest(events, XJP_DEVICE, XJP);
    EffectiveIsLatest(events, LE_DEVICE, LE);
  }

  lemma ReadShows(w: World, c: Client)
    requires w.past != [] && Sound(Current(w))
    ensures XJP in Current(w).defaults && LE in Current(w).defaults
    ensures var u := Happen(w, Read(c));
            && |u.replies| == |w.replies| + 1
            && var payload := u.replies[|u.replies| - 1].payload;
            && payload.revision == Current(w).revision
            && payload.xjp == Effective(Current(w), XJP_DEVICE, XJP)
            && payload.le == Effective(Current(w), LE_DEVICE, LE)
  {
    hide GoodInterval, Effective;
  }

  lemma EffectiveIsLatest(events: seq<Event>, device: string, family: Family)
    requires family in Current(History(events)).defaults && FamilyAt([], family).Some?
    ensures ShowsLatest(events, Effective(Current(History(events)), device, family), device, DeviceAt([], device),
      family, FamilyAt([], family).value)
  {
    StoredFamilyIsLatest(events, family);
    StoredDeviceIsLatest(events, device);
    var start := FamilyAt([], family);
    assert start == Some(start.value);
    hide LatestItem, History, ValueAfter;
  }

  /** Over every interleaving: all stored intervals are numbers above 10 and up to 3600
      exactly when no key was last written with NaN. */
  lemma HistoryIsInRangeExactly(events: seq<Event>)
    ensures InRange(Current(History(events))) <==>
              (forall k :: !LatestFamilyIsNaN(events, k)) && (forall k :: !LatestDeviceIsNaN(events, k))
  {
    hide *;
    IntervalsStayGood(events);
    SoundAndNumbers(Current(History(events)));
    forall k
      ensures FamilyIsNaN(Current(History(events)), k) <==> LatestFamilyIsNaN(events, k)
    {
      FamilyNaNIsLatest(events, k);
    }
    forall k
      ensures DeviceIsNaN(Current(History(events)), k) <==> LatestDeviceIsNaN(events, k)
    {
      DeviceNaNIsLatest(events, k);
    }
  }

  lemma FamilyNaNIsLatest(events: seq<Event>, k: Family)
    ensures FamilyIsNaN(Current(History(events)), k) <==> LatestFamilyIsNaN(events, k)
  {
    StoredFamilyIsLatest(events, k);
    NaNAfter(LatestItem(events, "family_defaults", FamilyNamed, k), FamilyAt([], k), FamilyAt(events, k));
    hide LatestItem, ValueAfter;
  }

  lemma DeviceNaNIsLatest(events: seq<Event>, k: string)
    ensures DeviceIsNaN(Current(History(events)), k) <==> LatestDeviceIsNaN(events, k)
  {
    StoredDeviceIsLatest(events, k);
    NaNAfter(LatestItem(events, "device_overrides", DeviceNamed, k), DeviceAt([], k), DeviceAt(events, k));
    hide LatestItem, ValueAfter;
  }

  /** Stored intervals are always above 10 and up to 3600 seconds, or NaN. */
  lemma IntervalsStayGood(events: seq<Event>)
    ensures Sound(Current(History(events)))
  {
    HistoryKeepsInv(events);
  }

  /** Every read is answered, and every 200 answer shows one registry of the history, no
      older than the commit that it answers. */
  lemma AnswersAreConsistent(events: seq<Event>, c: Client)
    ensures |History(events + [Read(c)]).replies| == |History(events).replies| + 1
    ensures forall r :: r in History(events).replies ==> Consistent(History(events).past, r)
  {
    HistoryKeepsInv(events);
    assert (events + [Read(c)])[..|events|] == events;
  }

  /** How many of these events are accepted cadence changes, after those. */
  function AcceptedIn(before: seq<Event>, events: seq<Event>): nat
    decreases |events|
  {
    if events == [] then 0
    else
      var init, last := events[..|events| - 1], events[|events| - 1];
      AcceptedIn(before, init)
      + if last.Put? && Decide(Current(History(before + init)), last.body).Accept? then 1 else 0
  }

  predicate NoPutBy(events: seq<Event>, c: Client) {
    forall i :: 0 <= i < |events| ==> !(events[i].Put? && events[i].c == c)
  }

  /** Later events count the revision up and leave the past and the client's commit alone. */
  lemma {:induction false} HistoryGoesOn(before: seq<Event>, events: seq<Event>, c: Client)
    requires NoPutBy(events, c)
    ensures var (w, u) := (History(before), History(before + events));
            && Current(u).revision == Current(w).revision + AcceptedIn(before, events)
            && |w.past| <= |u.past| && u.past[..|w.past|] == w.past
            && (c in u.committed <==> c in w.committed) && (c in w.committed ==> u.committed[c] == w.committed[c])
    decreases |events|
  {
    if events == [] {
      assert before + events == before;
    } else {
      var init, last := events[..|events| - 1], events[|events| - 1];
      assert (before + events)[..|before + events| - 1] == before + init
        && (before + events)[|before + events| - 1] == last;
      HistoryGoesOn(before, init, c);
      OneMoreEvent(History(before + init), last, c);
      assert History(before + events) == Happen(History(before + init), last);
      hide Happen, Decide;
    }
  }

  lemma OneMoreEvent(w: World, e: Event, c: Client)
    requires w.past != [] && !(e.Put? && e.c == c)
    ensures var u := Happen(w, e);
            && Current(u).revision
              == Current(w).revision + (if e.Put? && Decide(Current(w), e.body).Accept? then 1 else 0)
            && |u.past| == |w.past| + 1 && u.past[..|w.past|] == w.past
            && (c in u.committed <==> c in w.committed) && (c in w.committed ==> u.committed[c] == w.committed[c])
  {
    hide Decide;
  }

  /** An accepted writer is answered with its own revision plus the number of changes
      accepted between its commit and its answer: with its own exactly when there is none. */
  lemma AnswerCountsLaterCommits(before: seq<Event>, c: Client, mine: Body, between: seq<Event>)
    requires Decide(Current(History(before)), mine).Accept? && NoPutBy(between, c)
    ensures var (own, w) := (History(before + [Put(c, mine)]), History(before + [Put(c, mine)] + between + [Read(c)]));
            && w.replies != []
            && var reply := w.replies[|w.replies| - 1];
            && reply.c == c && reply.committed < |w.past| && w.past[reply.committed] == Current(own)
            && reply.payload.revision == Current(own).revision + AcceptedIn(before + [Put(c, mine)], between)
            && (reply.payload.revision == Current(own).revision <==> AcceptedIn(before + [Put(c, mine)], between) == 0)
  {
    hide *;
    var committed := before + [Put(c, mine)];
    var there := committed + between;
    CommitIsNoted(before, c, mine);
    HistoryGoesOn(committed, between, c);
    HistoryKeepsInv(there);
    HistoryAppends(there, Read(c));
    ReadAnswers(History(there), c);
  }

  lemma HistoryAppends(events: seq<Event>, e: Event)
    ensures History(events + [e]) == Happen(History(events), e)
  {
    assert (events + [e])[..|events|] == events;
  }

  lemma CommitIsNoted(before: seq<Event>, c: Client, mine: Body)
    requires Decide(Current(History(before)), mine).Accept?
    ensures var w := History(before + [Put(c, mine)]);
            c in w.committed && w.committed[c] < |w.past| && w.past[w.committed[c]] == Current(w)
  {
    var committed := before + [Put(c, mine)];
    assert committed[..|before|] == before && committed[|before|] == Put(c, mine);
    hide Decide, Commit;
  }

  lemma ReadAnswers(w: World, c: Client)
    requires WorldInv(w) && c in w.committed
    ensures var u := Happen(w, Read(c));
            && |u.past| == |w.past| + 1 && u.past[..|w.past|] == w.past
            && u.replies != [] && var reply := u.replies[|u.replies| - 1];
            && reply.c == c && reply.committed == w.committed[c] && reply.payload.revision == Current(w).revision
  {
    assert Sound(w.past[|w.past| - 1]);
    hide GoodInterval, Effective, Consistent;
  }

  /** A change of one device's interval, as a request. */
  function Ask(revision: int, device: string, seconds: int): Body {
    Fields(map["expected_revision" := Int(revision), "reason" := Str("x"),
      "device_overrides" := List([AskItem(device, seconds)])])
  }

  function AskItem(device: string, seconds: int): Json {
    Object(map["device_id" := Str(device), "interval_seconds" := Int(seconds)])
  }

  lemma AskIsAccepted(reg: Registry, device: string, seconds: int)
    requires device in {XJP_DEVICE, LE_DEVICE} && 10 < seconds <= 3600
    ensures Decide(reg, Ask(reg.revision, device, seconds)).Accept?
  {
    var fields, item := Ask(reg.revision, device, seconds).fields, AskItem(device, seconds);
    assert "expected_revision" != "reason" && "device_id" != "interval_seconds" by {
      assert "expected_revision"[0] == 'e' && "reason"[0] == 'r' && "device_id"[0] == 'd'
        && "interval_seconds"[0] == 'i';
    }
    assert "family_defaults" !in fields by {
      assert "family_defaults"[0] == 'f' && "expected_revision"[0] == 'e' && "reason"[0] == 'r'
        && "device_overrides"[0] == 'd';
    }
    LettersAreNotBlank("x", 'x');
    assert DeviceOk(item);
    AcceptsExactly(reg, fields);
    assert Iterate(fields, "device_overrides") == Some([item]) && Iterate(fields, "family_defaults") == Some([]);
    hide Decide;
  }

  /** From the start: the first writer's answer already shows the second one's change. */
  lemma FirstWriterSeesTheSecond(mine: Body, theirs: Body)
    requires mine == Ask(7, XJP_DEVICE, 20) && theirs == Ask(8, LE_DEVICE, 40)
    ensures Current(History([Put(0, mine)])).revision == 8
    ensures var w := History([Put(0, mine), Put(1, theirs), Read(0)]);
            w.replies != [] && w.replies[|w.replies| - 1].c == 0 && w.replies[|w.replies| - 1].payload.revision == 9
  {
    hide *;
    var first, between: seq<Event> := [Put(0, mine)], [Put(1, theirs)];
    assert first + between + [Read(0)] == [Put(0, mine), Put(1, theirs), Read(0)];
    assert [] + [Put(0, mine)] == first;
    Beginning();
    AskIsAccepted(INITIAL, XJP_DEVICE, 20);
    HistoryAppends([], Put(0, mine));
    OneAccepted(START, 0, mine);
    AskIsAccepted(Current(History(first)), LE_DEVICE, 40);
    AcceptedOne(first, 1, theirs);
    OnlyOther(1, theirs, 0);
    AnswerCountsLaterCommits([], 0, mine, between);
  }

  lemma Beginning()
    ensures History([]) == START && START.past != [] && Current(START) == INITIAL && INITIAL.revision == 7
  {
  }

  lemma OnlyOther(d: Client, body: Body, c: Client)
    requires c != d
    ensures NoPutBy([Put(d, body)], c)
  {
  }

  lemma OneAccepted(w: World, c: Client, body: Body)
    requires w.past != [] && Decide(Current(w), body).Accept?
    ensures Current(Happen(w, Put(c, body))).revision == Current(w).revision + 1
  {
    hide Decide;
  }

  lemma AcceptedOne(before: seq<Event>, c: Client, body: Body)
    requires Decide(Current(History(before)), body).Accept?
    ensures AcceptedIn(before, [Put(c, body)]) == 1
  {
    assert [Put(c, body)][..0] == [] && before + [] == before;
    hide Decide, History;
  }
}
