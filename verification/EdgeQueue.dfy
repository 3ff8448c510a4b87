/**
  The outbound queue of the edge database between a snapshot and a restore. The
  Device Agent is not part of the repository's visible code; it is assumed to follow
  SQLite's documented AUTOINCREMENT rule: a new row gets an id larger than any id the
  table ever had.
 */
module EdgeQueue {
  import opened Wrappers

  /** `high` is the table's entry in sqlite_sequence. */
  datatype Queue<T> = Queue(rows: map<nat, T>, high: nat)

  datatype QueueStep<T> =
    | Insert(id: nat, row: T)
    | Update(id: nat, row: T)
    | Delete(id: nat)

  /** Steps the table refuses change nothing. */
  function Apply<T>(q: Queue<T>, step: QueueStep<T>): Queue<T> {
    match step
    case Insert(id, row) => if id > q.high then Queue(q.rows[id := row], id) else q
    case Update(id, row) => if id in q.rows then q.(rows := q.rows[id := row]) else q
    case Delete(id) => q.(rows := q.rows - {id})
  }

  function ApplyAll<T>(q: Queue<T>, steps: seq<QueueStep<T>>): Queue<T>
    decreases |steps|
  {
    if steps == [] then q else ApplyAll(Apply(q, steps[0]), steps[1..])
  }

  /** No row id lies above the high-water mark. */
  predicate WellFormed<T>(q: Queue<T>) { forall id :: id in q.rows ==> id <= q.high }

  /** The queue half of the restore guard: same row count and same high-water mark. */
  predicate GuardAccepts<T>(snapshot: Queue<T>, current: Queue<T>) {
    |current.rows| == |snapshot.rows| && current.high == snapshot.high
  }

  /** History only moves the mark up, and while it stands no id appears. */
  lemma {:induction false} HistoryMovesUp<T>(q: Queue<T>, steps: seq<QueueStep<T>>)
    requires WellFormed(q)
    ensures var r := ApplyAll(q, steps);
            WellFormed(r) && r.high >= q.high && forall id :: id in r.rows && id <= q.high ==> id in q.rows
    decreases |steps|
  {
    if steps != [] {
      HistoryMovesUp(Apply(q, steps[0]), steps[1..]);
    }
  }

  lemma SubsetOfSameSize<T>(a: set<T>, b: set<T>)
    requires a <= b && |a| == |b|
    ensures a == b
  {
    assert b == a + (b - a);
    assert |b - a| == 0;
  }

  /** The guard is exact: after any history it accepts if and only if the set of queued
      ids and the mark are the snapshot's, so that putting the snapshot back neither
      loses nor resurrects a queued row. */
  lemma GuardIsExact<T>(snapshot: Queue<T>, steps: seq<QueueStep<T>>)
    requires WellFormed(snapshot)
    ensures var current := ApplyAll(snapshot, steps);
            GuardAccepts(snapshot, current) <==>
              current.rows.Keys == snapshot.rows.Keys && current.high == snapshot.high
  {
    HistoryMovesUp(snapshot, steps);
    var current := ApplyAll(snapshot, steps);
    if GuardAccepts(snapshot, current) {
      assert current.rows.Keys <= snapshot.rows.Keys;
      SubsetOfSameSize(current.rows.Keys, snapshot.rows.Keys);
    }
    if current.rows.Keys == snapshot.rows.Keys {
      assert |current.rows| == |current.rows.Keys| && |snapshot.rows| == |snapshot.rows.Keys|;
    }
  }

  /** The last update of this row in the history. */
  function LastUpdate<T>(steps: seq<QueueStep<T>>, id: nat): Option<T>
    decreases |steps|
  {
    if steps == [] then None
    else if LastUpdate(steps[1..], id).Some? then LastUpdate(steps[1..], id)
    else if steps[0].Update? && steps[0].id == id then Some(steps[0].row)
    else None
  }

  /** A row that is still there has the contents of its last update. */
  lemma {:induction false} RowsTakeLastUpdate<T>(q: Queue<T>, steps: seq<QueueStep<T>>, id: nat)
    requires WellFormed(q) && id in q.rows && id in ApplyAll(q, steps).rows
    ensures ApplyAll(q, steps).rows[id] ==
            match LastUpdate(steps, id) case Some(row) => row case None => q.rows[id]
    decreases |steps|
  {
    if steps != [] {
      var p := Apply(q, steps[0]);
      HistoryMovesUp(q, [steps[0]]);
      assert ApplyAll(q, [steps[0]]) == p;
      HistoryMovesUp(p, steps[1..]);
      RowsTakeLastUpdate(p, steps[1..], id);
    }
  }

  predicate NoUpdates<T>(steps: seq<QueueStep<T>>) {
    forall i :: 0 <= i < |steps| ==> !steps[i].Update?
  }

  lemma {:induction false} NoUpdateIsLast<T>(steps: seq<QueueStep<T>>, id: nat)
    requires NoUpdates(steps)
    ensures LastUpdate(steps, id) == None
  {
    if steps != [] { NoUpdateIsLast(steps[1..], id); }
  }

  /** The guard does not look at the rows' contents: an accepted restore brings back the very
      same rows exactly when every row's last update, if it has one, gave it the contents
      that it had at the snapshot. */
  lemma AcceptedRestoreKeepsRows<T>(snapshot: Queue<T>, steps: seq<QueueStep<T>>)
    requires WellFormed(snapshot) && GuardAccepts(snapshot, ApplyAll(snapshot, steps))
    ensures ApplyAll(snapshot, steps).rows == snapshot.rows <==>
              forall id :: id in snapshot.rows ==> LastUpdate(steps, id) in {None, Some(snapshot.rows[id])}
    ensures NoUpdates(steps) ==> ApplyAll(snapshot, steps).rows == snapshot.rows
  {
    GuardIsExact(snapshot, steps);
    var current := ApplyAll(snapshot, steps);
    forall id | id in snapshot.rows
      ensures id in current.rows
      ensures current.rows[id] == match LastUpdate(steps, id) case Some(row) => row case None => snapshot.rows[id]
    {
      assert id in current.rows.Keys;
      RowsTakeLastUpdate(snapshot, steps, id);
    }
    if NoUpdates(steps) {
      forall id | id in snapshot.rows ensures LastUpdate(steps, id) == None { NoUpdateIsLast(steps, id); }
    }
    hide ApplyAll, GuardAccepts, LastUpdate;
    assert current.rows.Keys == snapshot.rows.Keys;
  }

  /** So one update of a queued row passes unseen, and a restore undoes it. */
  lemma UpdatePassesUnseen<T>(q: Queue<T>, id: nat, row: T)
    requires WellFormed(q) && id in q.rows && q.rows[id] != row
    ensures GuardAccepts(q, ApplyAll(q, [Update(id, row)]))
    ensures ApplyAll(q, [Update(id, row)]).rows != q.rows
  {
    var updated := Apply(q, Update(id, row));
    assert ApplyAll(q, [Update(id, row)]) == updated;
    assert updated.rows.Keys == q.rows.Keys;
    assert |updated.rows| == |updated.rows.Keys| && |q.rows| == |q.rows.Keys|;
    assert updated.rows[id] == row;
  }

  /** Neither half of the guard is enough. Any queued row can be delivered and replaced
      by a new one with the count unchanged, and delivered with the mark unchanged. */
  lemma NeitherHalfSuffices<T>(q: Queue<T>, id: nat, row: T)
    requires WellFormed(q) && id in q.rows
    ensures var replaced := ApplyAll(q, [Delete(id), Insert(q.high + 1, row)]);
            |replaced.rows| == |q.rows| && replaced.rows.Keys != q.rows.Keys
    ensures var delivered := ApplyAll(q, [Delete(id)]);
            delivered.high == q.high && delivered.rows.Keys != q.rows.Keys
  {
    var deleted := Apply(q, Delete(id));
    var insert := Insert(q.high + 1, row);
    assert [Delete(id), insert][1..] == [insert];
    assert ApplyAll(q, [Delete(id), insert]) == ApplyAll(deleted, [insert]) == Apply(deleted, insert);
    assert ApplyAll(q, [Delete(id)]) == deleted;
    var replaced := Apply(deleted, insert);
    assert replaced.rows.Keys == q.rows.Keys - {id} + {q.high + 1};
    assert q.high + 1 in replaced.rows.Keys && q.high + 1 !in q.rows.Keys;
    assert id !in deleted.rows.Keys;
    assert |replaced.rows| == |replaced.rows.Keys| && |q.rows| == |q.rows.Keys|;
  }
}
