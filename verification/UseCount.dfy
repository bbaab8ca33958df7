/** Use counts across the pool and the logs_keys table, with FlushStats split where it unlocks. */
module UseCount {
  import opened Basics
  import opened KeyModel
  import opened PoolSpec
  import PoolRuns

  /** Where the one flush of the maintenance loop stands: rows still to write, and the row that has
      been written but whose delta is still in memory. */
  datatype Flush = Resting | Writing(rows: seq<Pending>) | Written(row: Pending, rows: seq<Pending>)

  /** `stored` is the use_count column by row id; `granted` counts leases by pool index. */
  datatype Books = Books(pool: PoolRuns.Sys, stored: map<nat, nat>, flush: Flush, granted: seq<nat>)

  datatype Step =
    | PoolStep(e: PoolRuns.Event)
    | BeginFlush
    | WriteRow(ok: bool)
    | SubtractRow(at: Time)
    | EndFlush

  predicate Legal(b: Books, s: Step) {
    && |b.granted| == |b.pool.keys|
    && match s
       case PoolStep(e) => !e.Drain? && PoolRuns.Legal(b.pool, e)
       case BeginFlush => b.flush.Resting?
       case WriteRow(ok) => b.flush.Writing? && b.flush.rows != [] && (ok ==> b.flush.rows[0].id in b.stored)
       case SubtractRow(at) => b.flush.Written? && b.pool.now <= at
       case EndFlush => b.flush.Writing? && b.flush.rows == []
  }

  function Next(b: Books, s: Step): (b': Books)
    requires Legal(b, s)
    ensures |b'.granted| == |b'.pool.keys| == |b.pool.keys| && b'.stored.Keys == b.stored.Keys
  {
    match s
    case PoolStep(e) =>
      var outcome := if e.Acquire? then AcquireOutcome(b.pool.keys, e.at) else NoKey;
      b.(pool := PoolRuns.Next(b.pool, e),
         granted := if outcome.Granted? then b.granted[outcome.index := b.granted[outcome.index] + 1] else b.granted)
    case BeginFlush => b.(flush := Writing(FlushBatch(b.pool.keys)))
    case WriteRow(ok) =>
      var row, rest := b.flush.rows[0], b.flush.rows[1..];
      if ok then b.(stored := b.stored[row.id := b.stored[row.id] + row.useDelta], flush := Written(row, rest))
      else b.(flush := Writing(rest))
    case SubtractRow(at) =>
      b.(pool := PoolRuns.Next(b.pool, PoolRuns.Drain(b.flush.row.id, b.flush.row.useDelta, at)),
         flush := Writing(b.flush.rows))
    case EndFlush => b.(flush := Resting)
  }

  predicate LegalRun(b: Books, ss: seq<Step>)
    decreases |ss|
  {
    ss == [] || (Legal(b, ss[0]) && LegalRun(Next(b, ss[0]), ss[1..]))
  }

  function Run(b: Books, ss: seq<Step>): (b': Books)
    requires LegalRun(b, ss)
    ensures |b'.pool.keys| == |b.pool.keys| && b'.stored.Keys == b.stored.Keys
    ensures |b.granted| == |b.pool.keys| ==> |b'.granted| == |b'.pool.keys|
    decreases |ss|
  {
    if ss == [] then b else Run(Next(b, ss[0]), ss[1..])
  }

  /** The part of key `id`'s count that is in the table and in memory at once. */
  function Doubled(f: Flush, id: nat): nat {
    if f.Written? && f.row.id == id then f.row.useDelta else 0
  }

  function PendingRows(f: Flush): seq<Pending> {
    match f
    case Resting => []
    case Writing(rows) => rows
    case Written(row, rows) => [row] + rows
  }

  /** Rows of the table have distinct ids, and each key that has one is a row. */
  ghost predicate IdsOk(ks: seq<Key>, stored: map<nat, nat>) {
    && (forall i, j :: 0 <= i < j < |ks| && ks[i].id != 0 ==> ks[i].id != ks[j].id)
    && (forall i :: 0 <= i < |ks| && ks[i].id != 0 ==> ks[i].id in stored)
  }

  /** Every pending row belongs to a key that still holds at least what the row will subtract. */
  ghost predicate RowsCovered(ks: seq<Key>, rows: seq<Pending>) {
    && (forall p <- rows ::
          p.id != 0 && FirstWithId(ks, p.id) < |ks| && ks[FirstWithId(ks, p.id)].useCount >= p.useDelta)
    && (forall i, j :: 0 <= i < j < |rows| ==> rows[i].id != rows[j].id)
  }

  /** Stored plus in-memory uses, counting nothing twice, are the initial count plus the leases. */
  ghost predicate Balanced(b: Books, start: map<nat, nat>)
    requires |b.granted| == |b.pool.keys|
  {
    forall i :: 0 <= i < |b.pool.keys| && b.pool.keys[i].id != 0 &&
                b.pool.keys[i].id in b.stored && b.pool.keys[i].id in start ==>
      b.stored[b.pool.keys[i].id] + b.pool.keys[i].useCount - Doubled(b.flush, b.pool.keys[i].id)
        == start[b.pool.keys[i].id] + b.granted[i]
  }

  ghost predicate Inv(b: Books, start: map<nat, nat>) {
    && |b.granted| == |b.pool.keys|
    && b.stored.Keys == start.Keys
    && IdsOk(b.pool.keys, b.stored)
    && RowsCovered(b.pool.keys, PendingRows(b.flush))
    && Balanced(b, start)
  }

  lemma FirstIsOnly(ks: seq<Key>, stored: map<nat, nat>, i: nat)
    requires IdsOk(ks, stored) && i < |ks| && ks[i].id != 0
    ensures FirstWithId(ks, ks[i].id) == i
  {
  }

  /** No critical section other than the flush's own lowers a use count or changes an id. */
  lemma UsesOnlyGrow(s: PoolRuns.Sys, e: PoolRuns.Event, i: nat)
    requires PoolRuns.Legal(s, e) && !e.Drain? && i < |s.keys|
    ensures PoolRuns.Next(s, e).keys[i].id == s.keys[i].id
    ensures PoolRuns.Next(s, e).keys[i].useCount ==
            s.keys[i].useCount + if e.Acquire? && AcquireOutcome(s.keys, e.at) == Granted(i) then 1 else 0
  {
  }

  lemma CoveredAfterGrowth(ks: seq<Key>, ks': seq<Key>, stored: map<nat, nat>, rows: seq<Pending>)
    requires IdsOk(ks, stored) && RowsCovered(ks, rows) && |ks'| == |ks|
    requires forall i :: 0 <= i < |ks| ==> ks'[i].id == ks[i].id && ks'[i].useCount >= ks[i].useCount
    ensures RowsCovered(ks', rows)
  {
    forall p <- rows
      ensures FirstWithId(ks', p.id) == FirstWithId(ks, p.id)
    {
      var i := FirstWithId(ks, p.id);
      assert p.id != 0 && i < |ks|;
      assert IdsOk(ks', stored);
      FirstIsOnly(ks', stored, i);
    }
  }

  lemma PoolStepKeepsInv(b: Books, e: PoolRuns.Event, start: map<nat, nat>)
    requires Inv(b, start) && Legal(b, PoolStep(e))
    ensures Inv(Next(b, PoolStep(e)), start)
  {
    var ks, ks' := b.pool.keys, PoolRuns.Next(b.pool, e).keys;
    forall i | 0 <= i < |ks|
      ensures ks'[i].id == ks[i].id
      ensures ks'[i].useCount == ks[i].useCount + if e.Acquire? && AcquireOutcome(ks, e.at) == Granted(i) then 1 else 0
    {
      UsesOnlyGrow(b.pool, e, i);
    }
    CoveredAfterGrowth(ks, ks', b.stored, PendingRows(b.flush));
  }

  /** The batch is one row per key with uses, each with exactly that key's count. */
  lemma {:induction false} BatchRows(ks: seq<Key>, stored: map<nat, nat>)
    requires IdsOk(ks, stored)
    ensures forall p <- FlushBatch(ks) ::
              p.id != 0 && exists i :: 0 <= i < |ks| && ks[i].id == p.id && ks[i].useCount == p.useDelta
    ensures forall i, j :: 0 <= i < j < |FlushBatch(ks)| ==> FlushBatch(ks)[i].id != FlushBatch(ks)[j].id
  {
    if ks != [] {
      var n := |ks| - 1;
      BatchRows(ks[..n], stored);
      var front := FlushBatch(ks[..n]);
      forall p <- front
        ensures p.id != ks[n].id
        ensures exists i :: 0 <= i < |ks| && ks[i].id == p.id && ks[i].useCount == p.useDelta
      {
        var i :| 0 <= i < n && ks[..n][i].id == p.id && ks[..n][i].useCount == p.useDelta;
        assert ks[i].id == p.id;
      }
      assert forall i :: 0 <= i < |front| ==> front[i] in front;
    }
  }

  lemma BeginKeepsInv(b: Books, start: map<nat, nat>)
    requires Inv(b, start) && Legal(b, BeginFlush)
    ensures Inv(Next(b, BeginFlush), start)
  {
    var ks := b.pool.keys;
    BatchRows(ks, b.stored);
    forall p <- FlushBatch(ks)
      ensures FirstWithId(ks, p.id) < |ks| && ks[FirstWithId(ks, p.id)].useCount >= p.useDelta
    {
      var i :| 0 <= i < |ks| && ks[i].id == p.id && ks[i].useCount == p.useDelta;
      FirstIsOnly(ks, b.stored, i);
    }
  }

  lemma CoveredTail(ks: seq<Key>, rows: seq<Pending>)
    requires RowsCovered(ks, rows) && rows != []
    ensures RowsCovered(ks, rows[1..])
  {
    assert forall p <- rows[1..] :: p in rows;
  }

  lemma FailedWriteKeepsInv(b: Books, start: map<nat, nat>)
    requires Inv(b, start) && Legal(b, WriteRow(false))
    ensures Inv(Next(b, WriteRow(false)), start)
  {
    CoveredTail(b.pool.keys, b.flush.rows);
  }

  lemma WriteKeepsInv(b: Books, start: map<nat, nat>)
    requires Inv(b, start) && Legal(b, WriteRow(true))
    ensures Inv(Next(b, WriteRow(true)), start)
  {
    var rows := b.flush.rows;
    assert PendingRows(Next(b, WriteRow(true)).flush) == rows by {
      assert rows == [rows[0]] + rows[1..];
    }
  }

  /** Subtracting the first pending row leaves the others covered. */
  lemma {:induction false} CoveredAfterDrain(ks: seq<Key>, stored: map<nat, nat>, row: Pending, rows: seq<Pending>)
    requires IdsOk(ks, stored) && RowsCovered(ks, [row] + rows)
    ensures var i := FirstWithId(ks, row.id);
            && i < |ks| && ks[i].useCount >= row.useDelta
            && IdsOk(DrainFirst(ks, row.id, row.useDelta), stored)
            && RowsCovered(DrainFirst(ks, row.id, row.useDelta), rows)
  {
    var ks' := DrainFirst(ks, row.id, row.useDelta);
    var pending := [row] + rows;
    CoveredTail(ks, pending);
    assert pending[1..] == rows && row in pending;
    var i := FirstWithId(ks, row.id);
    assert ks' == ks[i := ks[i].(useCount := ks[i].useCount - row.useDelta)];
    assert IdsOk(ks', stored);
    forall p <- rows
      ensures FirstWithId(ks', p.id) == FirstWithId(ks, p.id) != i
    {
      var n :| 0 <= n < |rows| && rows[n] == p;
      assert pending[0] == row && pending[n + 1] == p;
      FirstIsOnly(ks', stored, FirstWithId(ks, p.id));
    }
  }

  /** The delta leaves memory in the moment in which it stops being counted twice. */
  lemma BalancedAfterDrain(b: Books, at: Time, start: map<nat, nat>)
    requires |b.granted| == |b.pool.keys| && IdsOk(b.pool.keys, b.stored) && Balanced(b, start)
    requires Legal(b, SubtractRow(at)) && b.flush.row.id != 0
    requires var i := FirstWithId(b.pool.keys, b.flush.row.id);
             i < |b.pool.keys| && b.pool.keys[i].useCount >= b.flush.row.useDelta
    ensures Balanced(Next(b, SubtractRow(at)), start)
  {
    var i := FirstWithId(b.pool.keys, b.flush.row.id);
    assert forall j :: 0 <= j < |b.pool.keys| && j != i ==> b.pool.keys[j].id != b.flush.row.id;
  }

  lemma SubtractKeepsInv(b: Books, at: Time, start: map<nat, nat>)
    requires Inv(b, start) && Legal(b, SubtractRow(at))
    ensures Inv(Next(b, SubtractRow(at)), start)
  {
    CoveredAfterDrain(b.pool.keys, b.stored, b.flush.row, b.flush.rows);
    assert b.flush.row in PendingRows(b.flush);
    BalancedAfterDrain(b, at, start);
  }

  lemma InvNext(b: Books, s: Step, start: map<nat, nat>)
    requires Inv(b, start) && Legal(b, s)
    ensures Inv(Next(b, s), start)
  {
    match s {
      case PoolStep(e) => PoolStepKeepsInv(b, e, start);
      case BeginFlush => BeginKeepsInv(b, start);
      case WriteRow(ok) =>
        if ok {
          WriteKeepsInv(b, start);
        } else {
          FailedWriteKeepsInv(b, start);
        }
      case SubtractRow(at) => SubtractKeepsInv(b, at, start);
      case EndFlush =>
    }
  }

  /** The state after start-up: nothing counted in memory yet. */
  function AtStart(u: PoolRuns.StartUp, t0: Time, stored: map<nat, nat>): Books
    requires |u.first| == |u.second| == |u.ids|
  {
    Books(PoolRuns.Sys(u.Keys(), t0), stored, Resting, seq(|u.Keys()|, _ => 0))
  }

  lemma InvAtStart(u: PoolRuns.StartUp, t0: Time, stored: map<nat, nat>)
    requires u.Before(t0) && IdsOk(u.Keys(), stored)
    ensures Inv(AtStart(u, t0, stored), stored)
  {
  }

  /** A set of states that steps do not leave. */
  ghost predicate Closed(states: iset<Books>) {
    forall b, s :: b in states && Legal(b, s) ==> Next(b, s) in states
  }

  ghost predicate HasStarts(states: iset<Books>, stored: map<nat, nat>) {
    forall u: PoolRuns.StartUp, t0: Time ::
      u.Before(t0) && IdsOk(u.Keys(), stored) ==> AtStart(u, t0, stored) in states
  }

  /** In every such set that holds the states after start-up with this table. */
  ghost predicate Reachable(b: Books, stored: map<nat, nat>) {
    forall states: iset<Books> :: HasStarts(states, stored) && Closed(states) ==> b in states
  }

  lemma ReachNext(b: Books, s: Step, stored: map<nat, nat>)
    requires Reachable(b, stored) && Legal(b, s)
    ensures Reachable(Next(b, s), stored)
  {
  }

  /** Every run goes through reachable states only. */
  lemma {:induction false} RunsReach(b: Books, ss: seq<Step>, stored: map<nat, nat>)
    requires Reachable(b, stored) && LegalRun(b, ss)
    ensures Reachable(Run(b, ss), stored)
    decreases |ss|
  {
    if ss != [] {
      ReachNext(b, ss[0], stored);
      RunsReach(Next(b, ss[0]), ss[1..], stored);
    }
  }

  lemma ReachableInv(b: Books, stored: map<nat, nat>)
    requires Reachable(b, stored)
    ensures Inv(b, stored)
  {
    var states := iset x: Books | Inv(x, stored);
    forall u: PoolRuns.StartUp, t0: Time | u.Before(t0) && IdsOk(u.Keys(), stored)
      ensures AtStart(u, t0, stored) in states
    {
      InvAtStart(u, t0, stored);
    }
    forall x, s | x in states && Legal(x, s)
      ensures Next(x, s) in states
    {
      InvNext(x, s, stored);
    }
    assert HasStarts(states, stored) && Closed(states);
    assert b in states;
  }

  /** Uses are conserved: in every reachable state, so at every interleaving of leases with the phases of
      FlushStats and whichever writes fail, a row's stored count and its key's counter, less a delta
      that is momentarily in both, add up to the initial count and the leases granted. Between
      flushes the two add up outright. */
  lemma UsesConserved(b: Books, stored: map<nat, nat>, i: nat)
    requires Reachable(b, stored) && i < |b.pool.keys| && b.pool.keys[i].id != 0
    ensures var k := b.pool.keys[i];
            && k.id in stored && k.id in b.stored && i < |b.granted|
            && b.stored[k.id] + k.useCount - Doubled(b.flush, k.id) == stored[k.id] + b.granted[i]
  {
    ReachableInv(b, stored);
  }

  /** The guard before the subtraction always holds, for every row still to be subtracted. */
  lemma SubtractionAlwaysFits(b: Books, stored: map<nat, nat>)
    requires Reachable(b, stored) && b.flush.Written?
    ensures var i := FirstWithId(b.pool.keys, b.flush.row.id);
            i < |b.pool.keys| && b.pool.keys[i].useCount >= b.flush.row.useDelta
  {
    ReachableInv(b, stored);
    assert b.flush.row in PendingRows(b.flush);
  }

  // ----- a flush forgets nothing

  /** What pending rows will still subtract from key `id`. */
  function Unsubtracted(rows: seq<Pending>, id: nat): nat {
    if rows == [] then 0 else (if rows[0].id == id then rows[0].useDelta else 0) + Unsubtracted(rows[1..], id)
  }

  lemma {:induction false} UnsubtractedAdds(rows: seq<Pending>, more: seq<Pending>, id: nat)
    ensures Unsubtracted(rows + more, id) == Unsubtracted(rows, id) + Unsubtracted(more, id)
  {
    if rows == [] {
      assert rows + more == more;
    } else {
      assert (rows + more)[1..] == rows[1..] + more;
      UnsubtractedAdds(rows[1..], more, id);
    }
  }

  lemma {:induction false} NothingOfOthers(ks: seq<Key>, id: nat)
    requires forall k <- ks :: k.id != id
    ensures Unsubtracted(FlushBatch(ks), id) == 0
  {
    if ks != [] {
      var n := |ks| - 1;
      NothingOfOthers(ks[..n], id);
      UnsubtractedAdds(FlushBatch(ks[..n]), FlushBatch(ks)[|FlushBatch(ks[..n])|..], id);
      assert ks[n] in ks;
    }
  }

  /** The batch will subtract everything that a key with a row has counted. */
  lemma BatchHoldsAll(ks: seq<Key>, stored: map<nat, nat>, i: nat)
    requires IdsOk(ks, stored) && i < |ks| && ks[i].id != 0
    ensures Unsubtracted(FlushBatch(ks), ks[i].id) == ks[i].useCount
  {
    var before, k, after := ks[..i], ks[i], ks[i + 1..];
    assert before + [k] + after == ks;
    NothingOfOthers(before, k.id);
    NothingOfOthers(after, k.id);
    OwnRowIn(before, k, after);
  }

  lemma OwnRowIn(before: seq<Key>, k: Key, after: seq<Key>)
    requires k.id != 0
    ensures Unsubtracted(FlushBatch(before + [k] + after), k.id) ==
            Unsubtracted(FlushBatch(before), k.id) + k.useCount + Unsubtracted(FlushBatch(after), k.id)
  {
    var rows := if k.useCount != 0 then [Pending(k.id, k.useCount, k.errCount)] else [];
    FlushesKeyByKey(before, k, after);
    assert rows != [] ==> rows[1..] == [];
    UnsubtractedAdds(FlushBatch(before) + rows, FlushBatch(after), k.id);
    UnsubtractedAdds(FlushBatch(before), rows, k.id);
  }

  /** During a flush: what is in memory is what the flush will subtract and the leases since it began. */
  ghost predicate Flushing(b: Books, begun: seq<nat>) {
    && |begun| == |b.granted| == |b.pool.keys|
    && forall i :: 0 <= i < |begun| && b.pool.keys[i].id != 0 ==>
         b.pool.keys[i].useCount + begun[i] ==
         b.granted[i] + Unsubtracted(PendingRows(b.flush), b.pool.keys[i].id)
  }

  /** A step of a flush under way in which no write fails. */
  predicate InFlush(s: Step) {
    !s.BeginFlush? && !s.EndFlush? && (s.WriteRow? ==> s.ok)
  }

  lemma FlushingAtBegin(b: Books, start: map<nat, nat>)
    requires Inv(b, start) && Legal(b, BeginFlush)
    ensures Flushing(Next(b, BeginFlush), b.granted)
  {
    forall i | 0 <= i < |b.pool.keys| && b.pool.keys[i].id != 0
      ensures Unsubtracted(FlushBatch(b.pool.keys), b.pool.keys[i].id) == b.pool.keys[i].useCount
    {
      BatchHoldsAll(b.pool.keys, b.stored, i);
    }
  }

  lemma FlushingAfterPoolStep(b: Books, e: PoolRuns.Event, begun: seq<nat>)
    requires Flushing(b, begun) && Legal(b, PoolStep(e))
    ensures Flushing(Next(b, PoolStep(e)), begun)
  {
    forall i | 0 <= i < |begun| {
      UsesOnlyGrow(b.pool, e, i);
    }
  }

  lemma FlushingAfterWrite(b: Books, begun: seq<nat>)
    requires Flushing(b, begun) && Legal(b, WriteRow(true))
    ensures Flushing(Next(b, WriteRow(true)), begun)
  {
    assert b.flush.rows == [b.flush.rows[0]] + b.flush.rows[1..];
  }

  lemma FlushingAfterSubtract(b: Books, at: Time, begun: seq<nat>, start: map<nat, nat>)
    requires Inv(b, start) && Flushing(b, begun) && Legal(b, SubtractRow(at))
    ensures Flushing(Next(b, SubtractRow(at)), begun)
  {
    var row, rows := b.flush.row, b.flush.rows;
    assert row in PendingRows(b.flush) && PendingRows(b.flush)[1..] == rows;
    assert forall j :: 0 <= j < |b.pool.keys| && j != FirstWithId(b.pool.keys, row.id) ==>
                         b.pool.keys[j].id != row.id;
  }

  lemma {:induction false} FlushingRun(b: Books, ss: seq<Step>, begun: seq<nat>, start: map<nat, nat>)
    requires Inv(b, start) && Flushing(b, begun) && LegalRun(b, ss) && forall s <- ss :: InFlush(s)
    ensures Flushing(Run(b, ss), begun)
    decreases |ss|
  {
    if ss != [] {
      assert ss[0] in ss && forall s <- ss[1..] :: s in ss;
      match ss[0] {
        case PoolStep(e) => FlushingAfterPoolStep(b, e, begun);
        case WriteRow(_) => FlushingAfterWrite(b, begun);
        case SubtractRow(at) => FlushingAfterSubtract(b, at, begun, start);
      }
      InvNext(b, ss[0], start);
      FlushingRun(Next(b, ss[0]), ss[1..], begun, start);
    }
  }

  /** A flush forgets no key and no use: once all rows of one that began at any moment are written, what
      every key with a row still counts in memory are exactly the leases granted since. */
  lemma FlushForgetsNothing(b: Books, stored: map<nat, nat>, ss: seq<Step>, i: nat)
    requires Reachable(b, stored) && Legal(b, BeginFlush)
    requires LegalRun(Next(b, BeginFlush), ss) && forall s <- ss :: InFlush(s)
    ensures var b' := Run(Next(b, BeginFlush), ss);
            b'.flush == Writing([]) && i < |b.granted| && b'.pool.keys[i].id != 0 ==>
              b'.granted[i] == b.granted[i] + b'.pool.keys[i].useCount
  {
    ReachableInv(b, stored);
    InvNext(b, BeginFlush, stored);
    FlushingAtBegin(b, stored);
    FlushingRun(Next(b, BeginFlush), ss, b.granted, stored);
  }
}
