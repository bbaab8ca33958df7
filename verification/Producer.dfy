/** The producer's loop as it is written: batches by keyset, counters updated in place, kept rows
    sent in order; proved against the one-pass reference. */
module Producer {
  import opened Basics
  import opened CnWorlds
  import opened Pipeline
  import opened PipelineProofs
  import PipelineResults

  class ScanCounters {
    var walked: nat
    var filteredNonCN: nat
    var filteredRecent: nat
    var queued: nat
    var lastID: nat

    constructor ()
      ensures walked == filteredNonCN == filteredRecent == queued == lastID == 0
    {
      walked, filteredNonCN, filteredRecent, queued, lastID := 0, 0, 0, 0, 0;
    }

    /** The counters after filtering the first `|clock|` rows. */
    ghost predicate After(rows: seq<Member>, clock: seq<Time>)
      requires |clock| <= |rows|
      reads this
    {
      && walked == |clock|
      && filteredNonCN == CountVerdict(rows, clock, NonCN)
      && filteredRecent == CountVerdict(rows, clock, Recent)
      && queued == CountVerdict(rows, clock, Keep)
      && lastID == if clock == [] then 0 else rows[|clock| - 1].id
    }
  }

  ghost predicate CursorAt(rows: seq<Member>, c: nat, lastID: nat) {
    c <= |rows| && lastID == if c == 0 then 0 else rows[c - 1].id
  }

  /** One walked row, filtered at the clock reading `now`. */
  method FilterRow(m: Member, now: Time, counters: ScanCounters, sent: seq<Member>,
                   ghost table: seq<Member>, ghost clock: seq<Time>, ghost c: nat)
    returns (out: seq<Member>)
    requires |clock| == |table| && c < |table| && m == table[c] && now == clock[c]
    requires counters.After(table, clock[..c]) && sent == Kept(table, clock[..c])
    modifies counters
    ensures counters.After(table, clock[..c + 1]) && out == Kept(table, clock[..c + 1])
    ensures counters.lastID == m.id && counters.walked == old(counters.walked) + 1
    ensures counters.filteredRecent == old(counters.filteredRecent) + if Due(m, now) then 0 else 1
    ensures counters.filteredNonCN ==
            old(counters.filteredNonCN) + if Due(m, now) && !IsCNServer(m.server) then 1 else 0
    ensures counters.queued == old(counters.queued) + if Due(m, now) && IsCNServer(m.server) then 1 else 0
    ensures out == sent + if Due(m, now) && IsCNServer(m.server) then [m] else []
  {
    assert clock[..c + 1][..c] == clock[..c];
    out := sent;
    counters.lastID := m.id;
    counters.walked := counters.walked + 1;
    match FilterReason(m, now) {
      case Keep =>
        counters.queued := counters.queued + 1;
        out := sent + [m];
      case NonCN =>
        counters.filteredNonCN := counters.filteredNonCN + 1;
      case Recent =>
        counters.filteredRecent := counters.filteredRecent + 1;
    }
  }

  /** How many rows of `n` have been walked when read `b` is made. */
  function RowsBefore(n: nat, batchSize: nat, b: nat): (c: nat)
    ensures c <= n
  {
    if b == 0 then 0
    else
      var c := RowsBefore(n, batchSize, b - 1);
      if batchSize < n - c then c + batchSize else n
  }

  /** What a read may find while workers write behind the walk: the same members, and the rows not
      walked yet as they were. */
  ghost predicate Unchanged(found: seq<Member>, table: seq<Member>, c: nat)
    requires c <= |table|
  {
    Sorted(found) && SameIds(found, table) && found[c..] == table[c..]
  }

  lemma FetchAtCursor(found: seq<Member>, table: seq<Member>, c: nat, lastID: nat, limit: nat)
    requires Sorted(table) && CursorAt(table, c, lastID) && Unchanged(found, table, c)
    ensures var batch := FetchBatch(found, lastID, limit);
            && |batch| == (if limit < |table| - c then limit else |table| - c)
            && batch == table[c..c + |batch|]
  {
    WhereIsSuffix(found, c, lastID);
    if limit < |table| - c {
      TakeOfDrop(table, c, limit);
    } else {
      TakeOfDrop(table, c, |table| - c);
    }
  }

  /** Which is what reads of the running pipeline do find. */
  lemma ReadsFindUnchanged(s: Scan)
    requires PipelineResults.Reachable(s) && s.producer.Fetching?
    ensures |s.seen| <= |s.start| && Unchanged(s.table, s.start, |s.seen|)
    ensures CursorAt(s.start, |s.seen|, s.lastID)
  {
    PipelineResults.ReachableInv(s);
  }

  /** One batch, row by row. */
  method WalkBatch(batch: seq<Member>, clock: seq<Time>, counters: ScanCounters, sent: seq<Member>, lastID: nat,
                   ghost table: seq<Member>, ghost c: nat)
    returns (out: seq<Member>, last: nat)
    requires |clock| == |table| && CursorAt(table, c, lastID) && c + |batch| <= |table|
    requires batch == table[c..c + |batch|]
    requires counters.After(table, clock[..c]) && sent == Kept(table, clock[..c])
    modifies counters
    ensures CursorAt(table, c + |batch|, last)
    ensures counters.After(table, clock[..c + |batch|]) && out == Kept(table, clock[..c + |batch|])
  {
    out, last := sent, lastID;
    var i := 0;
    while i < |batch|
      invariant i <= |batch| && CursorAt(table, c + i, last)
      invariant counters.After(table, clock[..c + i]) && out == Kept(table, clock[..c + i])
    {
      assert batch[i] == table[c + i];
      last := batch[i].id;
      out := FilterRow(batch[i], clock[counters.walked], counters, out, table, clock, c + i);
      i := i + 1;
    }
  }

  /** Where the walk stands after `c` rows. */
  ghost predicate WalkedTo(table: seq<Member>, clock: seq<Time>, c: nat, counters: ScanCounters, lastID: nat,
                           out: seq<Member>)
    requires |clock| == |table|
    reads counters
  {
    CursorAt(table, c, lastID) && counters.After(table, clock[..c]) && out == Kept(table, clock[..c])
  }

  /** One turn of the outer loop after a read that succeeded. */
  method WalkPage(page: seq<Member>, clock: seq<Time>, batchSize: nat, counters: ScanCounters, sent: seq<Member>,
                  lastID: nat, ghost table: seq<Member>, ghost c: nat)
    returns (out: seq<Member>, last: nat, ended: bool, ghost c': nat)
    requires Sorted(table) && |clock| == |table| && batchSize > 0 && c <= |table| && Unchanged(page, table, c)
    requires WalkedTo(table, clock, c, counters, lastID, sent)
    modifies counters
    ensures ended <==> c == |table|
    ensures c' == if batchSize < |table| - c then c + batchSize else |table|
    ensures WalkedTo(table, clock, c', counters, last, out)
  {
    var batch := FetchBatch(page, lastID, batchSize);
    FetchAtCursor(page, table, c, lastID, batchSize);
    out, last := WalkBatch(batch, clock, counters, sent, lastID, table, c);
    ended, c' := |batch| == 0, c + |batch|;
  }

  /** With the first rows walked at these readings: the rows sent are those among them that are due and on
      allowed servers, in order, and the two filter counters count the rest by reason. */
  ghost predicate Filtered(table: seq<Member>, clock: seq<Time>, out: seq<Member>, recent: nat, nonCN: nat)
    requires |clock| <= |table|
  {
    && (forall m <- out :: m in table[..|clock|])
    && (forall i, j :: 0 <= i < j < |out| ==> out[i].id < out[j].id)
    && (forall k :: 0 <= k < |clock| ==>
          (table[k] in out <==> IsCNServer(table[k].server) && Due(table[k], clock[k])))
    && recent == |set k | 0 <= k < |clock| && !Due(table[k], clock[k])|
    && nonCN == |set k | 0 <= k < |clock| && PipelineResults.Foreign(table[k], clock[k])|
  }

  lemma ReferenceIsFiltering(table: seq<Member>, clock: seq<Time>)
    requires Sorted(table) && |clock| <= |table|
    ensures Filtered(table, clock, Kept(table, clock), CountVerdict(table, clock, Recent),
                     CountVerdict(table, clock, NonCN))
    ensures CountVerdict(table, clock, Keep) == |Kept(table, clock)|
  {
    KeptInOrder(table, clock);
    PipelineResults.KeptExactly(table, clock);
    PipelineResults.LateAreCounted(table, clock);
    PipelineResults.ForeignAreCounted(table, clock);
    VerdictsAddUp(table, clock);
  }

  /** What the producer is given: `pages` are what its queries find, in order, while workers write behind
      the walk; a query may fail (None), and the last one is made when all rows have been walked. */
  ghost predicate Pages(pages: seq<Option<seq<Member>>>, clock: seq<Time>, batchSize: nat, table: seq<Member>) {
    && Sorted(table) && |clock| == |table| && batchSize > 0
    && (forall b :: 0 <= b < |pages| && pages[b].Some? ==>
          Unchanged(pages[b].value, table, RowsBefore(|table|, batchSize, b)))
    && pages != [] && RowsBefore(|table|, batchSize, |pages| - 1) == |table|
  }

  /** The outer loop. */
  method WalkPages(pages: seq<Option<seq<Member>>>, clock: seq<Time>, batchSize: nat, counters: ScanCounters,
                   ghost table: seq<Member>)
    returns (out: seq<Member>, complete: bool)
    requires Pages(pages, clock, batchSize, table) && counters.After(table, [])
    modifies counters
    ensures counters.walked <= |table| && counters.After(table, clock[..counters.walked])
    ensures out == Kept(table, clock[..counters.walked])
    ensures complete ==> counters.walked == |table|
    ensures !complete ==> exists b :: 0 <= b < |pages| && pages[b].None? &&
                                      counters.walked == RowsBefore(|table|, batchSize, b)
  {
    out := [];
    var lastID, b := 0, 0;
    ghost var c := 0;
    assert clock[..0] == [];
    while b < |pages|
      invariant b <= |pages| && c == RowsBefore(|table|, batchSize, b)
      invariant b == |pages| ==> RowsBefore(|table|, batchSize, b - 1) < |table|
      invariant WalkedTo(table, clock, c, counters, lastID, out)
    {
      if pages[b].None? {
        return out, false;
      }
      out, lastID, complete, c := WalkPage(pages[b].value, clock, batchSize, counters, out, lastID, table, c);
      if complete {
        return;
      }
      b := b + 1;
    }
    assert false;
  }

  /** For any table, any batch size and any clock reading per row: the batches visit the rows once each, in
      order, up to the first read that fails, and send and count exactly what one filtering pass over the
      table as it was keeps and counts. */
  method ProduceMembers(pages: seq<Option<seq<Member>>>, clock: seq<Time>, batchSize: nat, counters: ScanCounters,
                        ghost table: seq<Member>)
    returns (out: seq<Member>, complete: bool)
    requires Pages(pages, clock, batchSize, table) && counters.After(table, [])
    modifies counters
    ensures counters.walked <= |table| && out == Kept(table, clock[..counters.walked])
    ensures Filtered(table, clock[..counters.walked], out, counters.filteredRecent, counters.filteredNonCN)
    ensures counters.queued == |out| && counters.After(table, clock[..counters.walked])
    ensures complete ==> counters.walked == |table|
    ensures !complete ==> exists b :: 0 <= b < |pages| && pages[b].None? &&
                                      counters.walked == RowsBefore(|table|, batchSize, b)
  {
    out, complete := WalkPages(pages, clock, batchSize, counters, table);
    ReferenceIsFiltering(table, clock[..counters.walked]);
  }
}
