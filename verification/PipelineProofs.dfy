/** What holds in every reachable state of the scan pipeline. */
module PipelineProofs {
  import opened Basics
  import opened Pipeline

  // ----- the invariant, part by part

  /** Rows the producer holds and has not walked yet. */
  function Unwalked(p: Producer): seq<Member> {
    match p
    case Walking(batch) => batch
    case Classifying(_, rest) => rest
    case Sending(_, rest) => rest
    case _ => []
  }

  /** The walk: the rows seen are the first rows of the table as the scan found it, the rows at
      hand are the next ones, and nothing ahead has been written since. */
  ghost predicate WalkInv(s: Scan) {
    WalkOk(s.producer, s.table, s.start, s.seen, s.lastID, s.walked, |s.clock|)
  }

  ghost predicate WalkOk(p: Producer, table: seq<Member>, start: seq<Member>, seen: seq<Member>,
                         lastID: nat, walked: nat, readings: nat) {
    var c := |seen|;
    var ahead := Unwalked(p);
    && Sorted(table) && SameIds(table, start)
    && walked == c && c + |ahead| <= |table|
    && seen == start[..c] && table[c..] == start[c..]
    && lastID == (if c == 0 then 0 else start[c - 1].id)
    && ahead == start[c..c + |ahead|]
    && (p.Walking? ==> ahead != [])
    && (p.Classifying? ==> c > 0 && p.m == table[c - 1] == start[c - 1])
    && (p.Sending? ==> c > 0)
    && readings == (if p.Classifying? then c - 1 else c)
    && (p == Closed(true) ==> c == |table|)
  }

  ghost predicate SameIds(rows: seq<Member>, others: seq<Member>) {
    |rows| == |others| && forall i :: 0 <= i < |rows| ==> rows[i].id == others[i].id
  }

  /** The counters and the kept rows are those of the one-pass reference so far. */
  ghost predicate CountInv(s: Scan) {
    && |s.clock| <= |s.seen|
    && s.kept == Kept(s.seen, s.clock)
    && s.queued == |s.kept|
    && s.nonCN == CountVerdict(s.seen, s.clock, NonCN)
    && s.recent == CountVerdict(s.seen, s.clock, Recent)
  }

  function InHand(p: Producer): seq<Member> {
    if p.Sending? then [p.m] else []
  }

  /** Every kept row has been handed out, or waits in the channel, or is about to be sent. */
  ghost predicate QueueInv(s: Scan) {
    && s.kept == s.handed + s.channel + InHand(s.producer)
    && |s.channel| <= QUEUE_SIZE
    && ((exists w <- s.workers :: w.Exited?) || s.workers == [] ==> s.producer.Closed? && s.channel == [])
  }

  /** Old enough, by its own value, to be synced now. */
  predicate Due(m: Member, now: Time) {
    m.synced.None? || now - m.synced.value >= RECENT_SYNC_SKIP
  }

  /** Rows still are what the table holds, and are due. */
  ghost predicate Fresh(table: seq<Member>, now: Time, rows: seq<Member>) {
    forall m <- rows :: m in table && Due(m, now)
  }

  /** So are the members of workers that have not marked them yet. */
  ghost predicate FreshJobs(table: seq<Member>, now: Time, workers: seq<Worker>) {
    forall w :: 0 <= w < |workers| && workers[w].Busy? && !workers[w].marked ==>
                  workers[w].m in table && Due(workers[w].m, now)
  }

  /** Workers are busy with different members, all of them handed out. */
  ghost predicate OwnJobs(workers: seq<Worker>, handed: seq<Member>) {
    && (forall w :: 0 <= w < |workers| && workers[w].Busy? ==> workers[w].m in handed)
    && (forall v, w :: 0 <= v < w < |workers| && workers[v].Busy? && workers[w].Busy? ==>
          workers[v].m.id != workers[w].m.id)
  }

  ghost predicate JobInv(s: Scan) {
    && OwnJobs(s.workers, s.handed)
    && FreshJobs(s.table, s.now, s.workers)
    && Fresh(s.table, s.now, s.channel)
    && Fresh(s.table, s.now, InHand(s.producer))
  }

  /** The table has that member with that sync time or a later one. */
  ghost predicate Shows(rows: seq<Member>, e: Stamp) {
    exists m <- rows :: m.id == e.id && m.synced.Some? && e.at <= m.synced.value
  }

  /** Stored sync times of one member are spaced, and the table holds the latest. */
  ghost predicate LogInv(s: Scan) {
    && (forall e <- s.log :: Shows(s.table, e))
    && (forall i, j :: 0 <= i < j < |s.log| && s.log[i].id == s.log[j].id ==>
          s.log[j].at - s.log[i].at >= RECENT_SYNC_SKIP)
  }

  /** The precount was made on the scan's first table, and every later reading is not before it. */
  ghost predicate ExpectInv(s: Scan) {
    && s.t0 <= s.now
    && (forall t <- s.clock :: s.t0 <= t)
    && s.expected <= CountStale(s.start, s.t0)
  }

  ghost predicate Inv(s: Scan) {
    WalkInv(s) && CountInv(s) && QueueInv(s) && JobInv(s) && LogInv(s) && ExpectInv(s)
  }

  // ----- facts about the query and the reference pass

  /** In a sorted table the rows after the cursor are a suffix. */
  lemma {:induction false} WhereIsSuffix(rows: seq<Member>, c: nat, lastID: nat)
    requires c <= |rows|
    requires forall i :: 0 <= i < c ==> rows[i].id <= lastID
    requires forall i :: c <= i < |rows| ==> rows[i].id > lastID
    ensures Where(rows, lastID) == rows[c..]
  {
    if rows != [] {
      if c == 0 {
        WhereIsSuffix(rows[1..], 0, lastID);
        assert [rows[0]] + rows[1..] == rows;
      } else {
        WhereIsSuffix(rows[1..], c - 1, lastID);
        assert rows[1..][c - 1..] == rows[c..];
      }
    }
  }

  lemma FetchIsNextRows(s: Scan, limit: nat)
    requires WalkInv(s)
    ensures var c := |s.seen|;
            var batch := FetchBatch(s.table, s.lastID, limit);
            && |batch| == (if limit < |s.table| - c then limit else |s.table| - c)
            && batch == s.start[c..c + |batch|]
  {
    var c := |s.seen|;
    WhereIsSuffix(s.table, c, s.lastID);
    if limit < |s.table| - c {
      TakeOfDrop(s.start, c, limit);
    } else {
      TakeOfDrop(s.start, c, |s.start| - c);
    }
  }

  lemma {:induction false} ReferenceIgnoresLater(rows: seq<Member>, m: Member, clock: seq<Time>)
    requires |clock| <= |rows|
    ensures Kept(rows + [m], clock) == Kept(rows, clock)
    ensures forall v :: CountVerdict(rows + [m], clock, v) == CountVerdict(rows, clock, v)
  {
    if clock != [] {
      ReferenceIgnoresLater(rows, m, clock[..|clock| - 1]);
    }
  }

  lemma ReferenceStep(rows: seq<Member>, clock: seq<Time>, at: Time)
    requires |clock| < |rows|
    ensures var v := FilterReason(rows[|clock|], at);
            && Kept(rows, clock + [at]) == Kept(rows, clock) + (if v.Keep? then [rows[|clock|]] else [])
            && forall u :: CountVerdict(rows, clock + [at], u) == CountVerdict(rows, clock, u) + if v == u then 1 else 0
  {
    assert (clock + [at])[..|clock|] == clock;
  }

  /** Every reading gives exactly one verdict, and the kept rows are those with verdict Keep. */
  lemma {:induction false} VerdictsAddUp(rows: seq<Member>, clock: seq<Time>)
    requires |clock| <= |rows|
    ensures |Kept(rows, clock)| == CountVerdict(rows, clock, Keep)
    ensures CountVerdict(rows, clock, Keep) + CountVerdict(rows, clock, NonCN) + CountVerdict(rows, clock, Recent) ==
            |clock|
  {
    if clock != [] {
      VerdictsAddUp(rows, clock[..|clock| - 1]);
    }
  }

  /** The kept rows are rows of the pass, in its order. */
  lemma {:induction false} KeptInOrder(rows: seq<Member>, clock: seq<Time>)
    requires |clock| <= |rows|
    requires forall i, j :: 0 <= i < j < |rows| ==> rows[i].id < rows[j].id
    ensures forall m <- Kept(rows, clock) :: m in rows[..|clock|]
    ensures forall i, j :: 0 <= i < j < |Kept(rows, clock)| ==> Kept(rows, clock)[i].id < Kept(rows, clock)[j].id
  {
    if clock != [] {
      var n := |clock| - 1;
      KeptInOrder(rows, clock[..n]);
      var front := Kept(rows, clock[..n]);
      assert forall m <- rows[..n] :: m in rows[..n + 1] && m.id < rows[n].id;
      assert rows[n] == rows[..n + 1][n];
      assert forall i :: 0 <= i < |front| ==> front[i] in front;
    }
  }

  /** Every kept row is a row of the walked part of the table. */
  lemma KeptWereSeen(s: Scan)
    requires WalkInv(s) && CountInv(s)
    ensures forall m <- s.kept :: exists k :: 0 <= k < |s.clock| && s.start[k] == m
    ensures forall i, j :: 0 <= i < j < |s.kept| ==> s.kept[i].id < s.kept[j].id
  {
    KeptInOrder(s.seen, s.clock);
    forall m <- s.kept
      ensures exists k :: 0 <= k < |s.clock| && s.start[k] == m
    {
      var k :| 0 <= k < |s.clock| && s.seen[..|s.clock|][k] == m;
      assert s.start[k] == m;
    }
  }

  /** So it comes before every row still ahead, and before one that is being classified. */
  lemma KeptAreBehind(s: Scan)
    requires WalkInv(s) && CountInv(s)
    ensures forall m <- s.kept, i :: |s.seen| <= i < |s.table| ==> m.id < s.table[i].id
    ensures s.producer.Classifying? ==> forall m <- s.kept :: m.id < s.producer.m.id
  {
    KeptWereSeen(s);
  }

  /** Rows in different places of the queue are different members. */
  lemma PlacesAreDistinct(s: Scan)
    requires WalkInv(s) && CountInv(s) && QueueInv(s)
    ensures forall m <- s.handed :: m in s.kept
    ensures forall m <- s.handed, x <- s.channel :: m.id < x.id
    ensures forall m <- s.handed, x <- InHand(s.producer) :: m.id < x.id
  {
    KeptWereSeen(s);
    var kept, h := s.kept, |s.handed|;
    assert forall i :: 0 <= i < h ==> kept[i] == s.handed[i];
    assert forall i :: 0 <= i < |s.channel| ==> kept[h + i] == s.channel[i];
    assert forall x <- InHand(s.producer) :: kept[h + |s.channel|] == x;
  }

  // ----- the walk

  lemma WalkAfterFetch(s: Scan, limit: nat)
    requires WalkInv(s) && Legal(s, Fetch(limit))
    ensures WalkInv(Next(s, Fetch(limit)))
  {
    FetchIsNextRows(s, limit);
  }

  lemma WalkAfterWalk(s: Scan)
    requires WalkInv(s) && Legal(s, Walk)
    ensures WalkInv(Next(s, Walk))
  {
    var c, batch := |s.seen|, s.producer.batch;
    assert batch[0] == s.start[c] == s.start[c..][0] == s.table[c..][0] == s.table[c];
    assert batch[1..] == s.start[c + 1..c + |batch|];
    assert s.table[c + 1..] == s.table[c..][1..] && s.start[c + 1..] == s.start[c..][1..];
  }

  /** Any producer holding the same rows ahead may follow the classification of a row. */
  lemma WalkOnward(p: Producer, p': Producer, table: seq<Member>, start: seq<Member>, seen: seq<Member>,
                   lastID: nat, walked: nat, readings: nat)
    requires WalkOk(p, table, start, seen, lastID, walked, readings) && p.Classifying?
    requires p' == Onward(p.rest) || p' == Sending(p.m, p.rest)
    ensures WalkOk(p', table, start, seen, lastID, walked, readings + 1)
  {
  }

  lemma WalkAfterClassify(s: Scan, at: Time)
    requires WalkInv(s) && Legal(s, Classify(at))
    ensures WalkInv(Next(s, Classify(at)))
  {
    WalkOnward(s.producer, Next(s, Classify(at)).producer, s.table, s.start, s.seen, s.lastID, s.walked, |s.clock|);
  }

  lemma StoreElsewhere(rows: seq<Member>, id: nat, at: Time, c: nat)
    requires c <= |rows| && forall i :: c <= i < |rows| ==> rows[i].id != id
    ensures StoreSync(rows, id, at)[c..] == rows[c..]
  {
  }

  /** A write of logs_sync_time touches no row that is still ahead. */
  lemma StoreIsBehind(s: Scan, m: Member, at: Time)
    requires WalkInv(s) && CountInv(s) && QueueInv(s) && m in s.handed
    ensures var t := StoreSync(s.table, m.id, at);
            && t[|s.seen|..] == s.table[|s.seen|..]
            && (s.producer.Classifying? ==> t[|s.seen| - 1] == s.table[|s.seen| - 1])
  {
    assert m in s.kept;
    KeptAreBehind(s);
    StoreElsewhere(s.table, m.id, at, |s.seen|);
  }

  /** The walk only depends on the ids of the table and on the rows still ahead. */
  lemma WalkOnNewTable(p: Producer, table: seq<Member>, t: seq<Member>, start: seq<Member>, seen: seq<Member>,
                       lastID: nat, walked: nat, readings: nat)
    requires WalkOk(p, table, start, seen, lastID, walked, readings) && SameIds(t, table)
    requires t[|seen|..] == table[|seen|..]
    requires p.Classifying? ==> t[|seen| - 1] == table[|seen| - 1]
    ensures WalkOk(p, t, start, seen, lastID, walked, readings)
  {
  }

  lemma WalkAfterMark(s: Scan, w: nat, ok: bool, at: Time)
    requires WalkInv(s) && CountInv(s) && QueueInv(s) && JobInv(s) && Legal(s, Mark(w, ok, at))
    ensures WalkInv(Next(s, Mark(w, ok, at)))
  {
    if ok {
      var m := s.workers[w].m;
      StoreIsBehind(s, m, at);
      WalkOnNewTable(s.producer, s.table, StoreSync(s.table, m.id, at), s.start, s.seen, s.lastID, s.walked, |s.clock|);
    }
  }

  lemma WalkStays(s: Scan, e: Step)
    requires WalkInv(s) && CountInv(s) && QueueInv(s) && JobInv(s) && Legal(s, e)
    ensures WalkInv(Next(s, e))
  {
    match e {
      case Fetch(limit) => WalkAfterFetch(s, limit);
      case Walk => WalkAfterWalk(s);
      case Classify(at) => WalkAfterClassify(s, at);
      case Mark(w, ok, at) => WalkAfterMark(s, w, ok, at);
      case _ =>
    }
  }

  // ----- the counters

  lemma CountAfterWalk(s: Scan)
    requires CountInv(s) && Legal(s, Walk)
    ensures CountInv(Next(s, Walk))
  {
    ReferenceIgnoresLater(s.seen, s.producer.batch[0], s.clock);
  }

  lemma CountAfterClassify(s: Scan, at: Time)
    requires CountInv(s) && |s.clock| < |s.seen| && s.producer.Classifying? && s.producer.m == s.seen[|s.clock|]
    requires Legal(s, Classify(at))
    ensures CountInv(Next(s, Classify(at)))
  {
    ReferenceStep(s.seen, s.clock, at);
  }

  /** The row being classified is the last one seen. */
  lemma ClassifiedIsLast(s: Scan)
    requires WalkInv(s) && s.producer.Classifying?
    ensures |s.clock| == |s.seen| - 1 && s.producer.m == s.seen[|s.clock|]
  {
  }

  lemma CountStays(s: Scan, e: Step)
    requires WalkInv(s) && CountInv(s) && Legal(s, e)
    ensures CountInv(Next(s, e))
  {
    match e {
      case Walk => CountAfterWalk(s);
      case Classify(at) =>
        ClassifiedIsLast(s);
        CountAfterClassify(s, at);
      case _ =>
    }
  }

  // ----- the queue

  lemma QueueAfterSend(s: Scan)
    requires QueueInv(s) && Legal(s, Send)
    ensures QueueInv(Next(s, Send))
  {
  }

  lemma QueueAfterReceive(s: Scan, w: nat)
    requires QueueInv(s) && Legal(s, Receive(w))
    ensures QueueInv(Next(s, Receive(w)))
  {
    assert s.channel == [s.channel[0]] + s.channel[1..];
    assert forall v <- s.workers :: !v.Exited?;
  }

  lemma QueueAfterProducer(s: Scan, e: Step)
    requires QueueInv(s) && Legal(s, e) && (e.Fetch? || e.FetchFails? || e.Walk? || e.Classify?)
    ensures QueueInv(Next(s, e))
  {
  }

  lemma QueueStays(s: Scan, e: Step)
    requires QueueInv(s) && Legal(s, e)
    ensures QueueInv(Next(s, e))
  {
    match e {
      case Send => QueueAfterSend(s);
      case Receive(w) => QueueAfterReceive(s, w);
      case NextScan(n, _, _) => assert seq(n, _ => Ready)[0] == Ready;
      case Mark(_, _, _) =>
      case Finish(_) =>
      case Exit(_) =>
      case _ => QueueAfterProducer(s, e);
    }
  }

  // ----- the precount

  lemma ExpectStays(s: Scan, e: Step)
    requires ExpectInv(s) && Legal(s, e)
    ensures ExpectInv(Next(s, e))
  {
  }

  // ----- the jobs

  lemma JobsAfterClassify(s: Scan, at: Time)
    requires WalkInv(s) && JobInv(s) && Legal(s, Classify(at))
    ensures JobInv(Next(s, Classify(at)))
  {
  }

  lemma JobsAfterSend(s: Scan)
    requires JobInv(s) && Legal(s, Send)
    ensures JobInv(Next(s, Send))
  {
    assert s.producer.m in InHand(s.producer);
  }

  lemma JobsAfterReceive(s: Scan, w: nat)
    requires WalkInv(s) && CountInv(s) && QueueInv(s) && JobInv(s) && Legal(s, Receive(w))
    ensures JobInv(Next(s, Receive(w)))
  {
    PlacesAreDistinct(s);
    assert s.channel[0] in s.channel && forall m <- s.channel[1..] :: m in s.channel;
  }

  /** Other members' rows survive a write. */
  lemma StoreKeepsOthers(rows: seq<Member>, id: nat, at: Time)
    ensures forall m <- rows :: m.id != id ==> m in StoreSync(rows, id, at)
  {
    forall m <- rows | m.id != id
      ensures m in StoreSync(rows, id, at)
    {
      var i :| 0 <= i < |rows| && rows[i] == m;
      assert StoreSync(rows, id, at)[i] == m;
    }
  }

  lemma FreshAfterStore(rows: seq<Member>, now: Time, xs: seq<Member>, id: nat, at: Time)
    requires Fresh(rows, now, xs) && now <= at && forall x <- xs :: x.id != id
    ensures Fresh(StoreSync(rows, id, at), at, xs)
  {
    StoreKeepsOthers(rows, id, at);
  }

  lemma JobsAfterStore(rows: seq<Member>, now: Time, ws: seq<Worker>, handed: seq<Member>, w: nat, at: Time)
    requires OwnJobs(ws, handed) && FreshJobs(rows, now, ws) && now <= at && w < |ws| && ws[w].Busy?
    ensures OwnJobs(ws[w := Busy(ws[w].m, true)], handed)
    ensures FreshJobs(rows, at, ws[w := Busy(ws[w].m, true)])
    ensures FreshJobs(StoreSync(rows, ws[w].m.id, at), at, ws[w := Busy(ws[w].m, true)])
  {
    StoreKeepsOthers(rows, ws[w].m.id, at);
  }

  lemma JobsAfterMark(s: Scan, w: nat, ok: bool, at: Time)
    requires WalkInv(s) && CountInv(s) && QueueInv(s) && JobInv(s) && Legal(s, Mark(w, ok, at))
    ensures JobInv(Next(s, Mark(w, ok, at)))
  {
    var m := s.workers[w].m;
    JobsAfterStore(s.table, s.now, s.workers, s.handed, w, at);
    if ok {
      assert m in s.handed;
      PlacesAreDistinct(s);
      FreshAfterStore(s.table, s.now, s.channel, m.id, at);
      FreshAfterStore(s.table, s.now, InHand(s.producer), m.id, at);
    }
  }

  lemma JobsAfterLeaving(s: Scan, e: Step)
    requires JobInv(s) && Legal(s, e) && (e.Finish? || e.Exit?)
    ensures JobInv(Next(s, e))
  {
  }

  lemma JobsStay(s: Scan, e: Step)
    requires WalkInv(s) && CountInv(s) && QueueInv(s) && JobInv(s) && Legal(s, e)
    ensures JobInv(Next(s, e))
  {
    match e {
      case Classify(at) => JobsAfterClassify(s, at);
      case Send => JobsAfterSend(s);
      case Receive(w) => JobsAfterReceive(s, w);
      case Mark(w, ok, at) => JobsAfterMark(s, w, ok, at);
      case Finish(w) => JobsAfterLeaving(s, e);
      case Exit(w) => JobsAfterLeaving(s, e);
      case _ =>
    }
  }

  // ----- the log

  /** Everything logged for a due row of the table is old enough. */
  lemma LoggedLongAgo(s: Scan, m: Member, at: Time)
    requires Sorted(s.table) && LogInv(s) && m in s.table && Due(m, s.now) && s.now <= at
    ensures forall e <- s.log :: e.id == m.id ==> at - e.at >= RECENT_SYNC_SKIP
  {
    forall e <- s.log | e.id == m.id
      ensures at - e.at >= RECENT_SYNC_SKIP
    {
      var x :| x in s.table && x.id == e.id && x.synced.Some? && e.at <= x.synced.value;
      var i :| 0 <= i < |s.table| && s.table[i] == m;
      var j :| 0 <= j < |s.table| && s.table[j] == x;
      assert i == j;
    }
  }

  /** After a write the table shows that stamp, and still every stamp it showed. */
  lemma StoreShows(rows: seq<Member>, m: Member, at: Time)
    requires m in rows
    ensures Shows(StoreSync(rows, m.id, at), Stamp(m.id, at))
    ensures forall e: Stamp :: Shows(rows, e) && (e.id == m.id ==> e.at <= at) ==> Shows(StoreSync(rows, m.id, at), e)
  {
    var t := StoreSync(rows, m.id, at);
    StoreKeepsOthers(rows, m.id, at);
    var i :| 0 <= i < |rows| && rows[i] == m;
    assert t[i] == m.(synced := Some(at)) && t[i] in t;
  }

  /** A successful write: the row it replaces was old enough, and so was everything logged for it. */
  lemma LogAfterMark(s: Scan, w: nat, at: Time)
    requires Sorted(s.table) && JobInv(s) && LogInv(s) && Legal(s, Mark(w, true, at))
    ensures LogInv(Next(s, Mark(w, true, at)))
  {
    var m := s.workers[w].m;
    LoggedLongAgo(s, m, at);
    StoreShows(s.table, m, at);
    assert forall k :: 0 <= k < |s.log| ==> s.log[k] in s.log;
  }

  lemma LogStays(s: Scan, e: Step)
    requires Sorted(s.table) && JobInv(s) && LogInv(s) && Legal(s, e)
    ensures LogInv(Next(s, e))
  {
    if e.Mark? && e.ok {
      LogAfterMark(s, e.w, e.at);
    }
  }

  // ----- every run

  lemma InvAtBoot(table: seq<Member>, now: Time)
    requires Sorted(table)
    ensures Inv(Boot(table, now))
  {
  }

  lemma InvNext(s: Scan, e: Step)
    requires Inv(s) && Legal(s, e)
    ensures Inv(Next(s, e))
  {
    WalkStays(s, e);
    CountStays(s, e);
    QueueStays(s, e);
    JobsStay(s, e);
    LogStays(s, e);
    ExpectStays(s, e);
  }
}
