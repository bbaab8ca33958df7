/** What the scan pipeline guarantees: over every interleaving, and once a scan has ended. */
module PipelineResults {
  import opened Basics
  import opened CnWorlds
  import opened Pipeline
  import opened PipelineProofs

  /** A set of states that steps do not leave. */
  ghost predicate ClosedUnderSteps(states: iset<Scan>) {
    forall s, e :: s in states && Legal(s, e) ==> Next(s, e) in states
  }

  ghost predicate HasBoots(states: iset<Scan>) {
    forall table: seq<Member>, now: Time :: Sorted(table) ==> Boot(table, now) in states
  }

  /** In every such set that holds the states before the first scan. */
  ghost predicate Reachable(s: Scan) {
    forall states: iset<Scan> :: HasBoots(states) && ClosedUnderSteps(states) ==> s in states
  }

  lemma ReachNext(s: Scan, e: Step)
    requires Reachable(s) && Legal(s, e)
    ensures Reachable(Next(s, e))
  {
  }

  /** Every run goes through reachable states only. */
  lemma {:induction false} RunsReach(s: Scan, es: seq<Step>)
    requires Reachable(s) && LegalRun(s, es)
    ensures Reachable(Run(s, es))
    decreases |es|
  {
    if es != [] {
      ReachNext(s, es[0]);
      RunsReach(Next(s, es[0]), es[1..]);
    }
  }

  lemma ReachableInv(s: Scan)
    requires Reachable(s)
    ensures Inv(s)
  {
    var states := iset x: Scan | Inv(x);
    forall table: seq<Member>, now: Time | Sorted(table)
      ensures Boot(table, now) in states
    {
      InvAtBoot(table, now);
    }
    forall x, e | x in states && Legal(x, e)
      ensures Next(x, e) in states
    {
      InvNext(x, e);
    }
    assert HasBoots(states) && ClosedUnderSteps(states);
    assert s in states;
  }

  // ----- conservation

  /** At every interleaving every walked row but the one being classified has been counted under
      exactly one verdict, and the channel respects its bound. */
  lemma CountsAddUp(s: Scan)
    requires Reachable(s)
    ensures s.nonCN + s.recent + s.queued == s.walked - (if s.producer.Classifying? then 1 else 0)
    ensures |s.channel| <= QUEUE_SIZE
  {
    ReachableInv(s);
    VerdictsAddUp(s.seen, s.clock);
  }

  // ----- who is queued

  /** The reference keeps the rows on allowed servers that were not synced lately, each where it stands. */
  lemma {:induction false} KeptExactly(rows: seq<Member>, clock: seq<Time>)
    requires |clock| <= |rows| && forall i, j :: 0 <= i < j < |rows| ==> rows[i].id < rows[j].id
    ensures forall m <- Kept(rows, clock) :: IsCNServer(m.server)
    ensures forall k :: 0 <= k < |clock| ==>
              (rows[k] in Kept(rows, clock) <==> IsCNServer(rows[k].server) && Due(rows[k], clock[k]))
  {
    if clock != [] {
      var n := |clock| - 1;
      KeptExactly(rows, clock[..n]);
      KeptInOrder(rows, clock[..n]);
      assert forall m <- rows[..n] :: m.id < rows[n].id;
    }
  }

  /** And counts the others by the reason they are not kept, a late sync before a foreign server. */
  lemma {:induction false} LateAreCounted(rows: seq<Member>, clock: seq<Time>)
    requires |clock| <= |rows|
    ensures CountVerdict(rows, clock, Recent) == |set k | 0 <= k < |clock| && !Due(rows[k], clock[k])|
  {
    if clock != [] {
      var n := |clock| - 1;
      LateAreCounted(rows, clock[..n]);
      var front := set k | 0 <= k < n && !Due(rows[k], clock[..n][k]);
      var all := set k | 0 <= k < |clock| && !Due(rows[k], clock[k]);
      if !Due(rows[n], clock[n]) {
        assert n !in front && all == front + {n};
      } else {
        assert all == front;
      }
    }
  }

  /** Due, but on a server that is not allowed. */
  predicate Foreign(m: Member, now: Time) {
    Due(m, now) && !IsCNServer(m.server)
  }

  lemma {:induction false} ForeignAreCounted(rows: seq<Member>, clock: seq<Time>)
    requires |clock| <= |rows|
    ensures CountVerdict(rows, clock, NonCN) == |set k | 0 <= k < |clock| && Foreign(rows[k], clock[k])|
  {
    if clock != [] {
      var n := |clock| - 1;
      ForeignAreCounted(rows, clock[..n]);
      var front := set k | 0 <= k < n && Foreign(rows[k], clock[..n][k]);
      var all := set k | 0 <= k < |clock| && Foreign(rows[k], clock[k]);
      if Foreign(rows[n], clock[n]) {
        assert n !in front && all == front + {n};
      } else {
        assert all == front;
      }
    }
  }

  /** In every reachable state: only members on allowed servers are queued, so no other is handed to a
      worker; a row walked at reading `t` is queued exactly when its server is allowed and it has no sync
      time within the last day before `t`; and the two other counters count exactly the rows with such a
      sync time, and the remaining ones on servers that are not allowed. */
  lemma QueuedExactly(s: Scan)
    requires Reachable(s)
    ensures forall m <- s.kept + s.handed + s.channel :: IsCNServer(m.server)
    ensures |s.clock| <= |s.seen| && forall k :: 0 <= k < |s.clock| ==>
              (s.seen[k] in s.kept <==> IsCNServer(s.seen[k].server) && Due(s.seen[k], s.clock[k]))
    ensures s.recent == |set k | 0 <= k < |s.clock| && !Due(s.seen[k], s.clock[k])|
    ensures s.nonCN == |set k | 0 <= k < |s.clock| && Foreign(s.seen[k], s.clock[k])|
  {
    ReachableInv(s);
    KeptExactly(s.seen, s.clock);
    LateAreCounted(s.seen, s.clock);
    ForeignAreCounted(s.seen, s.clock);
  }

  // ----- the end of a scan

  /** When a scan has ended, every walked row is accounted for, and the workers have received the
      kept rows in order, each of them once: the queue loses and repeats nobody. */
  lemma ScanDrains(s: Scan)
    requires Reachable(s) && Over(s)
    ensures s.channel == [] && s.nonCN + s.recent + s.queued == s.walked
    ensures s.handed == s.kept && |s.handed| == s.queued
    ensures forall i, j :: 0 <= i < j < |s.handed| ==> s.handed[i].id < s.handed[j].id
  {
    ReachableInv(s);
    CountsAddUp(s);
    KeptWereSeen(s);
    if s.workers != [] {
      assert s.workers[0] in s.workers;
    }
  }

  /** When in addition no read failed, the batches amount to one ordered pass: every row of the table
      as the scan found it was walked once, in id order, and what was queued is what filtering
      that table row by row with the same clock readings keeps, whatever the batch sizes and
      whatever the workers wrote meanwhile. */
  lemma BatchesAreOnePass(s: Scan)
    requires Reachable(s) && s.producer == Closed(true)
    ensures s.seen == s.start && s.walked == |s.start| == |s.clock|
    ensures s.kept == Kept(s.start, s.clock) && s.queued == |s.kept|
    ensures s.nonCN == CountVerdict(s.start, s.clock, NonCN) && s.recent == CountVerdict(s.start, s.clock, Recent)
  {
    ReachableInv(s);
    assert s.start[..|s.seen|] == s.start;
  }

  lemma {:induction false} StaleAreKept(rows: seq<Member>, clock: seq<Time>, t0: Time)
    requires |clock| == |rows| && forall t <- clock :: t0 <= t
    ensures CountStale(rows, t0) <= |Kept(rows, clock)|
  {
    if rows != [] {
      var n := |rows| - 1;
      var front, m := rows[..n], rows[n];
      assert clock[n] in clock && forall t <- clock[..n] :: t in clock;
      StaleAreKept(front, clock[..n], t0);
      CountStaleSnoc(rows, t0);
      assert front + [m] == rows;
      ReferenceIgnoresLater(front, m, clock[..n]);
    }
  }

  lemma {:induction false} CountStaleSnoc(rows: seq<Member>, t0: Time)
    requires rows != []
    ensures var n := |rows| - 1;
            CountStale(rows, t0) == CountStale(rows[..n], t0) + if Stale(rows[n], t0) then 1 else 0
  {
    if |rows| > 1 {
      CountStaleSnoc(rows[1..], t0);
      assert rows[1..][..|rows| - 2] == rows[..|rows| - 1][1..];
    }
  }

  lemma {:induction false} StaleAreCounted(rows: seq<Member>, t0: Time)
    ensures CountStale(rows, t0) == |set i | 0 <= i < |rows| && Stale(rows[i], t0)|
  {
    if rows != [] {
      var n := |rows| - 1;
      StaleAreCounted(rows[..n], t0);
      CountStaleSnoc(rows, t0);
      var front := set i | 0 <= i < n && Stale(rows[..n][i], t0);
      var all := set i | 0 <= i < |rows| && Stale(rows[i], t0);
      if Stale(rows[n], t0) {
        assert n !in front && all == front + {n};
      } else {
        assert all == front;
      }
    }
  }

  lemma {:induction false} ExpectedStays(s: Scan, es: seq<Step>)
    requires LegalRun(s, es) && forall e <- es :: !e.NextScan?
    ensures Run(s, es).expected == s.expected
    decreases |es|
  {
    if es != [] {
      assert es[0] in es && forall e <- es[1..] :: e in es;
      ExpectedStays(Next(s, es[0]), es[1..]);
    }
  }

  /** All through a scan ExpectedQueued is the number of rows that were on allowed servers and without a
      sync time in the last day when the scan began, or 0 if that could not be counted. */
  lemma PrecountIsExact(s: Scan, n: nat, at: Time, counted: bool, es: seq<Step>)
    requires Legal(s, NextScan(n, at, counted))
    requires LegalRun(Next(s, NextScan(n, at, counted)), es) && forall e <- es :: !e.NextScan?
    ensures Run(Next(s, NextScan(n, at, counted)), es).expected ==
            if !counted then 0
            else |set i | 0 <= i < |s.table| && IsCNServer(s.table[i].server) &&
                          (s.table[i].synced.Some? ==> s.table[i].synced.value + RECENT_SYNC_SKIP < at)|
  {
    ExpectedStays(Next(s, NextScan(n, at, counted)), es);
    StaleAreCounted(s.table, at);
    assert (set i | 0 <= i < |s.table| && Stale(s.table[i], at)) ==
           set i | 0 <= i < |s.table| && IsCNServer(s.table[i].server) &&
                   (s.table[i].synced.Some? ==> s.table[i].synced.value + RECENT_SYNC_SKIP < at);
  }

  /** The precount never promises more than the scan delivers: when every read succeeds, each row it
      counted is queued, despite the later clock, the batches and the writes during the walk. */
  lemma ExpectedNeverExceedsQueued(s: Scan)
    requires Reachable(s) && s.producer == Closed(true)
    ensures s.expected <= s.queued
  {
    ReachableInv(s);
    BatchesAreOnePass(s);
    StaleAreKept(s.start, s.clock, s.t0);
  }

  // ----- over all scans

  /** Two sync times stored for the same member, in whatever scans, are at least RecentSyncSkip apart. */
  lemma SyncsAreSpaced(s: Scan, i: nat, j: nat)
    requires Reachable(s) && i < j < |s.log| && s.log[i].id == s.log[j].id
    ensures s.log[j].at >= s.log[i].at + RECENT_SYNC_SKIP
  {
    ReachableInv(s);
  }

  lemma {:induction false} LogGrows(s: Scan, es: seq<Step>)
    requires LegalRun(s, es)
    ensures |s.log| <= |Run(s, es).log| && Run(s, es).log[..|s.log|] == s.log
    decreases |es|
  {
    if es != [] {
      LogGrows(Next(s, es[0]), es[1..]);
    }
  }

  /** And a sync that the database took is there to stay: after every run from it the table has the member
      with that sync time or a later one, so that, by `QueuedExactly`, no scan queues the member again
      within a day of it. */
  lemma SyncsAreKept(s: Scan, w: nat, at: Time, es: seq<Step>)
    requires Reachable(s) && Legal(s, Mark(w, true, at)) && LegalRun(Next(s, Mark(w, true, at)), es)
    ensures exists m <- Run(Next(s, Mark(w, true, at)), es).table ::
              m.id == s.workers[w].m.id && m.synced.Some? && m.synced.value >= at
  {
    var s1 := Next(s, Mark(w, true, at));
    var end := Run(s1, es);
    ReachNext(s, Mark(w, true, at));
    RunsReach(s1, es);
    ReachableInv(end);
    LogGrows(s1, es);
    var stamp := Stamp(s.workers[w].m.id, at);
    assert end.log[|s.log|] == stamp;
    assert Shows(end.table, stamp);
  }

  // ----- progress

  /** A step of the scan under way in which no read fails. */
  predicate InScan(e: Step) {
    !e.NextScan? && !e.FetchFails?
  }

  /** Some step is possible: `w` is any worker that has not left. */
  function WorkerStep(s: Scan, w: nat): Step
    requires w < |s.workers|
  {
    if s.workers[w].Busy? then Finish(w) else if s.channel != [] then Receive(w) else Exit(w)
  }

  function ProducerStep(s: Scan): Step {
    match s.producer
    case Fetching => Fetch(1)
    case Walking(_) => Walk
    case Classifying(_, _) => Classify(s.now)
    case _ => Send
  }

  /** No reachable state is stuck: until the scan is over, some step of it is possible. */
  lemma NeverStuck(s: Scan)
    requires Reachable(s) && !Over(s)
    ensures exists e :: InScan(e) && Legal(s, e)
  {
    ReachableInv(s);
    if Legal(s, ProducerStep(s)) {
    } else if s.producer.Closed? {
      var w :| 0 <= w < |s.workers| && !s.workers[w].Exited?;
      assert Legal(s, WorkerStep(s, w));
    } else {
      assert s.workers != [] && s.workers[0] in s.workers;
      assert Legal(s, WorkerStep(s, 0));
    }
  }

  function ProducerWork(p: Producer): nat {
    match p
    case Fetching => 1
    case Walking(_) => 0
    case Classifying(_, _) => 6
    case Sending(_, _) => 5
    case Closed(_) => 0
  }

  function WorkerWork(w: Worker): nat {
    match w
    case Ready => 1
    case Busy(_, marked) => if marked then 2 else 3
    case Exited => 0
  }

  function WorkersWork(ws: seq<Worker>): nat {
    if ws == [] then 0 else WorkerWork(ws[0]) + WorkersWork(ws[1..])
  }

  lemma {:induction false} WorkAfterUpdate(ws: seq<Worker>, i: nat, w: Worker)
    requires i < |ws|
    ensures WorkersWork(ws[i := w]) == WorkersWork(ws) - WorkerWork(ws[i]) + WorkerWork(w)
  {
    if i == 0 {
      assert ws[i := w][1..] == ws[1..];
    } else {
      assert ws[i := w][1..] == ws[1..][i - 1 := w];
      WorkAfterUpdate(ws[1..], i - 1, w);
    }
  }

  lemma {:induction false} WorkOfReady(n: nat)
    ensures WorkersWork(seq(n, _ => Ready)) == n
  {
    if n != 0 {
      assert seq(n, _ => Ready)[1..] == seq(n - 1, _ => Ready);
      WorkOfReady(n - 1);
    }
  }

  /** A bound on the steps a scan has left. */
  function Work(s: Scan): int {
    8 * (|s.table| - |s.seen|) + ProducerWork(s.producer) + 3 * |s.channel| + WorkersWork(s.workers)
  }

  lemma EveryStepWorks(s: Scan, e: Step)
    requires WalkInv(s) && Legal(s, e) && !e.NextScan?
    ensures Work(Next(s, e)) < Work(s)
  {
    match e {
      case Receive(w) => WorkAfterUpdate(s.workers, w, Busy(s.channel[0], false));
      case Mark(w, _, _) => WorkAfterUpdate(s.workers, w, Busy(s.workers[w].m, true));
      case Finish(w) => WorkAfterUpdate(s.workers, w, Ready);
      case Exit(w) => WorkAfterUpdate(s.workers, w, Exited);
      case _ =>
    }
  }

  lemma {:induction false} RunsAreBounded(s: Scan, es: seq<Step>)
    requires Inv(s) && LegalRun(s, es) && forall e <- es :: !e.NextScan?
    ensures |es| <= Work(s)
    decreases |es|
  {
    if es != [] {
      assert es[0] in es && forall e <- es[1..] :: e in es;
      EveryStepWorks(s, es[0]);
      InvNext(s, es[0]);
      RunsAreBounded(Next(s, es[0]), es[1..]);
    }
  }

  /** Every scan ends: with `n` workers on a table of `r` rows it takes at most 8r + n + 1 steps, in
      whatever order they interleave and whatever fails. */
  lemma ScansEnd(s: Scan, n: nat, at: Time, counted: bool, es: seq<Step>)
    requires Reachable(s) && Legal(s, NextScan(n, at, counted))
    requires LegalRun(Next(s, NextScan(n, at, counted)), es) && forall e <- es :: !e.NextScan?
    ensures |es| <= 8 * |s.table| + n + 1
  {
    ReachableInv(s);
    var s1 := Next(s, NextScan(n, at, counted));
    InvNext(s, NextScan(n, at, counted));
    RunsAreBounded(s1, es);
    WorkOfReady(n);
  }
}
