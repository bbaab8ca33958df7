/** The program as one state: the scan pipeline, the leases, the status and the desk of members move
    together, and each worker is at one point of its member. What that adds to each taken alone. */
module WholeScan {
  import opened Basics
  import opened MemberModel
  import D = ScanDesk
  import L = LeaseLedger
  import M = MemberSync
  import P = Pipeline
  import PipelineProofs
  import PipelineResults
  import PoolRuns
  import PoolSpec
  import Status

  /** `desk` is about the scan under way or last finished; `before` is how many sync times had been
      stored when it began. */
  datatype System = System(scan: P.Scan, office: L.Office, program: Status.Program, desk: D.Desk, before: nat)

  /** `GiveUp` is the member's deadline passing during a sleep. `Lease` is a query under a lease, the
      end of one, or the pool's maintenance. `Store` is the write of logs_sync_time, `Depart` the worker
      going back for the next member. */
  datatype Step =
    | Announce(at: Time)
    | Abort
    | Begin(counted: bool, at: Time)
    | Produce(e: P.Step)
    | Receive(w: nat)
    | Attempt(w: nat, at: Time)
    | GiveUp(w: nat)
    | Lease(m: L.Move)
    | Store(w: nat, ok: bool, at: Time)
    | Depart(w: nat)
    | Exit(w: nat)
    | Join
    | Rest(at: Time, next: Time)

  // ----- what a step is to each of the four

  function OfPipeline(y: System, s: Step): Option<P.Step> {
    match s
    case Begin(counted, at) => Some(P.NextScan(|y.desk.jobs|, at, counted))
    case Produce(e) => Some(e)
    case Receive(w) => Some(P.Receive(w))
    case Store(w, ok, at) => Some(P.Mark(w, ok, at))
    case Depart(w) => Some(P.Finish(w))
    case Exit(w) => Some(P.Exit(w))
    case _ => None
  }

  function OfLedger(s: Step): Option<L.Move> {
    match s
    case Attempt(w, at) => Some(L.TryAcquire(w, at))
    case Lease(m) => Some(m)
    case _ => None
  }

  function Answer(y: System, at: Time): PoolSpec.Outcome {
    PoolSpec.AcquireOutcome(y.office.pool.keys, at)
  }

  function OfStatus(y: System, s: Step): Option<Status.Step> {
    match s
    case Announce(at) => Some(Status.Announce(at))
    case Abort => Some(Status.Abort)
    case Begin(_, _) => Some(Status.StartWorkers(|y.desk.jobs|))
    case Receive(w) => Some(Status.Enter(w))
    case Attempt(w, at) =>
      Some(if Answer(y, at).Exhausted? then Status.Exhausted(w, Answer(y, at).retryAt) else Status.Leave(w))
    case GiveUp(w) => Some(Status.Leave(w))
    case Join => Some(Status.Join)
    case Rest(at, next) => Some(Status.Rest(at, next))
    case _ => None
  }

  function OfDesk(y: System, s: Step): D.Event {
    match s
    case Begin(_, _) => D.Clear(|y.desk.jobs|)
    case Receive(w) => if y.scan.channel == [] then D.Nothing else D.Take(w, y.scan.channel[0])
    case Attempt(w, at) =>
      (match Answer(y, at)
       case Granted(_) => D.Grant(w)
       case NoKey => D.Close(w, KeyLess)
       case Exhausted(_) => D.Nothing)
    case GiveUp(w) => D.Close(w, KeyLess)
    case Lease(m) =>
      (match m
       case BaseQuery(w, points, _) => D.Pay(w, points, points)
       case FightDetail(w, points, _) => D.Pay(w, points, L.DETAIL_POINTS)
       case Finish(w, _) => D.Close(w, Synced)
       case FailLease(w, _, _) => D.Close(w, Failure)
       case NoCharacter(w, _) => D.Close(w, NoCharacter)
       case Panic(w, _) => D.Close(w, Panicked)
       case _ => D.Nothing)
    case Store(w, ok, at) => if ok then D.Store(w, at) else D.Nothing
    case Depart(w) => D.Leave(w)
    case _ => D.Nothing
  }

  predicate ByProducer(e: P.Step) {
    e.Fetch? || e.FetchFails? || e.Walk? || e.Classify? || e.Send?
  }

  predicate InTime(y: System, at: Time) {
    y.scan.now <= at && y.office.pool.now <= at
  }

  /** Worker `w` has a member in hand, with a lease or without. */
  predicate Holds(y: System, w: nat, leased: bool) {
    w < |y.desk.jobs| && y.desk.jobs[w].Open? && y.desk.jobs[w].leased == leased
  }

  predicate Legal(y: System, s: Step) {
    && (OfPipeline(y, s).Some? ==> P.Legal(y.scan, OfPipeline(y, s).value))
    && (OfLedger(s).Some? ==> L.Legal(y.office, OfLedger(s).value))
    && (OfStatus(y, s).Some? ==> Status.Legal(y.program, OfStatus(y, s).value))
    && match s
       case Begin(_, at) => InTime(y, at)
       case Produce(e) => ByProducer(e) && (e.Classify? ==> InTime(y, e.at))
       case Attempt(w, at) => Holds(y, w, false) && InTime(y, at)
       case GiveUp(w) => Holds(y, w, false) && y.program.phase.workers[w].Blocked?
       case Lease(m) => !m.TryAcquire? && InTime(y, m.at) && (L.ByHolder(m) ==> Holds(y, m.w, true))
       case Store(w, _, at) =>
         w < |y.desk.jobs| && y.desk.jobs[w].Done? && CountsAsSynced(y.desk.jobs[w].end) && InTime(y, at)
       case Depart(w) => w < |y.desk.jobs| && y.desk.jobs[w].Done?
       case Join => P.Over(y.scan)
       case _ => true
  }

  function ScanMoved(y: System, s: Step): P.Scan
    requires Legal(y, s)
  {
    if OfPipeline(y, s).Some? then P.Next(y.scan, OfPipeline(y, s).value) else y.scan
  }

  function OfficeMoved(y: System, s: Step): L.Office
    requires Legal(y, s)
  {
    if OfLedger(s).Some? then L.Next(y.office, OfLedger(s).value) else y.office
  }

  function ProgramMoved(y: System, s: Step): Status.Program
    requires Legal(y, s)
  {
    if OfStatus(y, s).Some? then Status.Next(y.program, OfStatus(y, s).value) else y.program
  }

  /** In every reachable state the desk is ready for what happens to it (`DeskReady`). */
  function DeskMoved(y: System, s: Step): D.Desk {
    if D.Legal(y.desk, OfDesk(y, s)) then D.Next(y.desk, OfDesk(y, s)) else y.desk
  }

  function Next(y: System, s: Step): System
    requires Legal(y, s)
  {
    System(ScanMoved(y, s), OfficeMoved(y, s), ProgramMoved(y, s), DeskMoved(y, s),
           if s.Begin? then |y.scan.log| else y.before)
  }

  predicate LegalRun(y: System, ss: seq<Step>)
    decreases |ss|
  {
    ss == [] || (Legal(y, ss[0]) && LegalRun(Next(y, ss[0]), ss[1..]))
  }

  function Run(y: System, ss: seq<Step>): System
    requires LegalRun(y, ss)
    decreases |ss|
  {
    if ss == [] then y else Run(Next(y, ss[0]), ss[1..])
  }

  /** After start-up, with `n` workers to come. */
  function Boot(table: seq<P.Member>, u: PoolRuns.StartUp, t0: Time, n: nat, ends: seq<Time>): System
    requires |u.first| == |u.second| == |u.ids| && |ends| == |u.Keys()|
  {
    System(P.Boot(table, t0), L.Opened(u, t0, n, ends), Status.Program(Status.INITIAL, Status.Resting),
           D.Desk(seq(n, _ => D.Free), [], [], 0, 0.0, []), 0)
  }

  /** A set of states that steps do not leave. */
  ghost predicate Closed(states: iset<System>) {
    forall y, s :: y in states && Legal(y, s) ==> Next(y, s) in states
  }

  ghost predicate HasBoots(states: iset<System>, n: nat) {
    forall table: seq<P.Member>, u: PoolRuns.StartUp, t0: Time, ends: seq<Time> ::
      P.Sorted(table) && L.StartsOk(u, t0) && |ends| == |u.Keys()| ==> Boot(table, u, t0, n, ends) in states
  }

  /** In every such set that holds the states after start-up with `n` workers. */
  ghost predicate Reachable(y: System, n: nat) {
    forall states: iset<System> :: HasBoots(states, n) && Closed(states) ==> y in states
  }

  lemma ReachNext(y: System, n: nat, s: Step)
    requires Reachable(y, n) && Legal(y, s)
    ensures Reachable(Next(y, s), n)
  {
  }

  /** Every run goes through reachable states only. */
  lemma {:induction false} RunsReach(y: System, n: nat, ss: seq<Step>)
    requires Reachable(y, n) && LegalRun(y, ss)
    ensures Reachable(Run(y, ss), n)
    decreases |ss|
  {
    if ss != [] {
      ReachNext(y, n, ss[0]);
      RunsReach(Next(y, ss[0]), n, ss[1..]);
    }
  }

  // ----- one worker, seen by all four

  predicate AlignedAt(j: D.Job, sw: P.Worker, lw: L.Worker, tw: Status.Worker) {
    match j
    case Free => !sw.Busy? && lw.Idle? && tw.Elsewhere?
    case Open(m, leased, most) =>
      if leased
      then sw == P.Busy(m, false) && lw.Holding? && tw.Elsewhere? &&
           most == lw.base + L.DETAIL_POINTS * lw.calls as real
      else sw == P.Busy(m, false) && lw.Idle? && !tw.Elsewhere? && most == 0.0
    case Done(m, end) => sw.Busy? && sw.m == m && lw.Idle? && tw.Elsewhere? && (sw.marked ==> CountsAsSynced(end))
  }

  predicate AlignedAll(jobs: seq<D.Job>, sws: seq<P.Worker>, lws: seq<L.Worker>, tws: seq<Status.Worker>) {
    && |jobs| == |sws| == |lws| == |tws|
    && forall w :: 0 <= w < |jobs| ==> AlignedAt(jobs[w], sws[w], lws[w], tws[w])
  }

  predicate AllFree(jobs: seq<D.Job>, lws: seq<L.Worker>) {
    |jobs| == |lws| && forall w :: 0 <= w < |jobs| ==> jobs[w].Free? && lws[w].Idle?
  }

  /** While a scan runs its workers are where the desk says; between scans nobody has anything. */
  predicate Aligned(y: System) {
    if y.program.phase.Running?
    then AlignedAll(y.desk.jobs, y.scan.workers, y.office.workers, y.program.phase.workers)
    else P.Over(y.scan) && AllFree(y.desk.jobs, y.office.workers)
  }

  /** The desk is ready for everything that happens. */
  lemma DeskReady(y: System, s: Step)
    requires Aligned(y) && Legal(y, s) && L.WorkersOk(y.office.workers)
    ensures D.Legal(y.desk, OfDesk(y, s))
  {
    if s.Lease? && L.ByHolder(s.m) {
      assert L.WorkerOk(y.office.workers[s.m.w]);
    }
  }

  // ----- the alignment stays

  /** What a step of the pipeline does to its workers, and to the rows handed out and stored. */
  lemma ScanNext(c: P.Scan, e: P.Step)
    requires P.Legal(c, e)
    ensures P.Next(c, e).workers == match e
                                    case NextScan(n, _, _) => seq(n, _ => P.Ready)
                                    case Receive(w) => c.workers[w := P.Busy(c.channel[0], false)]
                                    case Mark(w, _, _) => c.workers[w := P.Busy(c.workers[w].m, true)]
                                    case Finish(w) => c.workers[w := P.Ready]
                                    case Exit(w) => c.workers[w := P.Exited]
                                    case _ => c.workers
    ensures P.Next(c, e).handed ==
            if e.NextScan? then [] else if e.Receive? then c.handed + [c.channel[0]] else c.handed
    ensures P.Next(c, e).log ==
            if e.Mark? && e.ok then c.log + [P.Stamp(c.workers[e.w].m.id, e.at)] else c.log
  {
  }

  lemma OfficeNext(o: L.Office, m: L.Move)
    requires L.Legal(o, m)
    ensures var ws, ws' := o.workers, L.Next(o, m).workers;
            && |ws'| == |ws|
            && (!m.TryAcquire? && !L.ByHolder(m) ==> ws' == ws)
            && (m.TryAcquire? ==>
                  ws' == match PoolSpec.AcquireOutcome(o.pool.keys, m.at)
                         case Granted(i) => ws[m.w := L.Holding(i, 0.0, 0)]
                         case _ => ws)
            && (L.ByHolder(m) ==>
                  var h := ws[m.w];
                  ws' == match m
                         case BaseQuery(w, p, _) => ws[w := h.(base := h.base + p)]
                         case FightDetail(w, _, _) => ws[w := h.(calls := h.calls + 1)]
                         case _ => ws[m.w := L.Idle])
  {
  }

  /** Only worker `w` has moved, and is aligned again. */
  lemma OneMoved(jobs: seq<D.Job>, sws: seq<P.Worker>, lws: seq<L.Worker>, tws: seq<Status.Worker>, w: nat,
                 j: D.Job, sw: P.Worker, lw: L.Worker, tw: Status.Worker)
    requires AlignedAll(jobs, sws, lws, tws) && w < |jobs| && AlignedAt(j, sw, lw, tw)
    ensures AlignedAll(jobs[w := j], sws[w := sw], lws[w := lw], tws[w := tw])
    ensures jobs[w := jobs[w]] == jobs && sws[w := sws[w]] == sws && lws[w := lws[w]] == lws && tws[w := tws[w]] == tws
  {
  }

  lemma AlignedAfterReceive(y: System, w: nat)
    requires Aligned(y) && Legal(y, Receive(w)) && D.Legal(y.desk, OfDesk(y, Receive(w)))
    ensures Aligned(Next(y, Receive(w)))
  {
    ScanNext(y.scan, P.Receive(w));
    var m := y.scan.channel[0];
    OneMoved(y.desk.jobs, y.scan.workers, y.office.workers, y.program.phase.workers, w,
             D.Open(m, false, 0.0), P.Busy(m, false), L.Idle, Status.Trying);
  }

  lemma AlignedAfterAttempt(y: System, w: nat, at: Time)
    requires Aligned(y) && Legal(y, Attempt(w, at)) && D.Legal(y.desk, OfDesk(y, Attempt(w, at)))
    ensures Aligned(Next(y, Attempt(w, at)))
  {
    OfficeNext(y.office, L.TryAcquire(w, at));
    var m := y.desk.jobs[w].m;
    var sws, tws := y.scan.workers, y.program.phase.workers;
    match Answer(y, at) {
      case Granted(i) =>
        OneMoved(y.desk.jobs, sws, y.office.workers, tws, w,
                 D.Open(m, true, 0.0), sws[w], L.Holding(i, 0.0, 0), Status.Elsewhere);
      case NoKey =>
        OneMoved(y.desk.jobs, sws, y.office.workers, tws, w, D.Done(m, KeyLess), sws[w], L.Idle, Status.Elsewhere);
      case Exhausted(_) =>
        OneMoved(y.desk.jobs, sws, y.office.workers, tws, w, y.desk.jobs[w], sws[w], L.Idle, Status.Blocked);
    }
  }

  lemma AlignedAfterLease(y: System, m: L.Move)
    requires Aligned(y) && Legal(y, Lease(m)) && D.Legal(y.desk, OfDesk(y, Lease(m)))
    ensures Aligned(Next(y, Lease(m)))
  {
    OfficeNext(y.office, m);
    if L.ByHolder(m) {
      var y' := Next(y, Lease(m));
      OneMoved(y.desk.jobs, y.scan.workers, y.office.workers, y.program.phase.workers, m.w,
               y'.desk.jobs[m.w], y.scan.workers[m.w], y'.office.workers[m.w], Status.Elsewhere);
    }
  }

  lemma AlignedAfterOwnStep(y: System, s: Step)
    requires Aligned(y) && Legal(y, s) && D.Legal(y.desk, OfDesk(y, s))
    requires s.GiveUp? || s.Store? || s.Depart? || s.Exit?
    ensures Aligned(Next(y, s))
  {
    if OfPipeline(y, s).Some? {
      ScanNext(y.scan, OfPipeline(y, s).value);
    }
  }

  lemma AlignedAfterProducer(y: System, e: P.Step)
    requires Aligned(y) && Legal(y, Produce(e))
    ensures Aligned(Next(y, Produce(e)))
  {
    ScanNext(y.scan, e);
  }

  lemma AlignedAfterLoopStep(y: System, s: Step)
    requires Aligned(y) && Legal(y, s) && (s.Announce? || s.Abort? || s.Begin? || s.Join? || s.Rest?)
    ensures Aligned(Next(y, s))
  {
    if s.Join? {
      assert forall w :: 0 <= w < |y.scan.workers| ==> y.scan.workers[w] in y.scan.workers;
    }
  }

  lemma AlignedNext(y: System, s: Step)
    requires Aligned(y) && Legal(y, s) && D.Legal(y.desk, OfDesk(y, s))
    ensures Aligned(Next(y, s))
  {
    match s {
      case Produce(e) => AlignedAfterProducer(y, e);
      case Receive(w) => AlignedAfterReceive(y, w);
      case Attempt(w, at) => AlignedAfterAttempt(y, w, at);
      case Lease(m) => AlignedAfterLease(y, m);
      case GiveUp(_) => AlignedAfterOwnStep(y, s);
      case Store(_, _, _) => AlignedAfterOwnStep(y, s);
      case Depart(_) => AlignedAfterOwnStep(y, s);
      case Exit(_) => AlignedAfterOwnStep(y, s);
      case _ => AlignedAfterLoopStep(y, s);
    }
  }

  // ----- every run

  /** The desk's record of the scan is the pipeline's. */
  predicate SameRecord(y: System) {
    && y.desk.handed == y.scan.handed
    && y.before <= |y.scan.log| && y.desk.stored == y.scan.log[y.before..]
  }

  ghost predicate Inv(y: System, n: nat) {
    && Aligned(y) && SameRecord(y) && D.Inv(y.desk) && |y.desk.jobs| == n
    && PipelineResults.Reachable(y.scan) && L.Reachable(y.office, n) && Status.Reachable(y.program)
  }

  lemma SameRecordNext(y: System, s: Step)
    requires Aligned(y) && SameRecord(y) && Legal(y, s) && D.Legal(y.desk, OfDesk(y, s))
    ensures SameRecord(Next(y, s)) && |Next(y, s).desk.jobs| == |y.desk.jobs|
  {
    if OfPipeline(y, s).Some? {
      ScanNext(y.scan, OfPipeline(y, s).value);
    }
  }

  /** A member that leaves the channel was not handed out before. */
  lemma ReceivesNew(y: System, s: Step)
    requires SameRecord(y) && PipelineResults.Reachable(y.scan) && Legal(y, s)
    ensures D.TakesNew(y.desk, OfDesk(y, s))
  {
    if s.Receive? {
      PipelineResults.ReachableInv(y.scan);
      PipelineProofs.PlacesAreDistinct(y.scan);
      assert y.scan.channel[0] in y.scan.channel;
    }
  }

  lemma ComponentsNext(y: System, n: nat, s: Step)
    requires PipelineResults.Reachable(y.scan) && L.Reachable(y.office, n) && Status.Reachable(y.program) && Legal(y, s)
    ensures PipelineResults.Reachable(ScanMoved(y, s))
    ensures L.Reachable(OfficeMoved(y, s), n)
    ensures Status.Reachable(ProgramMoved(y, s))
  {
    if OfPipeline(y, s).Some? {
      PipelineResults.ReachNext(y.scan, OfPipeline(y, s).value);
    }
    if OfLedger(s).Some? {
      L.ReachNext(y.office, n, OfLedger(s).value);
    }
    if OfStatus(y, s).Some? {
      Status.ReachNext(y.program, OfStatus(y, s).value);
    }
  }

  lemma InvNext(y: System, n: nat, s: Step)
    requires Inv(y, n) && Legal(y, s)
    ensures Inv(Next(y, s), n)
  {
    L.ReachableInv(y.office, n);
    DeskReady(y, s);
    ReceivesNew(y, s);
    D.InvNext(y.desk, OfDesk(y, s));
    AlignedNext(y, s);
    SameRecordNext(y, s);
    ComponentsNext(y, n, s);
  }

  lemma InvAtBoot(table: seq<P.Member>, u: PoolRuns.StartUp, t0: Time, n: nat, ends: seq<Time>)
    requires P.Sorted(table) && L.StartsOk(u, t0) && |ends| == |u.Keys()|
    ensures Inv(Boot(table, u, t0, n, ends), n)
  {
    D.NoOpenJobs(Boot(table, u, t0, n, ends).desk.jobs);
  }

  lemma ReachableInv(y: System, n: nat)
    requires Reachable(y, n)
    ensures Inv(y, n)
  {
    var states := iset x: System | Inv(x, n);
    forall table: seq<P.Member>, u: PoolRuns.StartUp, t0: Time, ends: seq<Time> |
      P.Sorted(table) && L.StartsOk(u, t0) && |ends| == |u.Keys()|
      ensures Boot(table, u, t0, n, ends) in states
    {
      InvAtBoot(table, u, t0, n, ends);
    }
    forall x, s | x in states && Legal(x, s)
      ensures Next(x, s) in states
    {
      InvNext(x, n, s);
    }
    assert HasBoots(states, n) && Closed(states);
    assert y in states;
  }

  // ----- results

  /** What is proved of the pipeline, the leases and the status alone holds of them together: each of
      the three goes through states that it can reach on its own. */
  lemma ComponentsRun(y: System, n: nat)
    requires Reachable(y, n)
    ensures PipelineResults.Reachable(y.scan) && L.Reachable(y.office, n) && Status.Reachable(y.program)
  {
    ReachableInv(y, n);
  }

  lemma {:induction false} BlockedAreWithout(jobs: seq<D.Job>, sws: seq<P.Worker>, lws: seq<L.Worker>,
                                             tws: seq<Status.Worker>)
    requires AlignedAll(jobs, sws, lws, tws)
    ensures Status.CountBlocked(tws) + D.LeasesIn(jobs) <= D.OpenJobs(jobs)
  {
    if jobs != [] {
      assert AlignedAt(jobs[0], sws[0], lws[0], tws[0]);
      BlockedAreWithout(jobs[1..], sws[1..], lws[1..], tws[1..]);
    }
  }

  /** At every moment of a scan there is at most one lease for each member handed out, and the workers
      that are shown as waiting and those that hold a lease all have a member that has not ended. */
  lemma OneLeaseEach(y: System, n: nat)
    requires Reachable(y, n)
    ensures y.desk.granted <= |y.scan.handed|
    ensures y.program.status.waitingCount + D.LeasesIn(y.desk.jobs) <= |y.scan.handed| - |y.desk.reports|
  {
    ReachableInv(y, n);
    Status.StatusAgreesWithWorkers(y.program);
    D.LeasesAreOpen(y.desk.jobs);
    D.EndsAddUp(y.desk.reports);
    if y.program.phase.Running? {
      BlockedAreWithout(y.desk.jobs, y.scan.workers, y.office.workers, y.program.phase.workers);
    }
  }

  lemma OverIsFree(y: System)
    requires Aligned(y) && P.Over(y.scan)
    ensures forall w :: 0 <= w < |y.desk.jobs| ==> y.desk.jobs[w].Free?
  {
    if y.program.phase.Running? {
      assert forall w :: 0 <= w < |y.scan.workers| ==> y.scan.workers[w] in y.scan.workers;
    }
  }

  /** When a scan is over, the members it queued split into those without a key, those without a
      character, those synced, those that failed and those that panicked; all but the first kind
      had exactly one lease each, and FFLogs charged at most 20 points for a member without a
      character and 60 for each of the others. */
  lemma QueuedSplit(y: System, n: nat)
    requires Reachable(y, n) && P.Over(y.scan)
    ensures var ends := (end: End) => D.CountEnded(y.desk.reports, end);
            && y.scan.queued == ends(KeyLess) + ends(NoCharacter) + ends(Synced) + ends(Failure) + ends(Panicked)
            && y.desk.granted == y.scan.queued - ends(KeyLess)
            && y.desk.charged <= 20.0 * ends(NoCharacter) as real
                                 + 60.0 * (ends(Synced) + ends(Failure) + ends(Panicked)) as real
    ensures forall end ::
              D.CountEnded(y.desk.reports, end) == |set i | 0 <= i < |y.desk.reports| && y.desk.reports[i].end == end|
  {
    ReachableInv(y, n);
    forall end {
      D.EndedAreCounted(y.desk.reports, end);
    }
    OverIsFree(y);
    D.NoOpenJobs(y.desk.jobs);
    D.EndsAddUp(y.desk.reports);
    PipelineResults.ScanDrains(y.scan);
  }

  /** And each of them ended once: there is a report on every member the scan kept, none on any other,
      and no two on the same one. */
  lemma EachEndsOnce(y: System, n: nat)
    requires Reachable(y, n) && P.Over(y.scan)
    ensures forall m <- y.scan.kept :: D.HasReport(y.desk.reports, m)
    ensures forall r <- y.desk.reports :: r.m in y.scan.kept
    ensures forall i, j :: 0 <= i < j < |y.desk.reports| ==> y.desk.reports[i].m.id != y.desk.reports[j].m.id
  {
    ReachableInv(y, n);
    OverIsFree(y);
    PipelineResults.ScanDrains(y.scan);
  }

  /** The worker whose member a step ends, and how: with its lease, or without one when there are no keys
      or the deadline passes. */
  function LeaseEnds(m: L.Move): Option<(nat, End)> {
    match m
    case Finish(w, _) => Some((w, Synced))
    case FailLease(w, _, _) => Some((w, Failure))
    case NoCharacter(w, _) => Some((w, NoCharacter))
    case Panic(w, _) => Some((w, Panicked))
    case _ => None
  }

  /** The move with which a member's lease ends, from what it was answered. */
  function LastMove(w: nat, r: M.Replies, at: Time): L.Move
    requires r.WellFormed()
  {
    match M.Ending(r)
    case Failure => L.FailLease(w, M.FailureKind(r), at)
    case NoCharacter => L.NoCharacter(w, at)
    case Panicked => L.Panic(w, at)
    case _ => L.Finish(w, at)
  }

  /** It does to the key what the member's code does. */
  lemma LeaseEndsAsMember(o: L.Office, w: nat, r: M.Replies, at: Time)
    requires L.Shaped(o) && o.pool.now <= at && r.WellFormed()
    requires w < |o.workers| && o.workers[w].Holding? && o.workers[w].calls == M.Calls(r)
    ensures L.Legal(o, LastMove(w, r, at))
    ensures var i := o.workers[w].key;
            L.Next(o, LastMove(w, r, at)).pool.keys == o.pool.keys[i := M.LeaseEnded(o.pool.keys[i], r, at)]
    ensures L.Next(o, LastMove(w, r, at)).workers == o.workers[w := L.Idle]
    ensures LeaseEnds(LastMove(w, r, at)) == Some((w, M.Ending(r)))
  {
  }

  function Ends(y: System, s: Step): Option<(nat, End)> {
    match s
    case GiveUp(w) => Some((w, KeyLess))
    case Attempt(w, at) => if Answer(y, at).NoKey? then Some((w, KeyLess)) else None
    case Lease(m) => LeaseEnds(m)
    case _ => None
  }

  /** The points FFLogs charges in a step. */
  function Points(s: Step): real {
    if s.Lease? && (s.m.BaseQuery? || s.m.FightDetail?) then s.m.points else 0.0
  }

  ghost predicate Recorded(y: System, s: Step, desk: D.Desk) {
    && desk.granted == y.desk.granted + (if s.Attempt? && Answer(y, s.at).Granted? then 1 else 0)
    && desk.charged == y.desk.charged + Points(s)
    && match Ends(y, s)
       case None => desk.reports == y.desk.reports
       case Some(e) =>
         && e.0 < |y.scan.workers| && y.scan.workers[e.0].Busy?
         && desk.reports == y.desk.reports + [D.Report(y.scan.workers[e.0].m, e.1)]
  }

  lemma LeaseRecorded(y: System, m: L.Move)
    requires Aligned(y) && Legal(y, Lease(m)) && D.Legal(y.desk, OfDesk(y, Lease(m)))
    ensures Recorded(y, Lease(m), DeskMoved(y, Lease(m)))
  {
  }

  lemma StepRecorded(y: System, s: Step)
    requires Aligned(y) && Legal(y, s) && D.Legal(y.desk, OfDesk(y, s)) && !s.Begin?
    ensures Recorded(y, s, DeskMoved(y, s))
  {
    if s.Lease? {
      LeaseRecorded(y, s.m);
    }
  }

  /** During a scan the desk misses nothing and makes nothing up: it counts a lease exactly when an attempt
      is granted one, the points that FFLogs charges, and a report exactly when a step ends a member, about
      the member that this worker has and how it ended. */
  lemma DeskMissesNothing(y: System, n: nat, s: Step)
    requires Reachable(y, n) && Legal(y, s) && !s.Begin?
    ensures Recorded(y, s, Next(y, s).desk)
  {
    ReachableInv(y, n);
    L.ReachableInv(y.office, n);
    DeskReady(y, s);
    StepRecorded(y, s);
  }

  /** The worker has a lease and has made the queries that the replies call for. */
  predicate MadeCalls(y: System, w: nat, r: M.Replies) {
    && y.program.phase.Running? && Holds(y, w, true) && r.WellFormed()
    && w < |y.office.workers| && y.office.workers[w].Holding? && y.office.workers[w].calls == M.Calls(r)
  }

  /** The step leaves the key as the member's code does and reports what that returns. */
  ghost predicate EndsAsCoded(y: System, w: nat, r: M.Replies, at: Time)
    requires MadeCalls(y, w, r) && Legal(y, Lease(LastMove(w, r, at)))
  {
    var i, y' := y.office.workers[w].key, Next(y, Lease(LastMove(w, r, at)));
    && i < |y.office.pool.keys|
    && y'.office.pool.keys == y.office.pool.keys[i := M.LeaseEnded(y.office.pool.keys[i], r, at)]
    && y'.desk.reports == y.desk.reports + [D.Report(y.desk.jobs[w].m, M.Ending(r))]
  }

  lemma AlignedEndsAsCoded(y: System, w: nat, r: M.Replies, at: Time)
    requires Aligned(y) && L.Shaped(y.office) && L.WorkersOk(y.office.workers) && MadeCalls(y, w, r) && InTime(y, at)
    ensures Legal(y, Lease(LastMove(w, r, at))) && EndsAsCoded(y, w, r, at)
  {
    LeaseEndsAsMember(y.office, w, r, at);
    DeskReady(y, Lease(LastMove(w, r, at)));
    LeaseRecorded(y, LastMove(w, r, at));
  }

  /** Ledger and desk see a member with a lease end as its code ends it: in every reachable state, once a
      worker has made the fight-detail queries that the replies call for, the program can take the step
      with which `SyncUnderLease` ends; the key is then as that leaves it, and the report is what it returns. */
  lemma MemberEndsAsReplied(y: System, n: nat, w: nat, r: M.Replies, at: Time)
    requires Reachable(y, n) && MadeCalls(y, w, r) && InTime(y, at)
    ensures Legal(y, Lease(LastMove(w, r, at))) && EndsAsCoded(y, w, r, at)
  {
    ReachableInv(y, n);
    L.ReachableInv(y.office, n);
    AlignedEndsAsCoded(y, w, r, at);
  }

  /** In any state, every sync time stored since the scan began belongs to a member that ended as
      synced or without a character: a failed, panicked or key-less member stays stale. */
  lemma StoredEndedWell(y: System, n: nat)
    requires Reachable(y, n)
    ensures y.before <= |y.scan.log|
    ensures forall st <- y.scan.log[y.before..] ::
              exists r <- y.desk.reports :: r.m.id == st.id && r.end in {Synced, NoCharacter}
  {
    ReachableInv(y, n);
  }

  // ----- progress

  /** A step of the scan under way: not of the loop around it or of the pool's maintenance, and no
      failed read. */
  predicate InScan(s: Step) {
    match s
    case Produce(e) => !e.FetchFails?
    case Lease(m) => L.ByHolder(m)
    case Receive(_) => true
    case Attempt(_, _) => true
    case GiveUp(_) => true
    case Store(_, _, _) => true
    case Depart(_) => true
    case Exit(_) => true
    case _ => false
  }

  function Latest(y: System): Time {
    if y.scan.now < y.office.pool.now then y.office.pool.now else y.scan.now
  }

  /** What worker `w` can do next. */
  function WorkerStep(y: System, w: nat): Step
    requires w < |y.desk.jobs|
  {
    match y.desk.jobs[w]
    case Open(_, leased, _) => if leased then Lease(L.Finish(w, Latest(y))) else Attempt(w, Latest(y))
    case Done(_, _) => Depart(w)
    case Free => if y.scan.channel != [] then Receive(w) else Exit(w)
  }

  function ProducerStep(y: System): Step {
    match y.scan.producer
    case Fetching => Produce(P.Fetch(1))
    case Walking(_) => Produce(P.Walk)
    case Classifying(_, _) => Produce(P.Classify(Latest(y)))
    case _ => Produce(P.Send)
  }

  // Each is possible where the worker stands.

  lemma SeekerMoves(y: System, w: nat)
    requires Aligned(y) && L.Shaped(y.office) && y.program.phase.Running? && Holds(y, w, false)
    ensures Legal(y, Attempt(w, Latest(y)))
  {
  }

  lemma HolderMoves(y: System, w: nat)
    requires Aligned(y) && L.Shaped(y.office) && y.program.phase.Running? && Holds(y, w, true)
    ensures Legal(y, Lease(L.Finish(w, Latest(y))))
  {
  }

  lemma DoneMoves(y: System, w: nat)
    requires Aligned(y) && y.program.phase.Running? && w < |y.desk.jobs| && y.desk.jobs[w].Done?
    ensures Legal(y, Depart(w))
  {
  }

  lemma FreeMoves(y: System, w: nat)
    requires Aligned(y) && y.program.phase.Running? && w < |y.desk.jobs| && y.desk.jobs[w].Free?
    requires !y.scan.workers[w].Exited? && (y.scan.channel != [] || y.scan.producer.Closed?)
    ensures Legal(y, if y.scan.channel != [] then Receive(w) else Exit(w))
  {
  }

  /** A worker that has not left can always move, unless it is waiting for the channel. */
  lemma WorkerMoves(y: System, w: nat)
    requires Aligned(y) && L.Shaped(y.office) && y.program.phase.Running? && w < |y.desk.jobs|
    requires !y.scan.workers[w].Exited? && (y.scan.channel != [] || y.scan.producer.Closed?)
    ensures Legal(y, WorkerStep(y, w)) && InScan(WorkerStep(y, w))
  {
    match y.desk.jobs[w] {
      case Open(_, leased, _) =>
        if leased {
          HolderMoves(y, w);
        } else {
          SeekerMoves(y, w);
        }
      case Done(_, _) => DoneMoves(y, w);
      case Free => FreeMoves(y, w);
    }
  }

  /** So can the producer, unless it is done or the channel is full. */
  lemma ProducerMoves(y: System)
    requires PipelineProofs.WalkInv(y.scan) && !y.scan.producer.Closed?
    requires y.scan.producer.Sending? ==> |y.scan.channel| < P.QUEUE_SIZE
    ensures Legal(y, ProducerStep(y)) && InScan(ProducerStep(y))
  {
  }

  /** Somebody is there to empty a full channel, and to leave when the producer is done. */
  lemma SomebodyThere(y: System, n: nat)
    requires Inv(y, n) && PipelineProofs.Inv(y.scan) && !P.Over(y.scan) && y.program.phase.Running?
    requires y.scan.producer.Closed? || y.scan.channel != []
    ensures exists w :: 0 <= w < |y.desk.jobs| && !y.scan.workers[w].Exited?
  {
    if y.scan.producer.Closed? {
      var x :| x in y.scan.workers && !x.Exited?;
    } else {
      assert y.scan.workers != [] && y.scan.workers[0] in y.scan.workers;
    }
  }

  /** The program is never stuck in a scan: until it is over, pipeline, leases, status and desk agree on
      some step of it, and then the loop can take the workers back. */
  lemma NeverStuckTogether(y: System, n: nat)
    requires Reachable(y, n) && y.program.phase.Running?
    ensures !P.Over(y.scan) ==> exists s :: InScan(s) && Legal(y, s)
    ensures P.Over(y.scan) ==> Legal(y, Join)
  {
    ReachableInv(y, n);
    PipelineResults.ReachableInv(y.scan);
    L.ReachableInv(y.office, n);
    if P.Over(y.scan) {
      JoinMoves(y);
    } else if y.scan.producer.Closed? || |y.scan.channel| == P.QUEUE_SIZE {
      SomebodyThere(y, n);
      var w :| 0 <= w < |y.desk.jobs| && !y.scan.workers[w].Exited?;
      WorkerMoves(y, w);
    } else {
      ProducerMoves(y);
    }
  }

  lemma JoinMoves(y: System)
    requires Aligned(y) && P.Over(y.scan) && y.program.phase.Running?
    ensures Legal(y, Join)
  {
    OverIsFree(y);
  }
}
