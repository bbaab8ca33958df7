/** The scan status shown by /progress: an object updated in place under its own lock, and the
    program around it whose workers block on keys. */
module Status {
  import opened Basics

  datatype SyncState = Idle | Scanning | WaitingForKeys

  datatype Snapshot = Snapshot(
    state: SyncState,
    waitingCount: int,
    scanStartedAt: Time,
    scanFinishedAt: Time,
    nextScanAt: Time,
    keysRecoverAt: Time)

  const INITIAL := Snapshot(Idle, 0, UNSET, UNSET, UNSET, UNSET)

  // ----- what each update does to the status

  function ScanStarted(s: Snapshot, now: Time): Snapshot {
    s.(state := Scanning, scanStartedAt := now, nextScanAt := UNSET)
  }

  function WentIdle(s: Snapshot, now: Time, nextScanAt: Time): Snapshot {
    s.(state := Idle, scanFinishedAt := now, nextScanAt := nextScanAt, keysRecoverAt := UNSET)
  }

  function WaitingChanged(s: Snapshot, delta: int, recoverAt: Time): Snapshot {
    var count := s.waitingCount + delta;
    if delta > 0 then
      s.(waitingCount := count, keysRecoverAt := recoverAt, state := if count == 1 then WaitingForKeys else s.state)
    else if count == 0 then
      s.(waitingCount := count, keysRecoverAt := UNSET, state := Scanning)
    else
      s.(waitingCount := count)
  }

  class StateStore {
    var state: SyncState
    var waitingCount: int
    var scanStartedAt: Time
    var scanFinishedAt: Time
    var nextScanAt: Time
    var keysRecoverAt: Time

    constructor ()
      ensures View() == INITIAL
    {
      state, waitingCount := Idle, 0;
      scanStartedAt, scanFinishedAt, nextScanAt, keysRecoverAt := UNSET, UNSET, UNSET, UNSET;
    }

    function View(): Snapshot
      reads this
    {
      Snapshot(state, waitingCount, scanStartedAt, scanFinishedAt, nextScanAt, keysRecoverAt)
    }

    method MarkScanStarted(now: Time)
      modifies `state, `scanStartedAt, `nextScanAt
      ensures View() == ScanStarted(old(View()), now)
      ensures state == Scanning && scanStartedAt == now && nextScanAt == UNSET
    {
      state := Scanning;
      scanStartedAt := now;
      nextScanAt := UNSET;
    }

    method MarkIdle(now: Time, next: Time)
      modifies `state, `scanFinishedAt, `nextScanAt, `keysRecoverAt
      ensures View() == WentIdle(old(View()), now, next)
      ensures state == Idle && scanFinishedAt == now && nextScanAt == next && keysRecoverAt == UNSET
    {
      state := Idle;
      scanFinishedAt := now;
      nextScanAt := next;
      keysRecoverAt := UNSET;
    }

    method MarkWaitingForKeys(delta: int, recoverAt: Time)
      modifies `state, `waitingCount, `keysRecoverAt
      ensures View() == WaitingChanged(old(View()), delta, recoverAt)
      ensures waitingCount == old(waitingCount) + delta
      ensures delta > 0 ==>
                keysRecoverAt == recoverAt && state == if waitingCount == 1 then WaitingForKeys else old(state)
      ensures delta <= 0 && waitingCount == 0 ==> keysRecoverAt == UNSET && state == Scanning
      ensures delta <= 0 && waitingCount != 0 ==> keysRecoverAt == old(keysRecoverAt) && state == old(state)
    {
      waitingCount := waitingCount + delta;
      if delta > 0 {
        keysRecoverAt := recoverAt;
        if waitingCount == 1 {
          state := WaitingForKeys;
        }
      } else if waitingCount == 0 {
        state := Scanning;
        keysRecoverAt := UNSET;
      }
    }
  }

  // ----- the program around it: one loop of scans, each with its workers

  /** A worker outside waitForKey, inside it without having blocked, or counted as blocked. */
  datatype Worker = Elsewhere | Trying | Blocked

  /** Where the sync loop is: asleep, a scan announced, its workers running, or the scan returned. */
  datatype Phase = Resting | Announced | Running(workers: seq<Worker>) | Returned

  datatype Program = Program(status: Snapshot, phase: Phase)

  /** `Exhausted` is a failed Acquire: the first one of a call counts the worker as blocked. `Leave`
      is any way out of waitForKey: a lease, no keys at all, or the member's deadline. `Abort` is
      SyncMembers returning before it starts workers. */
  datatype Step =
    | Announce(now: Time)
    | Abort
    | StartWorkers(count: nat)
    | Enter(w: nat)
    | Exhausted(w: nat, retryAt: Time)
    | Leave(w: nat)
    | Join
    | Rest(now: Time, next: Time)

  predicate Legal(p: Program, s: Step) {
    match s
    case Announce(_) => p.phase.Resting?
    case Abort => p.phase.Announced?
    case StartWorkers(_) => p.phase.Announced?
    case Enter(w) => p.phase.Running? && w < |p.phase.workers| && p.phase.workers[w].Elsewhere?
    case Exhausted(w, _) => p.phase.Running? && w < |p.phase.workers| && !p.phase.workers[w].Elsewhere?
    case Leave(w) => p.phase.Running? && w < |p.phase.workers| && !p.phase.workers[w].Elsewhere?
    case Join => p.phase.Running? && forall w <- p.phase.workers :: w.Elsewhere?
    case Rest(_, _) => p.phase.Returned?
  }

  function Next(p: Program, s: Step): Program
    requires Legal(p, s)
  {
    match s
    case Announce(now) => Program(ScanStarted(p.status, now), Announced)
    case Abort => p.(phase := Returned)
    case StartWorkers(n) => p.(phase := Running(seq(n, _ => Elsewhere)))
    case Enter(w) => p.(phase := Running(p.phase.workers[w := Trying]))
    case Exhausted(w, retryAt) =>
      if p.phase.workers[w].Blocked? then p
      else Program(WaitingChanged(p.status, 1, retryAt), Running(p.phase.workers[w := Blocked]))
    case Leave(w) =>
      var phase := Running(p.phase.workers[w := Elsewhere]);
      if p.phase.workers[w].Blocked? then Program(WaitingChanged(p.status, -1, UNSET), phase) else p.(phase := phase)
    case Join => p.(phase := Returned)
    case Rest(now, next) => Program(WentIdle(p.status, now, next), Resting)
  }

  predicate LegalRun(p: Program, ss: seq<Step>)
    decreases |ss|
  {
    ss == [] || (Legal(p, ss[0]) && LegalRun(Next(p, ss[0]), ss[1..]))
  }

  function Run(p: Program, ss: seq<Step>): Program
    requires LegalRun(p, ss)
    decreases |ss|
  {
    if ss == [] then p else Run(Next(p, ss[0]), ss[1..])
  }

  function Workers(p: Program): seq<Worker> {
    if p.phase.Running? then p.phase.workers else []
  }

  function CountBlocked(ws: seq<Worker>): (n: nat)
    ensures n <= |ws|
  {
    if ws == [] then 0 else CountBlocked(ws[1..]) + if ws[0].Blocked? then 1 else 0
  }

  lemma {:induction false} BlockedAfterUpdate(ws: seq<Worker>, i: nat, w: Worker)
    requires i < |ws|
    ensures CountBlocked(ws[i := w]) ==
            CountBlocked(ws) - (if ws[i].Blocked? then 1 else 0) + (if w.Blocked? then 1 else 0)
  {
    if i == 0 {
      assert ws[i := w][1..] == ws[1..];
    } else {
      assert ws[i := w][1..] == ws[1..][i - 1 := w];
      BlockedAfterUpdate(ws[1..], i - 1, w);
    }
  }

  lemma {:induction false} NoneBlocked(ws: seq<Worker>)
    requires forall w <- ws :: w.Elsewhere?
    ensures CountBlocked(ws) == 0
  {
    if ws != [] {
      assert ws[0] in ws && forall w <- ws[1..] :: w in ws;
      NoneBlocked(ws[1..]);
    }
  }

  /** The status agrees with where the program and its workers are. */
  predicate Agrees(p: Program) {
    var s := p.status;
    && s.waitingCount == CountBlocked(Workers(p))
    && (s.state.WaitingForKeys? <==> s.waitingCount > 0)
    && (s.state.Idle? <==> p.phase.Resting?)
    && (s.keysRecoverAt != UNSET ==> s.state.WaitingForKeys?)
    && (s.nextScanAt != UNSET ==> s.state.Idle?)
  }

  // ----- the snapshot that what has happened calls for

  /** The program with a chronicle of it: when the last scan was announced, when the last rest began and
      until when it was to last, and the retry time with which the last worker to block did so. */
  datatype Told = Told(p: Program, began: Time, ended: Time, next: Time, retryAt: Time)

  function NextTold(t: Told, s: Step): Told
    requires Legal(t.p, s)
  {
    var t1 := t.(p := Next(t.p, s));
    match s
    case Announce(now) => t1.(began := now)
    case Rest(now, next) => t1.(ended := now, next := next)
    case Exhausted(w, retryAt) => if t.p.phase.workers[w].Trying? then t1.(retryAt := retryAt) else t1
    case _ => t1
  }

  /** The snapshot that belongs to it. */
  function Shown(t: Told): Snapshot {
    var blocked := CountBlocked(Workers(t.p));
    Snapshot(
      if t.p.phase.Resting? then Idle else if blocked > 0 then WaitingForKeys else Scanning,
      blocked,
      t.began,
      t.ended,
      if t.p.phase.Resting? then t.next else UNSET,
      if blocked > 0 then t.retryAt else UNSET)
  }

  lemma ShownNext(t: Told, s: Step)
    requires t.p.status == Shown(t) && Legal(t.p, s)
    ensures Next(t.p, s).status == Shown(NextTold(t, s))
  {
    match s {
      case Enter(w) => BlockedAfterUpdate(t.p.phase.workers, w, Trying);
      case Exhausted(w, _) => BlockedAfterUpdate(t.p.phase.workers, w, Blocked);
      case Leave(w) => BlockedAfterUpdate(t.p.phase.workers, w, Elsewhere);
      case StartWorkers(n) => NoneBlocked(seq(n, _ => Elsewhere));
      case Join => NoneBlocked(t.p.phase.workers);
      case _ =>
    }
  }

  // ----- every run

  /** A set of states that steps do not leave. */
  ghost predicate Closed(states: iset<Program>) {
    forall p, s :: p in states && Legal(p, s) ==> Next(p, s) in states
  }

  /** In every such set that holds the state at start-up. */
  ghost predicate Reachable(p: Program) {
    forall states: iset<Program> :: Program(INITIAL, Resting) in states && Closed(states) ==> p in states
  }

  lemma ReachNext(p: Program, s: Step)
    requires Reachable(p) && Legal(p, s)
    ensures Reachable(Next(p, s))
  {
  }

  /** Every run goes through reachable states only. */
  lemma {:induction false} RunsReach(p: Program, ss: seq<Step>)
    requires Reachable(p) && LegalRun(p, ss)
    ensures Reachable(Run(p, ss))
    decreases |ss|
  {
    if ss != [] {
      ReachNext(p, ss[0]);
      RunsReach(Next(p, ss[0]), ss[1..]);
    }
  }

  /** Over any number of scans and every interleaving of their workers: the waiting count is the
      number of blocked workers, so between 0 and all of them; the state is WaitingForKeys
      exactly while somebody is blocked, and Idle exactly while the loop is asleep; a recovery time is
      shown only while waiting and a next scan time only while idle. */
  lemma StatusAgreesWithWorkers(p: Program)
    requires Reachable(p)
    ensures Agrees(p)
    ensures 0 <= p.status.waitingCount <= |Workers(p)|
  {
    var states := iset x: Program | exists t: Told :: t.p == x && x.status == Shown(t);
    var start := Told(Program(INITIAL, Resting), UNSET, UNSET, UNSET, UNSET);
    assert start.p in states;
    forall x, s | x in states && Legal(x, s)
      ensures Next(x, s) in states
    {
      var t: Told :| t.p == x && x.status == Shown(t);
      ShownNext(t, s);
      assert NextTold(t, s).p == Next(x, s);
    }
    assert Closed(states) && p in states;
  }

  ghost predicate ClosedTold(states: iset<Told>) {
    forall t, s :: t in states && Legal(t.p, s) ==> NextTold(t, s) in states
  }

  ghost predicate ReachableTold(t: Told) {
    forall states: iset<Told> ::
      Told(Program(INITIAL, Resting), UNSET, UNSET, UNSET, UNSET) in states && ClosedTold(states) ==> t in states
  }

  /** After every run the snapshot is the one that what has happened calls for, in all six fields: state
      and count as above, the times at which the last scan was announced and the last rest began, the
      end of the rest exactly while it lasts, and the retry time of the last worker to block exactly
      while a worker is blocked. */
  lemma StatusTellsWhatHappened(t: Told)
    requires ReachableTold(t)
    ensures t.p.status == Shown(t)
  {
    var states := iset x: Told | x.p.status == Shown(x);
    forall x, s | x in states && Legal(x.p, s)
      ensures NextTold(x, s) in states
    {
      ShownNext(x, s);
    }
    assert Told(Program(INITIAL, Resting), UNSET, UNSET, UNSET, UNSET) in states && ClosedTold(states);
    assert t in states;
  }
}
