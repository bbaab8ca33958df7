/** Workers, the pool and its refreshes together: who holds a lease, what FFLogs has really charged
    under it, and what the pool's estimate knows of that. The bookkeeping kept per key is not part
    of the program; it says what the estimate last started from and what has happened since. */
module LeaseLedger {
  import opened Basics
  import opened KeyModel
  import opened PoolSpec
  import MemberModel
  import PoolRuns

  const BASE_POINTS := 20.0
  const DETAIL_POINTS := 10.0

  /** A worker between Acquire and the end of its member: the points charged by the character and
      best-fights queries, and the fight-detail calls made. */
  datatype Worker = Idle | Holding(key: nat, base: real, calls: nat)

  /** What was charged to a key since some moment, and how many of its leases have ended since. */
  datatype Tally = Tally(points: real, ended: nat)

  const NOTHING := Tally(0.0, 0)

  /** FFLogs' own count of a key: what it had said at the reading behind the estimate and what it has
      charged our workers since, from zero again whenever its window ends. Its windows are an hour
      long, one after the other; the pool's need not agree with them. */
  datatype Meter = Meter(count: real, ends: Time)

  /** `clean`: leased since the last rate-limit mark or refresh. The next five are about the last
      replacement of the estimate, which goes back to a reading (the server's answer for a refresh,
      the end of the key's window for a rollover): the estimate it left, the points charged since the
      reading, the leases ended by errors or panics since the replacement, the leases open at the
      replacement, and the leases that ended between reading and replacement. `late` tallies what
      happens after the key's window has ended and before it is rolled. `carried` is the part of the
      meter that the replacement overlooked, as long as FFLogs' window lasts. */
  datatype Account = Account(clean: bool, baseline: int, truth: real, failed: nat, straddled: nat, lost: nat,
                             late: Tally, meter: Meter, carried: real)

  /** Reconcile, split where it unlocks: the keys still to query, or an answer that has not been
      applied yet, with what has happened on its key since the server gave it, and the meter that
      starts from it. */
  datatype Pass =
    | Resting
    | Asking(due: seq<nat>)
    | Applying(key: nat, data: RateLimitData, since: Time, gap: Tally, told: Meter, due: seq<nat>)

  datatype Office = Office(pool: PoolRuns.Sys, workers: seq<Worker>, accounts: seq<Account>, pass: Pass)

  datatype Move =
    | TryAcquire(w: nat, at: Time)
    | BaseQuery(w: nat, points: real, at: Time)
    | FightDetail(w: nat, points: real, at: Time)
    | Finish(w: nat, at: Time)
    | FailLease(w: nat, kind: ErrorKind, at: Time)
    | NoCharacter(w: nat, at: Time)
    | Panic(w: nat, at: Time)
    | BeginPass(at: Time)
    | Answer(data: RateLimitData, at: Time)
    | QueryLost(at: Time)
    | Apply(readAt: Time, at: Time)
    | EndPass(at: Time)
    | Flushed(id: nat, delta: nat, at: Time)
    | TimePasses(at: Time)

  /** The moves of a worker that holds a lease. */
  predicate ByHolder(m: Move) {
    m.BaseQuery? || m.FightDetail? || m.Finish? || m.FailLease? || m.NoCharacter? || m.Panic?
  }

  predicate Shaped(o: Office) {
    && |o.accounts| == |o.pool.keys|
    && (forall w :: 0 <= w < |o.workers| && o.workers[w].Holding? ==> o.workers[w].key < |o.pool.keys|)
    && (o.pass.Applying? ==> o.pass.key < |o.pool.keys|)
    && (!o.pass.Resting? ==> forall j <- o.pass.due :: j < |o.pool.keys|)
  }

  predicate Legal(o: Office, m: Move) {
    && Shaped(o)
    && o.pool.now <= m.at
    && (ByHolder(m) ==> m.w < |o.workers| && o.workers[m.w].Holding?)
    && match m
       case TryAcquire(w, _) => w < |o.workers| && o.workers[w].Idle?
       case BaseQuery(w, p, _) => o.workers[w].calls == 0 && 0.0 <= p && o.workers[w].base + p <= BASE_POINTS
       case FightDetail(w, p, _) => o.workers[w].calls < MemberModel.ZONES && 0.0 <= p <= DETAIL_POINTS
       case NoCharacter(w, _) => o.workers[w].calls == 0
       case BeginPass(_) => o.pass.Resting?
       case Answer(data, _) =>
         o.pass.Asking? && o.pass.due != [] && data.limitPerHour >= 0.0 && data.spentThisHour >= 0.0
       case QueryLost(_) => o.pass.Asking? && o.pass.due != []
       case Apply(readAt, at) => o.pass.Applying? && o.pass.since <= readAt <= at && UNSET < readAt
       case EndPass(_) => o.pass == Asking([])
       case Flushed(_, _, _) => o.pass.Resting?
       case _ => true
  }

  /** The pool's part of a move, if it has one. */
  function PoolEvent(o: Office, m: Move): (e: Option<PoolRuns.Event>)
    requires Legal(o, m)
    ensures e.Some? ==> PoolRuns.Legal(o.pool, e.value) && e.value.at == m.at
  {
    match m
    case TryAcquire(_, at) => Some(PoolRuns.Acquire(at))
    case Finish(w, at) => Some(PoolRuns.Release(o.workers[w].key, MemberModel.DETAIL_COST * o.workers[w].calls, at))
    case FailLease(w, kind, at) => Some(PoolRuns.MarkError(o.workers[w].key, kind, at))
    case QueryLost(at) => assert o.pass.due[0] in o.pass.due; Some(PoolRuns.RefreshFail(o.pass.due[0], at))
    case Apply(readAt, at) => Some(PoolRuns.Refresh(o.pass.key, o.pass.data, readAt, at))
    case Flushed(id, delta, at) => Some(PoolRuns.Drain(id, delta, at))
    case _ => None
  }

  function PoolMoved(o: Office, m: Move): (p: PoolRuns.Sys)
    requires Legal(o, m)
    ensures |p.keys| == |o.pool.keys| && p.now == m.at
  {
    if PoolEvent(o, m).Some? then PoolRuns.Next(o.pool, PoolEvent(o, m).value) else o.pool.(now := m.at)
  }

  /** The workers after their own part of a move, before a lease is handed out. */
  function WorkersMoved(o: Office, m: Move): (ws: seq<Worker>)
    requires Legal(o, m)
    ensures |ws| == |o.workers|
  {
    if !ByHolder(m) then o.workers
    else
      var h := o.workers[m.w];
      o.workers[m.w := match m
                       case BaseQuery(_, p, _) => h.(base := h.base + p)
                       case FightDetail(_, _, _) => h.(calls := h.calls + 1)
                       case _ => Idle]
  }

  function Granted(o: Office, m: Move): Option<nat> {
    if m.TryAcquire? && AcquireOutcome(o.pool.keys, m.at).Granted?
    then Some(AcquireOutcome(o.pool.keys, m.at).index)
    else None
  }

  // ----- what a move means for one key

  /** The points a move has FFLogs charge to key `i`. */
  function Charged(o: Office, m: Move, i: nat): real
    requires Legal(o, m)
  {
    if (m.BaseQuery? || m.FightDetail?) && o.workers[m.w].key == i then m.points else 0.0
  }

  /** Whether it ends a lease of key `i`, and whether with an error. */
  predicate Ends(o: Office, m: Move, i: nat)
    requires Legal(o, m)
  {
    (m.Finish? || m.FailLease? || m.NoCharacter? || m.Panic?) && o.workers[m.w].key == i
  }

  predicate Fails(o: Office, m: Move, i: nat)
    requires Legal(o, m)
  {
    (m.FailLease? || m.Panic?) && o.workers[m.w].key == i
  }

  function Counted(t: Tally, o: Office, m: Move, i: nat): Tally
    requires Legal(o, m)
  {
    Tally(t.points + Charged(o, m, i), t.ended + if Ends(o, m, i) then 1 else 0)
  }

  predicate Rolls(k: Key, now: Time) {
    k.resetAt != UNSET && now > k.resetAt
  }

  /** A move replaces the estimate of key `i`: a rollover, a refresh or a rate-limit mark. */
  predicate Replaces(o: Office, m: Move, i: nat)
    requires Legal(o, m) && i < |o.pool.keys|
  {
    match m
    case TryAcquire(_, at) => Rolls(o.pool.keys[i], at)
    case Apply(_, _) => o.pass.key == i
    case FailLease(w, kind, _) => kind.RateLimited? && o.workers[w].key == i
    case _ => false
  }

  /** What has happened on the key since the reading that the new estimate goes back to. */
  function SinceReading(o: Office, m: Move, i: nat): Tally
    requires Legal(o, m) && i < |o.pool.keys| && Replaces(o, m, i)
  {
    match m
    case TryAcquire(_, _) => o.accounts[i].late
    case Apply(_, _) => o.pass.gap
    case _ => NOTHING
  }

  predicate CleanAfter(o: Office, m: Move, i: nat)
    requires Legal(o, m) && i < |o.pool.keys|
  {
    if Granted(o, m) == Some(i) then true
    else if Replaces(o, m, i) && !m.TryAcquire? then false
    else o.accounts[i].clean
  }

  function LateAfter(o: Office, m: Move, i: nat): Tally
    requires Legal(o, m) && i < |o.pool.keys|
  {
    if PoolMoved(o, m).keys[i].resetAt != o.pool.keys[i].resetAt then NOTHING
    else if Rolls(o.pool.keys[i], m.at) then Counted(o.accounts[i].late, o, m, i)
    else o.accounts[i].late
  }

  /** A meter at a later moment: its window may have ended, and the ones after it. */
  function Turned(meter: Meter, at: Time): Meter {
    if at < meter.ends then meter else Meter(0.0, meter.ends + HOUR * ((at - meter.ends) / HOUR + 1))
  }

  function Metered(meter: Meter, o: Office, m: Move, i: nat): Meter
    requires Legal(o, m)
  {
    var turned := Turned(meter, m.at);
    turned.(count := turned.count + Charged(o, m, i))
  }

  function MeterAfter(o: Office, m: Move, i: nat): Meter
    requires Legal(o, m) && i < |o.pool.keys|
  {
    if m.Apply? && o.pass.key == i then Turned(o.pass.told, m.at) else Metered(o.accounts[i].meter, o, m, i)
  }

  function Positive(x: real): real {
    if x > 0.0 then x else 0.0
  }

  function AccountMoved(o: Office, m: Move, i: nat): Account
    requires Legal(o, m) && i < |o.pool.keys|
  {
    var a, meter := o.accounts[i], MeterAfter(o, m, i);
    if Replaces(o, m, i) then
      var since := SinceReading(o, m, i);
      var baseline := if m.TryAcquire? then 0 else PoolMoved(o, m).keys[i].spent;
      Account(CleanAfter(o, m, i), baseline, since.points, 0, Open(WorkersMoved(o, m), i), since.ended,
              LateAfter(o, m, i), meter, Positive(meter.count - baseline as real - since.points))
    else
      a.(clean := CleanAfter(o, m, i),
         truth := a.truth + Charged(o, m, i),
         failed := a.failed + (if Fails(o, m, i) then 1 else 0),
         late := LateAfter(o, m, i),
         meter := meter,
         carried := if m.at < a.meter.ends then a.carried else 0.0)
  }

  function PassMoved(o: Office, m: Move): Pass
    requires Legal(o, m)
  {
    match m
    case BeginPass(at) => Asking(DueIndices(o.pool.keys, at))
    case Answer(data, at) =>
      assert o.pass.due[0] in o.pass.due;
      var meter := Turned(o.accounts[o.pass.due[0]].meter, at);
      Applying(o.pass.due[0], data, at, NOTHING, meter.(count := data.spentThisHour), o.pass.due[1..])
    case QueryLost(_) => Asking(o.pass.due[1..])
    case Apply(_, _) => Asking(o.pass.due)
    case EndPass(_) => Resting
    case _ =>
      if o.pass.Applying?
      then o.pass.(gap := Counted(o.pass.gap, o, m, o.pass.key), told := Metered(o.pass.told, o, m, o.pass.key))
      else o.pass
  }

  function WorkersAfter(o: Office, m: Move): (ws: seq<Worker>)
    requires Legal(o, m)
    ensures |ws| == |o.workers|
  {
    var ws := WorkersMoved(o, m);
    if Granted(o, m).Some? then ws[m.w := Holding(Granted(o, m).value, 0.0, 0)] else ws
  }

  function Next(o: Office, m: Move): (o': Office)
    requires Legal(o, m)
    ensures |o'.workers| == |o.workers| && |o'.accounts| == |o'.pool.keys| == |o.pool.keys| && o'.pool.now == m.at
  {
    Office(PoolMoved(o, m), WorkersAfter(o, m),
           seq(|o.pool.keys|, i requires 0 <= i < |o.pool.keys| => AccountMoved(o, m, i)), PassMoved(o, m))
  }

  predicate LegalRun(o: Office, ms: seq<Move>)
    decreases |ms|
  {
    ms == [] || (Legal(o, ms[0]) && LegalRun(Next(o, ms[0]), ms[1..]))
  }

  function Run(o: Office, ms: seq<Move>): (o': Office)
    requires LegalRun(o, ms)
    ensures |o'.workers| == |o.workers| && |o'.pool.keys| == |o.pool.keys|
    ensures |o.accounts| == |o.pool.keys| ==> |o'.accounts| == |o'.pool.keys|
    decreases |ms|
  {
    if ms == [] then o else Run(Next(o, ms[0]), ms[1..])
  }

  // ----- the states a program gets to

  predicate AnswersNonNegative(p: Probe) {
    p.Answered? ==> p.data.limitPerHour >= 0.0 && p.data.spentThisHour >= 0.0
  }

  /** A start-up that FFLogs told no negative numbers. */
  ghost predicate StartsOk(u: PoolRuns.StartUp, t0: Time) {
    && u.Before(t0)
    && (forall p <- u.first :: AnswersNonNegative(p))
    && (forall p <- u.second :: AnswersNonNegative(p))
    && (u.env.Some? ==> AnswersNonNegative(u.env.value))
  }

  /** After start-up: nobody holds a lease, and every account starts from the estimate as it is.
      `ends` says when FFLogs' windows end. */
  function Opened(u: PoolRuns.StartUp, t0: Time, n: nat, ends: seq<Time>): Office
    requires |u.first| == |u.second| == |u.ids| && |ends| == |u.Keys()|
  {
    var ks := u.Keys();
    Office(PoolRuns.Sys(ks, t0), seq(n, _ => Idle),
           seq(|ks|, i requires 0 <= i < |ks| => Unused(ks[i], ends[i])), Resting)
  }

  function Unused(k: Key, end: Time): Account {
    Account(false, k.spent, 0.0, 0, 0, 0, NOTHING, Meter(k.spent as real, end), 0.0)
  }

  /** A set of states that moves do not leave. */
  ghost predicate Closed(states: iset<Office>) {
    forall o, m :: o in states && Legal(o, m) ==> Next(o, m) in states
  }

  ghost predicate HasStarts(states: iset<Office>, n: nat) {
    forall u: PoolRuns.StartUp, t0: Time, ends: seq<Time> ::
      StartsOk(u, t0) && |ends| == |u.Keys()| ==> Opened(u, t0, n, ends) in states
  }

  /** In every such set that holds the states after start-up with `n` workers. */
  ghost predicate Reachable(o: Office, n: nat) {
    forall states: iset<Office> :: HasStarts(states, n) && Closed(states) ==> o in states
  }

  lemma ReachNext(o: Office, n: nat, m: Move)
    requires Reachable(o, n) && Legal(o, m)
    ensures Reachable(Next(o, m), n)
  {
  }

  /** Every run from start-up goes through reachable states only. */
  lemma {:induction false} RunsReach(o: Office, n: nat, ms: seq<Move>)
    requires Reachable(o, n) && LegalRun(o, ms)
    ensures Reachable(Run(o, ms), n)
    decreases |ms|
  {
    if ms != [] {
      ReachNext(o, n, ms[0]);
      RunsReach(Next(o, ms[0]), n, ms[1..]);
    }
  }

  // ----- open leases, and what they may still be charged beyond their settlement

  function Open(ws: seq<Worker>, k: nat): nat {
    if ws == [] then 0 else Open(ws[1..], k) + if ws[0].Holding? && ws[0].key == k then 1 else 0
  }

  /** The most by which the charges still to come under a lease can exceed what its settlement will
      add to the estimate: the base queries not made yet, less the details already made. */
  function Excess(h: Worker, k: nat): real {
    if h.Holding? && h.key == k
    then (if h.calls == 0 then BASE_POINTS - h.base else 0.0) - DETAIL_POINTS * h.calls as real
    else 0.0
  }

  function Excesses(ws: seq<Worker>, k: nat): real {
    if ws == [] then 0.0 else Excesses(ws[1..], k) + Excess(ws[0], k)
  }

  lemma {:induction false} AfterUpdate(ws: seq<Worker>, w: nat, h: Worker, k: nat)
    requires w < |ws|
    ensures Open(ws[w := h], k) == Open(ws, k) - (if ws[w].Holding? && ws[w].key == k then 1 else 0)
                                   + (if h.Holding? && h.key == k then 1 else 0)
    ensures Excesses(ws[w := h], k) == Excesses(ws, k) - Excess(ws[w], k) + Excess(h, k)
  {
    if w == 0 {
      assert ws[w := h][1..] == ws[1..];
    } else {
      assert ws[w := h][1..] == ws[1..][w - 1 := h];
      AfterUpdate(ws[1..], w - 1, h, k);
    }
  }

  predicate WorkerOk(h: Worker) {
    h.Holding? ==> 0.0 <= h.base <= BASE_POINTS && h.calls <= MemberModel.ZONES
  }

  predicate WorkersOk(ws: seq<Worker>) {
    forall w :: 0 <= w < |ws| ==> WorkerOk(ws[w])
  }

  lemma {:induction false} SumsBounded(ws: seq<Worker>, k: nat)
    requires WorkersOk(ws)
    ensures Open(ws, k) <= |ws|
    ensures -40.0 * Open(ws, k) as real <= Excesses(ws, k) <= 20.0 * Open(ws, k) as real
  {
    if ws != [] {
      SumsBounded(ws[1..], k);
    }
  }

  /** None of the first `n` workers holds a lease of key `k`. */
  predicate NoneHolds(ws: seq<Worker>, k: nat, n: nat)
    requires n <= |ws|
  {
    forall w :: 0 <= w < n ==> !(ws[w].Holding? && ws[w].key == k)
  }

  lemma {:induction false} NoneOpen(ws: seq<Worker>, k: nat)
    requires NoneHolds(ws, k, |ws|)
    ensures Open(ws, k) == 0 && Excesses(ws, k) == 0.0
  {
    if ws != [] {
      NoneOpen(ws[1..], k);
    }
  }

  lemma WorkersStayOk(o: Office, m: Move)
    requires WorkersOk(o.workers) && Legal(o, m)
    ensures WorkersOk(Next(o, m).workers)
  {
  }

  /** Open leases of key `i` and their excesses, after a move. */
  lemma SumsNext(o: Office, m: Move, i: nat)
    requires WorkersOk(o.workers) && Legal(o, m)
    ensures var got := Granted(o, m) == Some(i);
            var excess := Excesses(Next(o, m).workers, i) - Excesses(o.workers, i);
            && Open(Next(o, m).workers, i) ==
               Open(o.workers, i) + (if got then 1 else 0) - (if Ends(o, m, i) then 1 else 0)
            && (got ==> excess == BASE_POINTS)
            && (Ends(o, m, i) ==> excess == -Excess(o.workers[m.w], i))
            && (m.FightDetail? ==> excess <= -Charged(o, m, i))
            && (!got && !Ends(o, m, i) && !m.FightDetail? ==> excess == -Charged(o, m, i))
    ensures ByHolder(m) && o.workers[m.w].key == i ==> -40.0 <= Excess(o.workers[m.w], i) <= 20.0
  {
    if ByHolder(m) {
      AfterUpdate(o.workers, m.w, WorkersMoved(o, m)[m.w], i);
    } else if Granted(o, m).Some? {
      AfterUpdate(o.workers, m.w, Holding(Granted(o, m).value, 0.0, 0), i);
    }
  }

  // ----- the estimate of one key

  predicate KeyOk(k: Key) {
    k.limit >= 0 && k.spent >= 0
  }

  /** What one Acquire does to the points of one key. */
  lemma AcquireOnKey(ks: seq<Key>, now: Time, i: nat)
    requires i < |ks|
    ensures var k := ks[i];
            var k' := AcquireKeys(ks, now)[i];
            var before := if Rolls(k, now) then 0 else k.spent;
            var got := AcquireOutcome(ks, now) == PoolSpec.Granted(i);
            && k'.limit == k.limit
            && k'.spent == before + (if got then EST_COST else 0)
            && (got ==> k'.spent <= k.limit - SAFETY_BUDGET)
            && k'.resetAt == if Rolls(k, now) then now + HOUR else k.resetAt
  {
    PickIsFirstBest(RollAll(ks, now), now);
  }

  /** What the other critical sections do to them. */
  lemma EventOnKey(s: PoolRuns.Sys, e: PoolRuns.Event, i: nat)
    requires PoolRuns.Legal(s, e) && i < |s.keys| && !e.Acquire?
    ensures var k, k' := s.keys[i], PoolRuns.Next(s, e).keys[i];
            match e
            case Release(j, extra, _) => k' == if j == i then Settle(k, extra) else k
            case MarkError(j, kind, at) => k' == if j == i then Fail(k, kind, at) else k
            case Refresh(j, data, readAt, _) => k' == if j == i then Refresh(k, data, readAt) else k
            case _ => k'.limit == k.limit && k'.spent == k.spent && k'.resetAt == k.resetAt
  {
  }

  /** A move that does not replace the estimate of a key adds its pre-debit or its settlement. */
  lemma EstimateNext(o: Office, m: Move, i: nat)
    requires Legal(o, m) && i < |o.pool.keys| && KeyOk(o.pool.keys[i])
    ensures var k, k' := o.pool.keys[i], Next(o, m).pool.keys[i];
            && (!(m.Apply? && o.pass.key == i) ==> k'.limit == k.limit)
            && (!Replaces(o, m, i) ==>
                  k'.spent == k.spent
                    + (if Granted(o, m) == Some(i) then EST_COST else 0)
                    + (if m.Finish? && Ends(o, m, i) then MemberModel.DETAIL_COST * o.workers[m.w].calls else 0))
  {
    if m.TryAcquire? {
      AcquireOnKey(o.pool.keys, m.at, i);
    } else if PoolEvent(o, m).Some? {
      EventOnKey(o.pool, PoolEvent(o, m).value, i);
    }
  }

  lemma KeyStaysOk(o: Office, m: Move, i: nat)
    requires Legal(o, m) && i < |o.pool.keys| && KeyOk(o.pool.keys[i]) && AnswerOk(o.pass)
    ensures KeyOk(Next(o, m).pool.keys[i])
  {
    if m.TryAcquire? {
      AcquireOnKey(o.pool.keys, m.at, i);
    } else if PoolEvent(o, m).Some? {
      EventOnKey(o.pool, PoolEvent(o, m).value, i);
    }
  }

  predicate AnswerOk(p: Pass) {
    p.Applying? ==> p.data.limitPerHour >= 0.0 && p.data.spentThisHour >= 0.0
  }

  // ----- the reserve

  /** The estimate of a clean key, plus what its open leases may still add, stays this far from
      its limit. */
  predicate ReserveKept(k: Key, a: Account, open: nat, workers: nat) {
    a.clean ==> k.spent + 40 * open <= k.limit - SAFETY_BUDGET + 40 * workers
  }

  predicate ReserveKeptIn(o: Office, i: nat)
    requires i < |o.pool.keys| == |o.accounts|
  {
    ReserveKept(o.pool.keys[i], o.accounts[i], Open(o.workers, i), |o.workers|)
  }

  lemma ReserveAfterAcquire(o: Office, m: Move, i: nat)
    requires WorkersOk(o.workers) && Legal(o, m) && m.TryAcquire?
    requires i < |o.pool.keys| && KeyOk(o.pool.keys[i]) && ReserveKeptIn(o, i)
    ensures ReserveKeptIn(Next(o, m), i)
  {
    SumsNext(o, m, i);
    WorkersStayOk(o, m);
    SumsBounded(Next(o, m).workers, i);
    AcquireOnKey(o.pool.keys, m.at, i);
  }

  lemma ReserveNext(o: Office, m: Move, i: nat)
    requires WorkersOk(o.workers) && Legal(o, m) && i < |o.pool.keys| && KeyOk(o.pool.keys[i]) && ReserveKeptIn(o, i)
    ensures ReserveKeptIn(Next(o, m), i)
  {
    if m.TryAcquire? {
      ReserveAfterAcquire(o, m, i);
    } else {
      SumsNext(o, m, i);
      EstimateNext(o, m, i);
    }
  }

  // ----- the drift

  /** The points charged since the reading beyond the estimate's growth since the replacement. */
  function Drift(k: Key, a: Account): real {
    a.truth - (k.spent - a.baseline) as real
  }

  /** The drift of key `i`, not counting what failed leases are allowed, if every open lease is
      charged all it can be and settles. */
  function Outlook(o: Office, i: nat): real
    requires i < |o.pool.keys| == |o.accounts|
  {
    Drift(o.pool.keys[i], o.accounts[i]) - 40.0 * o.accounts[i].failed as real + Excesses(o.workers, i)
  }

  /** Until the estimate is replaced, no move improves the outlook of a key. */
  lemma OutlookNext(o: Office, m: Move, i: nat)
    requires WorkersOk(o.workers) && Legal(o, m) && i < |o.pool.keys| && KeyOk(o.pool.keys[i]) && !Replaces(o, m, i)
    ensures Outlook(Next(o, m), i) <= Outlook(o, i)
    ensures m.BaseQuery? ==> Outlook(Next(o, m), i) == Outlook(o, i)
    ensures m.Finish? && (o.workers[m.w].calls == 0 ==> o.workers[m.w].base == BASE_POINTS) ==>
              Outlook(Next(o, m), i) == Outlook(o, i)
  {
    SumsNext(o, m, i);
    EstimateNext(o, m, i);
  }

  /** A replacement starts it from what its reading missed and from the leases it leaves open. */
  lemma OutlookReplaced(o: Office, m: Move, i: nat)
    requires WorkersOk(o.workers) && Legal(o, m) && i < |o.pool.keys| && Replaces(o, m, i)
    ensures Outlook(Next(o, m), i) == SinceReading(o, m, i).points + Excesses(WorkersMoved(o, m), i)
  {
    SumsNext(o, m, i);
    if m.TryAcquire? {
      AcquireOnKey(o.pool.keys, m.at, i);
    }
  }

  /** Whatever was charged since a reading, and may still be charged to leases open now, is 20 points
      for each of these and 60 for each lease that has ended. */
  predicate Balanced(t: Tally, ws: seq<Worker>, k: nat) {
    t.points + Excesses(ws, k) <= 20.0 * Open(ws, k) as real + 60.0 * t.ended as real
  }

  lemma BalancedNext(t: Tally, o: Office, m: Move, i: nat)
    requires WorkersOk(o.workers) && Legal(o, m) && Balanced(t, o.workers, i)
    ensures Balanced(Counted(t, o, m, i), Next(o, m).workers, i)
  {
    SumsNext(o, m, i);
  }

  predicate LateOk(k: Key, a: Account, ws: seq<Worker>, i: nat, now: Time) {
    Balanced(a.late, ws, i) && (!Rolls(k, now) ==> a.late == NOTHING)
  }

  predicate DriftCovered(o: Office, i: nat)
    requires i < |o.pool.keys| == |o.accounts|
  {
    var a := o.accounts[i];
    && Outlook(o, i) <= 20.0 * a.straddled as real + 60.0 * a.lost as real
    && a.straddled <= |o.workers|
  }

  predicate LateOkIn(o: Office, i: nat)
    requires i < |o.pool.keys| == |o.accounts|
  {
    LateOk(o.pool.keys[i], o.accounts[i], o.workers, i, o.pool.now)
  }

  predicate PassOk(p: Pass, ws: seq<Worker>) {
    p.Applying? ==>
      Balanced(p.gap, ws, p.key) && 0.0 <= p.gap.points && p.told.count <= p.data.spentThisHour + p.gap.points
  }

  /** A key's late tally is empty while its window lasts. */
  lemma LateUnlessEnded(o: Office, m: Move, i: nat)
    requires Legal(o, m) && i < |o.pool.keys| && !Rolls(PoolMoved(o, m).keys[i], m.at)
    requires !Rolls(o.pool.keys[i], o.pool.now) ==> o.accounts[i].late == NOTHING
    ensures LateAfter(o, m, i) == NOTHING
  {
  }

  lemma LateNext(o: Office, m: Move, i: nat)
    requires WorkersOk(o.workers) && Legal(o, m) && i < |o.pool.keys| && LateOkIn(o, i)
    ensures LateOkIn(Next(o, m), i)
  {
    WorkersStayOk(o, m);
    SumsBounded(Next(o, m).workers, i);
    BalancedNext(o.accounts[i].late, o, m, i);
    assert Next(o, m).accounts[i].late == LateAfter(o, m, i);
    if !Rolls(PoolMoved(o, m).keys[i], m.at) {
      LateUnlessEnded(o, m, i);
    }
  }

  lemma PassNext(o: Office, m: Move)
    requires WorkersOk(o.workers) && Legal(o, m) && PassOk(o.pass, o.workers) && AnswerOk(o.pass)
    ensures PassOk(Next(o, m).pass, Next(o, m).workers) && AnswerOk(Next(o, m).pass)
  {
    WorkersStayOk(o, m);
    var p := Next(o, m).pass;
    if m.Answer? {
      SumsBounded(Next(o, m).workers, p.key);
    } else if p.Applying? {
      BalancedNext(o.pass.gap, o, m, o.pass.key);
    }
  }

  lemma DriftUnlessReplaced(o: Office, m: Move, i: nat)
    requires WorkersOk(o.workers) && Legal(o, m) && i < |o.pool.keys| && KeyOk(o.pool.keys[i])
    requires DriftCovered(o, i) && !Replaces(o, m, i)
    ensures DriftCovered(Next(o, m), i)
  {
    OutlookNext(o, m, i);
  }

  /** What a replacement starts from is covered: the tally it takes over was kept balanced. */
  lemma ReplacementBalanced(o: Office, m: Move, i: nat)
    requires WorkersOk(o.workers) && Legal(o, m) && i < |o.pool.keys|
    requires LateOkIn(o, i) && PassOk(o.pass, o.workers) && Replaces(o, m, i)
    ensures Balanced(SinceReading(o, m, i), WorkersMoved(o, m), i)
    ensures Open(WorkersMoved(o, m), i) <= |o.workers|
  {
    SumsBounded(WorkersMoved(o, m), i);
  }

  lemma DriftIfReplaced(o: Office, m: Move, i: nat)
    requires WorkersOk(o.workers) && Legal(o, m) && i < |o.pool.keys|
    requires LateOkIn(o, i) && PassOk(o.pass, o.workers) && Replaces(o, m, i)
    ensures DriftCovered(Next(o, m), i)
  {
    OutlookReplaced(o, m, i);
    ReplacementBalanced(o, m, i);
  }

  // ----- FFLogs' own count

  /** FFLogs has counted no more than the estimate started from, the charges since, and what the
      replacement overlooked. */
  predicate MeterOk(a: Account) {
    && 0 <= a.baseline && 0.0 <= a.truth && 0.0 <= a.late.points && 0.0 <= a.carried
    && a.meter.count <= a.carried + a.baseline as real + a.truth
  }

  lemma MeterIfReplaced(o: Office, m: Move, i: nat)
    requires Legal(o, m) && i < |o.pool.keys| && KeyOk(PoolMoved(o, m).keys[i]) && Replaces(o, m, i)
    requires MeterOk(o.accounts[i]) && PassOk(o.pass, o.workers)
    ensures MeterOk(AccountMoved(o, m, i))
  {
  }

  lemma MeterUnlessReplaced(o: Office, m: Move, i: nat)
    requires Legal(o, m) && i < |o.pool.keys| && MeterOk(o.accounts[i]) && !Replaces(o, m, i)
    ensures MeterOk(AccountMoved(o, m, i))
  {
  }

  lemma MeterNext(o: Office, m: Move, i: nat)
    requires Legal(o, m) && i < |o.pool.keys| && KeyOk(o.pool.keys[i])
    requires MeterOk(o.accounts[i]) && PassOk(o.pass, o.workers) && AnswerOk(o.pass)
    ensures MeterOk(Next(o, m).accounts[i])
  {
    KeyStaysOk(o, m, i);
    if Replaces(o, m, i) {
      MeterIfReplaced(o, m, i);
    } else {
      MeterUnlessReplaced(o, m, i);
    }
  }

  // ----- every run

  predicate KeyInv(o: Office, i: nat)
    requires i < |o.pool.keys| == |o.accounts|
  {
    && KeyOk(o.pool.keys[i]) && ReserveKeptIn(o, i) && LateOkIn(o, i) && DriftCovered(o, i)
    && MeterOk(o.accounts[i])
  }

  predicate Inv(o: Office) {
    && Shaped(o) && WorkersOk(o.workers) && PassOk(o.pass, o.workers) && AnswerOk(o.pass)
    && forall i: nat :: i < |o.pool.keys| ==> KeyInv(o, i)
  }

  lemma ShapedNext(o: Office, m: Move)
    requires Legal(o, m)
    ensures Shaped(Next(o, m))
  {
    if m.Answer? || m.QueryLost? {
      assert o.pass.due[0] in o.pass.due && forall j <- o.pass.due[1..] :: j in o.pass.due;
    }
  }

  lemma InvNext(o: Office, m: Move)
    requires Inv(o) && Legal(o, m)
    ensures Inv(Next(o, m))
  {
    ShapedNext(o, m);
    WorkersStayOk(o, m);
    PassNext(o, m);
    forall i: nat | i < |o.pool.keys|
      ensures KeyInv(Next(o, m), i)
    {
      assert KeyInv(o, i);
      KeyStaysOk(o, m, i);
      ReserveNext(o, m, i);
      LateNext(o, m, i);
      MeterNext(o, m, i);
      if Replaces(o, m, i) {
        DriftIfReplaced(o, m, i);
      } else {
        DriftUnlessReplaced(o, m, i);
      }
    }
  }

  lemma StartKeysOk(u: PoolRuns.StartUp, t0: Time)
    requires StartsOk(u, t0)
    ensures forall i :: 0 <= i < |u.Keys()| ==> KeyOk(u.Keys()[i])
  {
    forall i | 0 <= i < |u.Keys()|
      ensures KeyOk(u.Keys()[i])
    {
      if i < |u.ids| {
        assert u.first[i] in u.first && u.second[i] in u.second;
      }
    }
  }

  lemma InvOpened(u: PoolRuns.StartUp, t0: Time, n: nat, ends: seq<Time>)
    requires StartsOk(u, t0) && |ends| == |u.Keys()|
    ensures Inv(Opened(u, t0, n, ends))
  {
    StartKeysOk(u, t0);
    var o := Opened(u, t0, n, ends);
    forall i: nat | i < |o.pool.keys|
      ensures KeyInv(o, i)
    {
      NoneOpen(o.workers, i);
    }
  }

  lemma ReachableInv(o: Office, n: nat)
    requires Reachable(o, n)
    ensures Inv(o) && |o.workers| == n
  {
    var states := iset x: Office | Inv(x) && |x.workers| == n;
    forall u: PoolRuns.StartUp, t0: Time, ends: seq<Time> | StartsOk(u, t0) && |ends| == |u.Keys()|
      ensures Opened(u, t0, n, ends) in states
    {
      InvOpened(u, t0, n, ends);
    }
    forall x, m | x in states && Legal(x, m)
      ensures Next(x, m) in states
    {
      InvNext(x, m);
    }
    assert HasStarts(states, n) && Closed(states);
    assert o in states;
  }

  // ----- the bounds

  /** The reserve: on every run of `n` workers, a key leased since its last rate-limit mark or
      refresh keeps its estimate, with 40 points added for each open lease, at least
      SafetyBudget - 40n below its limit. Eight workers always leave 180 points. */
  lemma ReserveBound(o: Office, n: nat, i: nat)
    requires Reachable(o, n) && i < |o.pool.keys|
    ensures |o.accounts| == |o.pool.keys|
    ensures var k := o.pool.keys[i];
            o.accounts[i].clean ==>
              && k.spent + 40 * Open(o.workers, i) <= k.limit - SAFETY_BUDGET + 40 * n
              && (n <= 8 ==> k.Remaining() >= 180 + 40 * Open(o.workers, i))
  {
    ReachableInv(o, n);
    assert KeyInv(o, i);
  }

  /** The drift: what FFLogs has charged since the reading behind a key's estimate (the server's
      answer for a refresh, the end of the window for a rollover) exceeds the estimate's growth by at
      most 40 points for each open lease and each lease ended by an error or a panic, 20 for each
      lease that was open when the estimate was replaced, and 60 for each that ended between reading
      and replacement. */
  lemma DriftBound(o: Office, n: nat, i: nat)
    requires Reachable(o, n) && i < |o.pool.keys|
    ensures |o.accounts| == |o.pool.keys|
    ensures var a := o.accounts[i];
            Drift(o.pool.keys[i], a) <=
              40.0 * (Open(o.workers, i) + a.failed) as real + 20.0 * a.straddled as real + 60.0 * a.lost as real
  {
    ReachableInv(o, n);
    assert KeyInv(o, i);
    SumsBounded(o.workers, i);
  }

  /** Reserve and drift together: FFLogs' own count of a key leased since its last rate-limit mark or
      refresh stays below the limit by SafetyBudget, but for 40 points a worker, the terms of the
      drift, and what the last replacement overlooked. With at most eight workers that is 20 points
      below the limit when no lease has failed or been lost and nothing was overlooked. */
  lemma LimitHeld(o: Office, n: nat, i: nat)
    requires Reachable(o, n) && i < |o.pool.keys|
    ensures |o.accounts| == |o.pool.keys|
    ensures var k, a := o.pool.keys[i], o.accounts[i];
            a.clean ==>
              && a.meter.count <=
                 (k.limit - SAFETY_BUDGET + 40 * n + 20 * a.straddled + 40 * a.failed + 60 * a.lost) as real + a.carried
              && (n <= 8 ==> a.meter.count <= (k.limit - EST_COST + 40 * a.failed + 60 * a.lost) as real + a.carried)
  {
    ReachableInv(o, n);
    assert KeyInv(o, i);
    SumsBounded(o.workers, i);
  }

  /** What a replacement overlooks of FFLogs' own count: nothing for a refresh, whatever FFLogs'
      windows; for a rollover exactly what FFLogs counts in its window and has not charged since
      the end of the key's. */
  lemma CarriedExactly(o: Office, n: nat, m: Move, i: nat)
    requires Reachable(o, n) && Legal(o, m) && i < |o.pool.keys| && Replaces(o, m, i)
    ensures var carried := Next(o, m).accounts[i].carried;
            && (m.Apply? ==> carried == 0.0)
            && (m.TryAcquire? ==>
                  carried == Positive(Turned(o.accounts[i].meter, m.at).count - o.accounts[i].late.points))
  {
    ReachableInv(o, n);
  }

  // ----- exactly when 40 points for each open or failed lease are enough

  predicate PlainBound(o: Office, i: nat)
    requires i < |o.pool.keys| == |o.accounts|
  {
    Drift(o.pool.keys[i], o.accounts[i]) <= 40.0 * (Open(o.workers, i) + o.accounts[i].failed) as real
  }

  /** No move of the run replaces the estimate of key `i`. */
  predicate Unreplaced(o: Office, ms: seq<Move>, i: nat)
    requires LegalRun(o, ms) && i < |o.pool.keys|
    decreases |ms|
  {
    ms == [] || (!Replaces(o, ms[0], i) && Unreplaced(Next(o, ms[0]), ms[1..], i))
  }

  lemma {:induction false} OutlookRun(o: Office, ms: seq<Move>, i: nat)
    requires Inv(o) && LegalRun(o, ms) && i < |o.pool.keys| && Unreplaced(o, ms, i)
    ensures Inv(Run(o, ms)) && Outlook(Run(o, ms), i) <= Outlook(o, i)
    decreases |ms|
  {
    if ms != [] {
      assert KeyInv(o, i);
      OutlookNext(o, ms[0], i);
      InvNext(o, ms[0]);
      OutlookRun(Next(o, ms[0]), ms[1..], i);
    }
  }

  lemma UnreplacedStep(o: Office, m: Move, rest: seq<Move>, i: nat)
    requires Legal(o, m) && i < |o.pool.keys| && !Replaces(o, m, i)
    requires LegalRun(Next(o, m), rest) && Unreplaced(Next(o, m), rest, i)
    ensures LegalRun(o, [m] + rest) && Run(o, [m] + rest) == Run(Next(o, m), rest)
    ensures Unreplaced(o, [m] + rest, i)
  {
    assert ([m] + rest)[1..] == rest;
  }

  /** The base queries of a lease are not all made. */
  predicate CanAsk(h: Worker) {
    h.Holding? && h.calls == 0 && h.base < BASE_POINTS
  }

  predicate Settleable(o: Office, i: nat) {
    Shaped(o) && WorkersOk(o.workers) && i < |o.pool.keys| && KeyOk(o.pool.keys[i])
  }

  /** A worker that holds a lease makes its base queries in full, or settles if they are made. */
  function SettleMove(o: Office, w: nat): Move
    requires w < |o.workers| && o.workers[w].Holding?
  {
    if CanAsk(o.workers[w]) then BaseQuery(w, BASE_POINTS - o.workers[w].base, o.pool.now) else Finish(w, o.pool.now)
  }

  lemma SettleStep(o: Office, i: nat, w: nat)
    requires Settleable(o, i) && w < |o.workers| && o.workers[w].Holding? && o.workers[w].key == i
    ensures var m := SettleMove(o, w);
            var h := if CanAsk(o.workers[w]) then o.workers[w].(base := BASE_POINTS) else Idle;
            && Legal(o, m) && !Replaces(o, m, i) && Settleable(Next(o, m), i)
            && Next(o, m).workers == o.workers[w := h]
            && Next(o, m).accounts[i].failed == o.accounts[i].failed && Outlook(Next(o, m), i) == Outlook(o, i)
  {
    var m := SettleMove(o, w);
    assert WorkerOk(o.workers[w]);
    ShapedNext(o, m);
    WorkersStayOk(o, m);
    EstimateNext(o, m, i);
    OutlookNext(o, m, i);
  }

  /** Every lease of key `i` from worker `w` on makes its base queries in full and is settled. */
  lemma {:induction false} SettleFrom(o: Office, i: nat, w: nat) returns (ms: seq<Move>)
    requires Settleable(o, i) && w <= |o.workers| && NoneHolds(o.workers, i, w)
    ensures LegalRun(o, ms) && Unreplaced(o, ms, i)
    ensures |Run(o, ms).accounts| == |o.pool.keys| && Run(o, ms).accounts[i].failed == o.accounts[i].failed
    ensures NoneHolds(Run(o, ms).workers, i, |o.workers|) && Outlook(Run(o, ms), i) == Outlook(o, i)
    decreases |o.workers| - w, w < |o.workers| && CanAsk(o.workers[w])
  {
    if w == |o.workers| {
      ms := [];
    } else if !(o.workers[w].Holding? && o.workers[w].key == i) {
      ms := SettleFrom(o, i, w + 1);
    } else {
      var m := SettleMove(o, w);
      SettleStep(o, i, w);
      var rest := SettleFrom(Next(o, m), i, if m.Finish? then w + 1 else w);
      UnreplacedStep(o, m, rest, i);
      ms := [m] + rest;
    }
  }

  /** Until the estimate of the key is next replaced, every continuation keeps the plain bound. */
  ghost predicate PlainFrom(o: Office, i: nat)
    requires i < |o.pool.keys| == |o.accounts|
  {
    forall ms :: LegalRun(o, ms) && Unreplaced(o, ms, i) ==> PlainBound(Run(o, ms), i)
  }

  /** Which is the case exactly when the key's outlook is not positive. */
  lemma PlainExactly(o: Office, i: nat)
    requires Inv(o) && i < |o.pool.keys|
    ensures PlainFrom(o, i) <==> Outlook(o, i) <= 0.0
  {
    if Outlook(o, i) <= 0.0 {
      forall ms | LegalRun(o, ms) && Unreplaced(o, ms, i)
        ensures PlainBound(Run(o, ms), i)
      {
        OutlookRun(o, ms, i);
        SumsBounded(Run(o, ms).workers, i);
      }
    } else {
      assert KeyInv(o, i);
      var ms := SettleFrom(o, i, 0);
      NoneOpen(Run(o, ms).workers, i);
      assert !PlainBound(Run(o, ms), i);
    }
  }

  /** The charges that a replacement does not know of, and what the leases it leaves open can still be
      charged beyond their settlements. */
  function Overlooked(o: Office, m: Move, i: nat): real
    requires Legal(o, m) && i < |o.pool.keys| && Replaces(o, m, i)
  {
    SinceReading(o, m, i).points + Excesses(WorkersMoved(o, m), i)
  }

  /** So after a refresh, a rollover or a rate-limit mark, 40 points for each open or failed lease
      cover every continuation until the next one exactly when what it overlooks does not add up
      to more than zero. */
  lemma PlainUntilReplaced(o: Office, n: nat, i: nat)
    requires Reachable(o, n) && i < |o.pool.keys|
    ensures forall m :: Legal(o, m) && Replaces(o, m, i) ==> (PlainFrom(Next(o, m), i) <==> Overlooked(o, m, i) <= 0.0)
  {
    ReachableInv(o, n);
    forall m | Legal(o, m) && Replaces(o, m, i)
      ensures PlainFrom(Next(o, m), i) <==> Overlooked(o, m, i) <= 0.0
    {
      InvNext(o, m);
      OutlookReplaced(o, m, i);
      PlainExactly(Next(o, m), i);
    }
  }
}
