/** Runs of the pool: critical sections in any order, on a clock that never goes back. What holds
    of every key after every run. */
module PoolRuns {
  import opened Basics
  import opened KeyModel
  import opened PoolSpec

  datatype Sys = Sys(keys: seq<Key>, now: Time)

  /** One critical section; `at` is the clock when the lock is held. Refresh reads its own clock,
      `readAt`, before it takes the lock. */
  datatype Event =
    | Acquire(at: Time)
    | Release(key: nat, extra: int, at: Time)
    | MarkError(key: nat, kind: ErrorKind, at: Time)
    | Refresh(key: nat, data: RateLimitData, readAt: Time, at: Time)
    | RefreshFail(key: nat, at: Time)
    | Drain(id: nat, delta: nat, at: Time)

  predicate Legal(s: Sys, e: Event) {
    && s.now <= e.at
    && match e
       case Acquire(_) => true
       case Drain(_, _, _) => true
       case Release(i, _, _) => i < |s.keys|
       case MarkError(i, _, _) => i < |s.keys|
       case RefreshFail(i, _) => i < |s.keys|
       case Refresh(i, _, readAt, at) => i < |s.keys| && UNSET < readAt <= at
  }

  function Next(s: Sys, e: Event): (s': Sys)
    requires Legal(s, e)
    ensures |s'.keys| == |s.keys| && s'.now == e.at
  {
    var ks := s.keys;
    var after := match e
      case Acquire(at) => AcquireKeys(ks, at)
      case Release(i, extra, _) => ks[i := Settle(ks[i], extra)]
      case MarkError(i, kind, at) => ks[i := Fail(ks[i], kind, at)]
      case Refresh(i, data, readAt, _) => ks[i := KeyModel.Refresh(ks[i], data, readAt)]
      case RefreshFail(i, _) => ks[i := RefreshFailed(ks[i])]
      case Drain(id, delta, _) => DrainFirst(ks, id, delta);
    Sys(after, e.at)
  }

  predicate LegalRun(s: Sys, es: seq<Event>)
    decreases |es|
  {
    es == [] || (Legal(s, es[0]) && LegalRun(Next(s, es[0]), es[1..]))
  }

  function Run(s: Sys, es: seq<Event>): (s': Sys)
    requires LegalRun(s, es)
    ensures |s'.keys| == |s.keys| && s.now <= s'.now
    decreases |es|
  {
    if es == [] then s else Run(Next(s, es[0]), es[1..])
  }

  lemma {:induction false} RunSplit(s: Sys, es: seq<Event>, n: nat)
    requires LegalRun(s, es) && n <= |es|
    ensures LegalRun(s, es[..n]) && LegalRun(Run(s, es[..n]), es[n..])
    ensures Run(Run(s, es[..n]), es[n..]) == Run(s, es)
    decreases |es|
  {
    if n == 0 {
      assert es[0..] == es;
    } else {
      RunSplit(Next(s, es[0]), es[1..], n - 1);
      assert es[..n][1..] == es[1..][..n - 1] && es[n..] == es[1..][n - 1..];
    }
  }

  /** No Acquire of the run hands out key `i`. */
  ghost predicate NeverLeased(s: Sys, es: seq<Event>, i: nat)
    requires LegalRun(s, es)
    decreases |es|
  {
    es == [] ||
    ((es[0].Acquire? ==> AcquireOutcome(s.keys, es[0].at) != Granted(i)) && NeverLeased(Next(s, es[0]), es[1..], i))
  }

  // ----- start-up

  /** What Load and AddEnvKey were told at start-up. */
  datatype StartUp = StartUp(ids: seq<nat>, first: seq<Probe>, second: seq<Probe>, env: Option<Probe>)
  {
    ghost predicate Before(now: Time) {
      && |first| == |second| == |ids|
      && (forall p <- first :: ProbedBefore(p, now))
      && (forall p <- second :: ProbedBefore(p, now))
      && (env.Some? ==> ProbedBefore(env.value, now))
    }

    function Keys(): seq<Key>
      requires |first| == |second| == |ids|
    {
      LoadedKeys(ids, first, second) + if env.Some? then [Probed(NewKey(0), env.value)] else []
    }
  }

  predicate ProbedBefore(p: Probe, now: Time) {
    p.Answered? ==> UNSET < p.at <= now
  }

  // ----- the window bound, and disabling

  /** An enabled key has no cooldown and a window that is set and ends within the hour. */
  predicate KeyInv(k: Key, now: Time) {
    !k.disabled ==> k.cooldownUntil == UNSET && UNSET < k.resetAt <= now + HOUR
  }

  predicate PoolInv(s: Sys) {
    forall i :: 0 <= i < |s.keys| ==> KeyInv(s.keys[i], s.now)
  }

  lemma StartInv(u: StartUp, now: Time)
    requires u.Before(now)
    ensures PoolInv(Sys(u.Keys(), now))
  {
    forall i | 0 <= i < |u.Keys()|
      ensures KeyInv(u.Keys()[i], now)
    {
      if i < |u.ids| {
        assert u.first[i] in u.first && u.second[i] in u.second;
      }
    }
  }

  lemma NextInv(s: Sys, e: Event)
    requires PoolInv(s) && Legal(s, e)
    ensures PoolInv(Next(s, e))
  {
  }

  lemma {:induction false} RunInv(s: Sys, es: seq<Event>)
    requires PoolInv(s) && LegalRun(s, es)
    ensures PoolInv(Run(s, es))
    decreases |es|
  {
    if es != [] {
      NextInv(s, es[0]);
      RunInv(Next(s, es[0]), es[1..]);
    }
  }

  /** In every reachable state of the pool each enabled key has no cooldown and a window that is
      set and at most one hour ahead. */
  lemma ReachableInv(u: StartUp, t0: Time, es: seq<Event>)
    requires u.Before(t0) && LegalRun(Sys(u.Keys(), t0), es)
    ensures PoolInv(Run(Sys(u.Keys(), t0), es))
  {
    StartInv(u, t0);
    RunInv(Sys(u.Keys(), t0), es);
  }

  lemma AcquireSkipsDisabled(ks: seq<Key>, now: Time, i: nat)
    requires i < |ks| && ks[i].disabled
    ensures AcquireOutcome(ks, now) != Granted(i)
    ensures AcquireKeys(ks, now)[i].disabled
  {
    PickIsFirstBest(RollAll(ks, now), now);
  }

  /** No run re-enables a pooled key, and none leases a disabled one. */
  lemma {:induction false} DisabledForever(s: Sys, es: seq<Event>, i: nat)
    requires LegalRun(s, es) && i < |s.keys| && s.keys[i].disabled
    ensures Run(s, es).keys[i].disabled
    ensures NeverLeased(s, es, i)
    decreases |es|
  {
    if es != [] {
      AcquireSkipsDisabled(s.keys, es[0].at, i);
      DisabledForever(Next(s, es[0]), es[1..], i);
    }
  }

  // ----- ErrCount is the trailing failure run

  /** What one interaction with FFLogs told about a key. */
  datatype Signal = Success | LeaseFailure | QueryFailure

  function SignalOf(e: Event, i: nat): seq<Signal> {
    match e
    case Release(k, _, _) => if k == i then [Success] else []
    case MarkError(k, _, _) => if k == i then [LeaseFailure] else []
    case Refresh(k, _, _, _) => if k == i then [Success] else []
    case RefreshFail(k, _) => if k == i then [QueryFailure] else []
    case Acquire(_) => []
    case Drain(_, _, _) => []
  }

  function History(es: seq<Event>, i: nat): seq<Signal> {
    if es == [] then [] else SignalOf(es[0], i) + History(es[1..], i)
  }

  function ProbeSignal(p: Probe): Signal {
    if p.Answered? then Success else QueryFailure
  }

  function StartHistory(u: StartUp, i: nat): seq<Signal>
    requires |u.first| == |u.second| == |u.ids|
  {
    if i < |u.ids| then [ProbeSignal(u.first[i])] + if u.first[i].Unreachable? then [ProbeSignal(u.second[i])] else []
    else if u.env.Some? then [ProbeSignal(u.env.value)]
    else []
  }

  /** The length of the unbroken failing suffix. */
  function FailingSuffix(h: seq<Signal>): (n: nat)
    ensures n <= |h|
    ensures forall j :: |h| - n <= j < |h| ==> !h[j].Success?
    ensures n < |h| ==> h[|h| - n - 1].Success?
  {
    if h == [] || h[|h| - 1].Success? then 0 else 1 + FailingSuffix(h[..|h| - 1])
  }

  /** The length of the suffix of failed rate-limit queries. */
  function FailedQuerySuffix(h: seq<Signal>): nat {
    if h == [] || !h[|h| - 1].QueryFailure? then 0 else 1 + FailedQuerySuffix(h[..|h| - 1])
  }

  predicate ErrorsMatch(k: Key, h: seq<Signal>) {
    && k.errCount == FailingSuffix(h)
    && (!k.disabled ==> k.errCount < FORBIDDEN_ERRORS + FailedQuerySuffix(h))
  }

  lemma SuffixesAfter(h: seq<Signal>, x: Signal)
    ensures FailingSuffix(h + [x]) == if x.Success? then 0 else 1 + FailingSuffix(h)
    ensures FailedQuerySuffix(h + [x]) == if x.QueryFailure? then 1 + FailedQuerySuffix(h) else 0
  {
    assert (h + [x])[..|h|] == h;
  }

  /** What one critical section does to the two fields the failure count is about. */
  lemma ErrorFieldsNext(s: Sys, e: Event, i: nat)
    requires Legal(s, e) && i < |s.keys|
    ensures var k, k' := s.keys[i], Next(s, e).keys[i];
            && (SignalOf(e, i) == [] ==> k'.errCount == k.errCount && k'.disabled == k.disabled)
            && (SignalOf(e, i) == [Success] ==> k'.errCount == 0)
            && (SignalOf(e, i) == [QueryFailure] ==> k'.errCount == k.errCount + 1 && k'.disabled == k.disabled)
            && (SignalOf(e, i) == [LeaseFailure] ==>
                  k'.errCount == k.errCount + 1 && (k'.errCount >= FORBIDDEN_ERRORS ==> k'.disabled))
  {
  }

  lemma ErrorsMatchNext(s: Sys, e: Event, i: nat, h: seq<Signal>)
    requires Legal(s, e) && i < |s.keys| && ErrorsMatch(s.keys[i], h)
    ensures ErrorsMatch(Next(s, e).keys[i], h + SignalOf(e, i))
  {
    var signal := SignalOf(e, i);
    ErrorFieldsNext(s, e, i);
    if signal == [] {
      assert h + signal == h;
    } else {
      SuffixesAfter(h, signal[0]);
    }
  }

  lemma Regroup(a: seq<Signal>, b: seq<Signal>, c: seq<Signal>)
    ensures a + b + c == a + (b + c)
  {
  }

  lemma {:induction false} ErrorsMatchRun(s: Sys, es: seq<Event>, i: nat, h: seq<Signal>)
    requires LegalRun(s, es) && i < |s.keys| && ErrorsMatch(s.keys[i], h)
    ensures ErrorsMatch(Run(s, es).keys[i], h + History(es, i))
    decreases |es|
  {
    if es == [] {
      assert h + History(es, i) == h;
    } else {
      var s1, rest, signal := Next(s, es[0]), es[1..], SignalOf(es[0], i);
      ErrorsMatchNext(s, es[0], i, h);
      ErrorsMatchRun(s1, rest, i, h + signal);
      Regroup(h, signal, History(rest, i));
    }
  }

  lemma StartErrorsMatch(u: StartUp, i: nat)
    requires |u.first| == |u.second| == |u.ids| && i < |u.Keys()|
    ensures ErrorsMatch(u.Keys()[i], StartHistory(u, i))
  {
    if i < |u.ids| && u.first[i].Unreachable? {
      var h := StartHistory(u, i);
      assert h[..1] == [ProbeSignal(u.first[i])];
    }
  }

  /** ErrCount counts the failures since the last success over the key's whole history, and an
      enabled key is below the threshold up to the failed rate-limit queries that end it. */
  lemma ErrCountIsFailingSuffix(u: StartUp, t0: Time, es: seq<Event>, i: nat)
    requires u.Before(t0) && LegalRun(Sys(u.Keys(), t0), es) && i < |u.Keys()|
    ensures var k := Run(Sys(u.Keys(), t0), es).keys[i];
            var h := StartHistory(u, i) + History(es, i);
            && k.errCount == FailingSuffix(h)
            && (!k.disabled ==> k.errCount < FORBIDDEN_ERRORS + FailedQuerySuffix(h))
  {
    StartErrorsMatch(u, i);
    ErrorsMatchRun(Sys(u.Keys(), t0), es, i, StartHistory(u, i));
  }

  /** An authorization failure takes a key out of the pool for good, whatever its count: no run after it
      leases the key. */
  lemma UnauthorizedIsFinal(s: Sys, mark: Event, es: seq<Event>)
    requires mark.MarkError? && mark.kind.Unauthorized? && LegalRun(s, [mark] + es)
    ensures Run(s, [mark] + es).keys[mark.key].disabled
    ensures NeverLeased(s, [mark] + es, mark.key)
  {
    assert ([mark] + es)[1..] == es;
    DisabledForever(Next(s, mark), es, mark.key);
  }

  /** A lease that ends in an error disables its key exactly when the error is an authorization failure or
      the hundredth failure in a row of the key's whole history; in every other case an enabled key stays
      enabled. */
  lemma FailureDisablesExactly(u: StartUp, t0: Time, es: seq<Event>, mark: Event)
    requires u.Before(t0) && LegalRun(Sys(u.Keys(), t0), es)
    requires mark.MarkError? && Legal(Run(Sys(u.Keys(), t0), es), mark)
    ensures var s, i := Run(Sys(u.Keys(), t0), es), mark.key;
            var failures := FailingSuffix(StartHistory(u, i) + History(es, i));
            Next(s, mark).keys[i].disabled <==>
              s.keys[i].disabled || mark.kind.Unauthorized? || failures + 1 >= FORBIDDEN_ERRORS
  {
    ErrCountIsFailingSuffix(u, t0, es, mark.key);
  }

  /** What the comment on ErrCount says: reaching the threshold disables the key. */
  predicate Rule(k: Key) {
    k.errCount >= FORBIDDEN_ERRORS ==> k.disabled
  }

  /** Of all critical sections exactly one breaks it: a failed rate-limit query of an enabled key that
      is one failure short of the threshold. */
  lemma RuleBreaksExactly(s: Sys, e: Event, i: nat)
    requires Legal(s, e) && i < |s.keys| && Rule(s.keys[i])
    ensures Rule(Next(s, e).keys[i]) <==>
            !(e.RefreshFail? && e.key == i && !s.keys[i].disabled && s.keys[i].errCount == FORBIDDEN_ERRORS - 1)
  {
  }

  // ----- a rate-limited key sits out its window

  /** Nothing that could bring points back to key `i` before `reset` has passed. */
  predicate Quiet(e: Event, i: nat, reset: Time) {
    match e
    case Acquire(at) => at <= reset
    case Release(k, extra, _) => k == i ==> extra >= 0
    case Refresh(k, _, _, _) => k != i
    case MarkError(_, _, _) => true
    case RefreshFail(_, _) => true
    case Drain(_, _, _) => true
  }

  predicate UsedUp(k: Key, reset: Time) {
    k.spent >= k.limit && k.resetAt == reset
  }

  lemma QuietStep(s: Sys, e: Event, i: nat, reset: Time)
    requires Legal(s, e) && i < |s.keys| && UsedUp(s.keys[i], reset) && Quiet(e, i, reset)
    ensures UsedUp(Next(s, e).keys[i], reset)
    ensures e.Acquire? ==> AcquireOutcome(s.keys, e.at) != Granted(i)
  {
    if e.Acquire? {
      PickIsFirstBest(RollAll(s.keys, e.at), e.at);
    }
  }

  lemma {:induction false} QuietRun(s: Sys, es: seq<Event>, i: nat, reset: Time)
    requires LegalRun(s, es) && i < |s.keys| && UsedUp(s.keys[i], reset)
    requires forall e <- es :: Quiet(e, i, reset)
    ensures UsedUp(Run(s, es).keys[i], reset)
    ensures NeverLeased(s, es, i)
    decreases |es|
  {
    if es != [] {
      QuietStep(s, es[0], i, reset);
      QuietRun(Next(s, es[0]), es[1..], i, reset);
    }
  }

  /** After a rate-limit mark the key has no points left and is not leased until an Acquire after
      its ResetAt or a successful Reconcile of it; such an Acquire gives the whole window back, less
      its pre-debit if it is this key that it leases. */
  lemma RateLimitedKeySitsOut(s: Sys, mark: Event, es: seq<Event>)
    requires mark.MarkError? && mark.kind.RateLimited? && LegalRun(s, [mark] + es)
    requires forall e <- es :: Quiet(e, mark.key, s.keys[mark.key].resetAt)
    ensures Run(s, [mark] + es).keys[mark.key].Remaining() == 0
    ensures NeverLeased(s, [mark] + es, mark.key)
    ensures var ks, reset := Run(s, [mark] + es).keys, s.keys[mark.key].resetAt;
            forall at :: UNSET < reset < at ==>
              var k := AcquireKeys(ks, at)[mark.key];
              && k.resetAt == at + HOUR
              && k.spent == if AcquireOutcome(ks, at) == Granted(mark.key) then EST_COST else 0
  {
    assert ([mark] + es)[1..] == es;
    QuietRun(Next(s, mark), es, mark.key, s.keys[mark.key].resetAt);
  }

  // ----- what a refresh leaves

  /** A refresh of key `i` that brings a limit. */
  predicate BringsLimit(e: Event, i: nat) {
    Refreshes(e, i) && e.data.limitPerHour >= 1.0
  }

  lemma LimitNext(s: Sys, e: Event, i: nat)
    requires Legal(s, e) && i < |s.keys| && !BringsLimit(e, i)
    ensures Next(s, e).keys[i].limit == s.keys[i].limit
  {
  }

  lemma {:induction false} LimitUnchanged(s: Sys, es: seq<Event>, i: nat)
    requires LegalRun(s, es) && i < |s.keys| && forall e <- es :: !BringsLimit(e, i)
    ensures Run(s, es).keys[i].limit == s.keys[i].limit
    decreases |es|
  {
    if es != [] {
      assert es[0] in es && forall e <- es[1..] :: e in es;
      LimitNext(s, es[0], i);
      LimitUnchanged(Next(s, es[0]), es[1..], i);
    }
  }

  /** The server's limit is taken, and kept until the server gives another one: after a refresh with a
      limit of at least one the key has it, less its fraction, through every run without another such
      refresh of the key; refreshes that report no limit change nothing about it. */
  lemma LimitStays(s: Sys, refresh: Event, es: seq<Event>)
    requires refresh.Refresh? && refresh.data.limitPerHour >= 1.0 && LegalRun(s, [refresh] + es)
    requires forall e <- es :: !BringsLimit(e, refresh.key)
    ensures var limit := Run(s, [refresh] + es).keys[refresh.key].limit;
            limit as real <= refresh.data.limitPerHour < limit as real + 1.0
  {
    assert ([refresh] + es)[1..] == es;
    LimitUnchanged(Next(s, refresh), es, refresh.key);
  }

  // ----- when a key is queried again

  /** How many leases of key `i` the run hands out. */
  function LeasesOf(s: Sys, es: seq<Event>, i: nat): nat
    requires LegalRun(s, es)
    decreases |es|
  {
    if es == [] then 0
    else (if es[0].Acquire? && AcquireOutcome(s.keys, es[0].at) == Granted(i) then 1 else 0) +
         LeasesOf(Next(s, es[0]), es[1..], i)
  }

  predicate Refreshes(e: Event, i: nat) {
    e.Refresh? && e.key == i
  }

  lemma UsesNext(s: Sys, e: Event, i: nat)
    requires Legal(s, e) && i < |s.keys| && !Refreshes(e, i)
    ensures var k, k' := s.keys[i], Next(s, e).keys[i];
            && k'.lastRefreshAt == k.lastRefreshAt
            && k'.usesSinceRefresh == k.usesSinceRefresh + LeasesOf(s, [e], i)
  {
    assert [e][1..] == [];
  }

  lemma {:induction false} UsesAreLeases(s: Sys, es: seq<Event>, i: nat)
    requires LegalRun(s, es) && i < |s.keys| && forall e <- es :: !Refreshes(e, i)
    ensures var k, k' := s.keys[i], Run(s, es).keys[i];
            && k'.lastRefreshAt == k.lastRefreshAt
            && k'.usesSinceRefresh == k.usesSinceRefresh + LeasesOf(s, es, i)
    decreases |es|
  {
    if es != [] {
      assert es[0] in es && forall e <- es[1..] :: e in es;
      assert [es[0]][1..] == [];
      UsesNext(s, es[0], i);
      UsesAreLeases(Next(s, es[0]), es[1..], i);
    }
  }

  /** After a successful query a key is due for the next one exactly when it is still enabled and
      either the refresh interval has passed since that query's clock reading or the threshold
      number of leases has been handed out since. */
  lemma DueExactlyWhenDrifted(s: Sys, refresh: Event, es: seq<Event>, now: Time)
    requires refresh.Refresh? && LegalRun(s, [refresh] + es) && forall e <- es :: !Refreshes(e, refresh.key)
    ensures var k := Run(s, [refresh] + es).keys[refresh.key];
            DueForRefresh(k, now) <==>
              !k.disabled &&
              (now - refresh.readAt >= RECONCILE_EVERY || LeasesOf(Next(s, refresh), es, refresh.key) >= RECONCILE_USES)
  {
    assert ([refresh] + es)[1..] == es;
    UsesAreLeases(Next(s, refresh), es, refresh.key);
  }
}
