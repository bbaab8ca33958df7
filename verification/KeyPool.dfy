/** The pool as it is in memory: shared KeyState objects updated in place. Every method is one
    critical section of `Pool.mu` and is proved to do to the pool's value what the
    specification functions of KeyModel and PoolSpec say; its other clauses say what that is for the
    fields it changes. */
module KeyPool {
  import opened Basics
  import opened KeyModel
  import opened PoolSpec

  class KeyState {
    var id: nat
    var limit: int
    var spentEstimate: int
    var resetAt: Time
    var lastRefreshAt: Time
    var usesSinceRefresh: nat
    var useCount: nat
    var errCount: nat
    var disabled: bool
    var forbidden: bool
    var cooldownUntil: Time

    constructor (id: nat)
      ensures View() == NewKey(id)
    {
      this.id, limit, spentEstimate := id, 0, 0;
      resetAt, lastRefreshAt, cooldownUntil := UNSET, UNSET, UNSET;
      usesSinceRefresh, useCount, errCount := 0, 0, 0;
      disabled, forbidden := false, false;
    }

    ghost function View(): Key
      reads this
    {
      Key(id, limit, spentEstimate, resetAt, lastRefreshAt, usesSinceRefresh, useCount, errCount,
          disabled, forbidden, cooldownUntil)
    }

    function Remaining(): (r: int)
      reads this
      ensures r == View().Remaining()
    {
      var r := limit - spentEstimate;
      if r < 0 then 0 else r
    }

    predicate Available(now: Time, minBudget: int)
      reads this
      ensures Available(now, minBudget) == View().Available(now, minBudget)
    {
      if disabled then false
      else if now < cooldownUntil then false
      else Remaining() >= minBudget
    }

    method RollReset(now: Time)
      modifies `spentEstimate, `resetAt
      ensures View() == Roll(old(View()), now)
      ensures if UNSET < old(resetAt) < now then spentEstimate == 0 && resetAt == now + HOUR
              else spentEstimate == old(spentEstimate) && resetAt == old(resetAt)
    {
      if resetAt != UNSET && now > resetAt {
        spentEstimate := 0;
        resetAt := now + HOUR;
      }
    }

    /** When this key could be tried again, for a key that is enabled but not available. */
    function RetryAt(now: Time): Time
      reads this
      ensures RetryAt(now) == Candidate(View(), now)
    {
      if now < cooldownUntil && cooldownUntil < resetAt then cooldownUntil else resetAt
    }

    /** The pre-debit of a lease. */
    method Debit()
      modifies `spentEstimate, `useCount, `usesSinceRefresh
      ensures View() == Charge(old(View()))
    {
      spentEstimate := spentEstimate + EST_COST;
      useCount := useCount + 1;
      usesSinceRefresh := usesSinceRefresh + 1;
    }

    /** `marked` tells whether the key's row is also marked forbidden in the database: the
        environment's key, which has id 0, has none. */
    method RecordError(kind: ErrorKind, now: Time) returns (marked: bool)
      modifies `errCount, `spentEstimate, `disabled, `cooldownUntil
      ensures View() == Fail(old(View()), kind, now)
      ensures marked <==> (kind.Unauthorized? || errCount >= FORBIDDEN_ERRORS) && id != 0
    {
      errCount := errCount + 1;
      var forbid := false;
      match kind {
        case RateLimited =>
          spentEstimate := limit;
        case Unauthorized =>
          disabled := true;
          cooldownUntil := now + DISABLED_COOLDOWN;
          forbid := true;
        case Transient =>
      }
      if !forbid && errCount >= FORBIDDEN_ERRORS {
        disabled := true;
        cooldownUntil := now + DISABLED_COOLDOWN;
        forbid := true;
      }
      marked := forbid && id != 0;
    }

    method TakeRefresh(data: RateLimitData, at: Time)
      modifies `limit, `spentEstimate, `resetAt, `lastRefreshAt, `usesSinceRefresh, `errCount
      ensures View() == Refresh(old(View()), data, at)
    {
      var incoming := Truncate(data.limitPerHour);
      if incoming > 0 {
        limit := incoming;
      }
      spentEstimate := Truncate(data.spentThisHour);
      if data.spentThisHour > spentEstimate as real {
        spentEstimate := spentEstimate + 1;
      }
      if data.resetIn > 0.0 {
        resetAt := at + ClampResetIn(data.resetIn);
      }
      lastRefreshAt := at;
      usesSinceRefresh := 0;
      errCount := 0;
    }

    /** The rate-limit query of a key that no worker can see yet. `marked` tells whether its row is
        marked forbidden in the database too. */
    method TakeProbe(p: Probe) returns (marked: bool)
      modifies `limit, `spentEstimate, `resetAt, `lastRefreshAt, `errCount, `disabled, `forbidden
      ensures View() == Probed(old(View()), p)
      ensures disabled <==> !p.Answered?
      ensures forbidden <==> old(forbidden) || p.InvalidClient?
      ensures errCount == if p.Answered? then 0 else old(errCount) + 1
      ensures p.Answered? ==> StartsFrom(View(), p.data, p.at)
      ensures !p.Answered? ==>
                limit == old(limit) && spentEstimate == old(spentEstimate) && resetAt == old(resetAt) &&
                lastRefreshAt == old(lastRefreshAt)
      ensures marked <==> p.InvalidClient? && id != 0
    {
      marked := false;
      match p {
        case InvalidClient =>
          disabled := true;
          forbidden := true;
          errCount := errCount + 1;
          marked := id != 0;
        case Unreachable =>
          disabled := true;
          errCount := errCount + 1;
        case Answered(data, at) =>
          disabled := false;
          errCount := 0;
          limit := Truncate(data.limitPerHour);
          if limit == 0 {
            limit := DEFAULT_LIMIT;
          }
          spentEstimate := Truncate(data.spentThisHour);
          if data.spentThisHour > spentEstimate as real {
            spentEstimate := spentEstimate + 1;
          }
          resetAt := at + ClampResetIn(data.resetIn);
          lastRefreshAt := at;
      }
    }
  }

  datatype AcquireResult = Leased(state: KeyState) | AllExhausted(retryAt: Time) | NoKeys

  datatype Summary = Summary(
    total: nat, active: nat, disabled: nat, totalRemaining: int, totalLimit: int, earliestReset: Time)

  ghost function ViewOf(states: seq<KeyState>): (v: seq<Key>)
    reads states
    ensures |v| == |states|
    ensures forall i :: 0 <= i < |states| ==> v[i] == states[i].View()
  {
    seq(|states|, i requires 0 <= i < |states| reads states => states[i].View())
  }

  ghost predicate Distinct(states: seq<KeyState>) {
    forall i, j :: 0 <= i < j < |states| ==> states[i] != states[j]
  }

  class Pool {
    var keys: seq<KeyState>

    ghost predicate Valid()
      reads this
    {
      Distinct(keys)
    }

    ghost function View(): seq<Key>
      reads this, keys
    {
      ViewOf(keys)
    }

    constructor ()
      ensures Valid() && keys == []
    {
      keys := [];
    }

    /** Phase 1 of Load: one fresh key per row, probed once. */
    static method FirstProbes(ids: seq<nat>, first: seq<Probe>) returns (states: seq<KeyState>)
      requires |first| == |ids|
      ensures fresh(states) && Distinct(states) && |states| == |ids|
      ensures forall j :: 0 <= j < |ids| ==> states[j].View() == Probed(NewKey(ids[j]), first[j])
    {
      states := [];
      for i := 0 to |ids|
        invariant fresh(states) && Distinct(states) && |states| == i
        invariant forall j :: 0 <= j < i ==> states[j].View() == Probed(NewKey(ids[j]), first[j])
      {
        var st := new KeyState(ids[i]);
        var _ := st.TakeProbe(first[i]);
        states := states + [st];
      }
    }

    /** Phase 2 of Load: the keys whose first probe failed transiently are probed again. */
    static method SecondProbes(states: seq<KeyState>, second: seq<Probe>)
      requires Distinct(states) && |second| == |states|
      modifies states
      ensures forall j :: 0 <= j < |states| ==> states[j].View() == Reprobed(old(states[j].View()), second[j])
    {
      for i := 0 to |states|
        invariant forall j :: 0 <= j < i ==> states[j].View() == Reprobed(old(states[j].View()), second[j])
        invariant forall j :: i <= j < |states| ==> states[j].View() == old(states[j].View())
      {
        var st := states[i];
        if st.disabled && !st.forbidden {
          st.disabled := false;
          var _ := st.TakeProbe(second[i]);
        }
        assert forall j :: 0 <= j < |states| && j != i ==> states[j] != st;
      }
    }

    /** Start-up: two rounds of probes over the rows of logs_keys below the forbidden threshold;
        `first[i]` and `second[i]` are the answers the i-th such row gets. Without rows to read the
        pool stays as it is; otherwise Load fails exactly when no key came up, with the pool
        loaded all the same. */
    method Load(table: Option<seq<LogsKeyRow>>, first: seq<Probe>, second: seq<Probe>) returns (ok: bool)
      requires Valid()
      requires table.Some? ==> |first| == |second| == |LoadableIds(table.value)|
      modifies this
      ensures Valid()
      ensures table.None? ==> !ok && keys == old(keys)
      ensures table.Some? ==> fresh(keys) && View() == LoadedKeys(LoadableIds(table.value), first, second)
      ensures table.Some? ==> (ok <==> CountEnabled(View()) != 0)
    {
      if table.None? {
        return false;
      }
      var ids := LoadableIds(table.value);
      var states := FirstProbes(ids, first);
      SecondProbes(states, second);
      keys := states;
      var active, _ := Stats();
      ok := active != 0;
    }

    method Stats() returns (active: nat, disabled: nat)
      requires Valid()
      ensures active == CountEnabled(View()) && active + disabled == |keys|
      ensures active == |set i | 0 <= i < |keys| && !keys[i].disabled|
    {
      active, disabled := 0, 0;
      for i := 0 to |keys|
        invariant active == CountEnabled(View()[..i]) && active + disabled == i
      {
        assert View()[..i + 1][..i] == View()[..i];
        if keys[i].disabled {
          disabled := disabled + 1;
        } else {
          active := active + 1;
        }
      }
      assert View()[..|keys|] == View();
      EnabledAreCounted(View());
      assert (set i | 0 <= i < |keys| && !keys[i].disabled) == set i | 0 <= i < |keys| && !View()[i].disabled;
    }

    /** The environment's fallback key joins the pool whether or not its probe succeeded. */
    method AddEnvKey(p: Probe) returns (ok: bool)
      requires Valid()
      modifies this
      ensures Valid() && View() == old(View()) + [Probed(NewKey(0), p)]
      ensures keys == old(keys) + [keys[|keys| - 1]] && fresh(keys[|keys| - 1])
      ensures var st := keys[|keys| - 1];
              && st.id == 0 && (st.disabled <==> !p.Answered?) && (p.Answered? ==> StartsFrom(st.View(), p.data, p.at))
      ensures ok <==> p.Answered?
    {
      var st := new KeyState(0);
      var _ := st.TakeProbe(p);
      keys := keys + [st];
      ok := !st.disabled;
    }

    method PoolSummary() returns (sum: Summary)
      requires Valid()
      ensures sum == Summary(|keys|, CountEnabled(View()), |keys| - CountEnabled(View()),
                             TotalRemaining(View()), TotalLimit(View()), SummaryReset(View()))
      ensures sum.active == |set i | 0 <= i < |keys| && !keys[i].disabled|
    {
      var active, disabled, remaining, limit, earliest := 0, 0, 0, 0, UNSET;
      for i := 0 to |keys|
        invariant active == CountEnabled(View()[..i]) && disabled == i - active
        invariant remaining == TotalRemaining(View()[..i])
        invariant limit == TotalLimit(View()[..i])
        invariant earliest == SummaryReset(View()[..i])
      {
        assert View()[..i + 1][..i] == View()[..i];
        var k := keys[i];
        if k.disabled {
          disabled := disabled + 1;
        } else {
          active := active + 1;
          limit := limit + k.limit;
          remaining := remaining + k.Remaining();
          if earliest == UNSET || k.resetAt < earliest {
            earliest := k.resetAt;
          }
        }
      }
      assert View()[..|keys|] == View();
      EnabledAreCounted(View());
      assert (set i | 0 <= i < |keys| && !keys[i].disabled) == set i | 0 <= i < |keys| && !View()[i].disabled;
      sum := Summary(|keys|, active, disabled, remaining, limit, earliest);
    }

    /** Acquire's loop: roll every key, remember the first best one and the retry time. */
    method ScanKeys(now: Time) returns (best: int, earliestReset: Time)
      requires Valid()
      modifies keys
      ensures keys == old(keys) && View() == RollAll(old(View()), now)
      ensures best == Pick(View(), now)
      ensures earliestReset == Earliest(View(), now)
    {
      ghost var before := View();
      best, earliestReset := VisitKeys(now);
      SearchedAll(before, now);
    }

    /** The loop itself, told as a fold over the keys. */
    method VisitKeys(now: Time) returns (best: int, earliestReset: Time)
      requires Valid()
      modifies keys
      ensures keys == old(keys) && View() == HalfRolled(old(View()), now, |keys|)
      ensures var s := Searched(old(View()), now, |keys|); best == s.best && earliestReset == s.earliestReset
    {
      ghost var before := View();
      RollNone(before, now);
      var i, bestRemaining := 0, -1;
      best, earliestReset := -1, UNSET;
      while i < |keys|
        invariant i <= |keys|
        invariant View() == HalfRolled(before, now, i)
        invariant Search(best, bestRemaining, earliestReset) == Searched(before, now, i)
      {
        best, bestRemaining, earliestReset := VisitKey(i, now, best, bestRemaining, earliestReset, before);
        i := i + 1;
      }
    }

    /** The body of that loop. */
    method VisitKey(i: nat, now: Time, best: int, bestRemaining: int, earliestReset: Time, ghost before: seq<Key>)
      returns (best': int, bestRemaining': int, earliestReset': Time)
      requires Valid() && i < |keys| == |before| && View() == HalfRolled(before, now, i)
      requires Search(best, bestRemaining, earliestReset) == Searched(before, now, i)
      modifies keys[i]
      ensures keys == old(keys) && View() == HalfRolled(before, now, i + 1)
      ensures Search(best', bestRemaining', earliestReset') == Searched(before, now, i + 1)
    {
      RollNext(before, now, i);
      best', bestRemaining', earliestReset' := best, bestRemaining, earliestReset;
      var k := keys[i];
      k.RollReset(now);
      assert View() == old(View())[i := k.View()];
      if !k.Available(now, MIN_BUDGET) {
        if !k.disabled {
          var candidate := k.RetryAt(now);
          if earliestReset == UNSET || candidate < earliestReset {
            earliestReset' := candidate;
          }
        }
        return;
      }
      if k.Remaining() > bestRemaining {
        best' := i;
        bestRemaining' := k.Remaining();
      }
    }

    method Acquire(now: Time) returns (r: AcquireResult)
      requires Valid()
      modifies keys
      ensures keys == old(keys) && View() == AcquireKeys(old(View()), now)
      ensures match AcquireOutcome(old(View()), now)
              case NoKey => r == NoKeys
              case Exhausted(t) => r == AllExhausted(t)
              case Granted(i) => r == Leased(keys[i])
    {
      if |keys| == 0 {
        return NoKeys;
      }
      var best, earliestReset := ScanKeys(now);
      if best == -1 {
        return AllExhausted(earliestReset);
      }
      var k := keys[best];
      k.Debit();
      return Leased(k);
    }

    method Release(ghost i: nat, st: KeyState, extraCost: int)
      requires Valid() && i < |keys| && keys[i] == st
      modifies st`errCount, st`spentEstimate
      ensures View() == old(View())[i := Settle(old(View())[i], extraCost)]
      ensures st.errCount == 0
      ensures st.spentEstimate == if extraCost == 0 then old(st.spentEstimate)
                                  else Max(0, old(st.spentEstimate) + extraCost)
    {
      st.errCount := 0;
      if extraCost != 0 {
        st.spentEstimate := st.spentEstimate + extraCost;
        if st.spentEstimate < 0 {
          st.spentEstimate := 0;
        }
      }
    }

    /** `marked` tells whether the key's row is also marked forbidden in the database. */
    method MarkError(ghost i: nat, st: KeyState, kind: ErrorKind, now: Time) returns (marked: bool)
      requires Valid() && i < |keys| && keys[i] == st
      modifies st`errCount, st`spentEstimate, st`disabled, st`cooldownUntil
      ensures View() == old(View())[i := Fail(old(View())[i], kind, now)]
      ensures st.errCount == old(st.errCount) + 1
      ensures st.spentEstimate == if kind.RateLimited? then st.limit else old(st.spentEstimate)
      ensures var out := kind.Unauthorized? || old(st.errCount) + 1 >= FORBIDDEN_ERRORS;
              && (st.disabled <==> old(st.disabled) || out)
              && st.cooldownUntil == if out then now + DISABLED_COOLDOWN else old(st.cooldownUntil)
      ensures marked <==> (kind.Unauthorized? || View()[i].errCount >= FORBIDDEN_ERRORS) && View()[i].id != 0
    {
      marked := st.RecordError(kind, now);
      assert View()[i] == st.View();
    }

    /** Reconcile's first critical section: which keys to query. */
    method CollectDue(now: Time) returns (due: seq<KeyState>)
      requires Valid()
      ensures |due| == |DueIndices(View(), now)|
      ensures forall j :: 0 <= j < |due| ==> due[j] == keys[DueIndices(View(), now)[j]]
      ensures forall k <- due :: k in keys
      ensures forall k <- keys ::
                (k in due <==>
                 !k.disabled && (now - k.lastRefreshAt >= RECONCILE_EVERY || k.usesSinceRefresh >= RECONCILE_USES))
    {
      due := [];
      for i := 0 to |keys|
        invariant |due| == |DueIndices(View()[..i], now)|
        invariant forall j :: 0 <= j < |due| ==> due[j] == keys[DueIndices(View()[..i], now)[j]]
        invariant forall k <- due :: k in keys[..i]
        invariant forall k <- keys[..i] ::
                    (k in due <==>
                     !k.disabled && (now - k.lastRefreshAt >= RECONCILE_EVERY || k.usesSinceRefresh >= RECONCILE_USES))
      {
        assert View()[..i + 1][..i] == View()[..i];
        var k := keys[i];
        if !k.disabled {
          if now - k.lastRefreshAt >= RECONCILE_EVERY || k.usesSinceRefresh >= RECONCILE_USES {
            due := due + [k];
          }
        }
      }
      assert View()[..|keys|] == View();
    }

    /** Reconcile's critical section for one key after a good answer. */
    method ApplyRefresh(ghost i: nat, st: KeyState, data: RateLimitData, at: Time)
      requires Valid() && i < |keys| && keys[i] == st
      modifies st`limit, st`spentEstimate, st`resetAt, st`lastRefreshAt, st`usesSinceRefresh, st`errCount
      ensures View() == old(View())[i := Refresh(old(View())[i], data, at)]
      ensures if data.limitPerHour >= 1.0 then st.limit as real <= data.limitPerHour < st.limit as real + 1.0
              else st.limit == old(st.limit)
      ensures st.spentEstimate as real - 1.0 < data.spentThisHour <= st.spentEstimate as real
      ensures if data.resetIn > 0.0 then WindowFrom(st.resetAt, data.resetIn, at) else st.resetAt == old(st.resetAt)
      ensures st.lastRefreshAt == at && st.usesSinceRefresh == st.errCount == 0
    {
      st.TakeRefresh(data, at);
      assert View()[i] == st.View();
    }

    /** Reconcile's critical section for one key after a failed query. */
    method CountRefreshFailure(ghost i: nat, st: KeyState)
      requires Valid() && i < |keys| && keys[i] == st
      modifies st`errCount
      ensures View() == old(View())[i := RefreshFailed(old(View())[i])]
      ensures st.errCount == old(st.errCount) + 1
    {
      st.errCount := st.errCount + 1;
    }

    /** FlushStats' first critical section. */
    method CollectFlush() returns (batch: seq<Pending>)
      requires Valid()
      ensures batch == FlushBatch(View())
      ensures forall k <- keys :: k.id != 0 && k.useCount != 0 ==> Pending(k.id, k.useCount, k.errCount) in batch
      ensures forall b <- batch :: b.id != 0 && b.useDelta != 0 &&
                                   exists k <- keys :: b == Pending(k.id, k.useCount, k.errCount)
    {
      batch := [];
      for i := 0 to |keys|
        invariant batch == FlushBatch(View()[..i])
        invariant forall k <- keys[..i] ::
                    k.id != 0 && k.useCount != 0 ==> Pending(k.id, k.useCount, k.errCount) in batch
        invariant forall b <- batch :: b.id != 0 && b.useDelta != 0 &&
                                       exists k <- keys :: b == Pending(k.id, k.useCount, k.errCount)
      {
        assert View()[..i + 1][..i] == View()[..i];
        var k := keys[i];
        if k.id != 0 && k.useCount != 0 {
          batch := batch + [Pending(k.id, k.useCount, k.errCount)];
        }
      }
      assert View()[..|keys|] == View();
    }

    /** FlushStats' critical section for one row after a successful write. */
    method ApplyDrain(b: Pending)
      requires Valid()
      modifies keys`useCount
      ensures View() == DrainFirst(old(View()), b.id, b.useDelta)
      ensures forall i :: 0 <= i < |keys| ==>
                keys[i].useCount == old(keys[i].useCount) -
                  if i == FirstWithId(old(View()), b.id) && old(keys[i].useCount) >= b.useDelta then b.useDelta else 0
    {
      ghost var before := View();
      var i := 0;
      while i < |keys| && keys[i].id != b.id
        invariant 0 <= i <= |keys|
        invariant forall j :: 0 <= j < i ==> before[j].id != b.id
        modifies {}
      {
        i := i + 1;
      }
      assert i == FirstWithId(before, b.id);
      if i < |keys| {
        var k := keys[i];
        if k.useCount >= b.useDelta {
          k.useCount := k.useCount - b.useDelta;
        }
        assert View() == before[i := Drained(before[i], b.useDelta)];
      }
    }
  }

  /** Start-up as main does it: the donated keys, else the environment's key, else no start. A
      started program has a key to lease from. */
  method Start(table: Option<seq<LogsKeyRow>>, first: seq<Probe>, second: seq<Probe>, env: Option<Probe>)
    returns (pool: Pool, started: bool)
    requires table.Some? ==> |first| == |second| == |LoadableIds(table.value)|
    ensures fresh(pool) && pool.Valid()
    ensures var donated := DonatedKeys(table, first, second);
            && (started <==> CountEnabled(donated) > 0 || (env.Some? && env.value.Answered?))
            && pool.View() ==
               donated + if CountEnabled(donated) == 0 && env.Some? then [Probed(NewKey(0), env.value)] else []
    ensures started ==> CountEnabled(pool.View()) > 0
  {
    pool := new Pool();
    started := pool.Load(table, first, second);
    if !started && env.Some? {
      ghost var donated := pool.View();
      started := pool.AddEnvKey(env.value);
      assert pool.View()[..|donated|] == donated;
    }
  }

  function DonatedKeys(table: Option<seq<LogsKeyRow>>, first: seq<Probe>, second: seq<Probe>): seq<Key>
    requires table.Some? ==> |first| == |second| == |LoadableIds(table.value)|
  {
    if table.Some? then LoadedKeys(LoadableIds(table.value), first, second) else []
  }
}
