/** What Acquire and PoolSummary compute, on the pool seen as a sequence of key values. */
module PoolSpec {
  import opened Basics
  import opened KeyModel

  /** A row of logs_keys, as far as Load looks at it. */
  datatype LogsKeyRow = LogsKeyRow(id: nat, errCount: nat)

  /** The rows Load selects: those below the forbidden threshold. */
  function LoadableIds(rows: seq<LogsKeyRow>): seq<nat> {
    if rows == [] then []
    else
      var n := |rows| - 1;
      LoadableIds(rows[..n]) + if rows[n].errCount < FORBIDDEN_ERRORS then [rows[n].id] else []
  }

  /** A row is loaded exactly when it is below the threshold, wherever it stands, and the table's order
      is kept. */
  lemma {:induction false} LoadsRowByRow(before: seq<LogsKeyRow>, row: LogsKeyRow, after: seq<LogsKeyRow>)
    ensures LoadableIds([]) == []
    ensures LoadableIds(before + [row] + after) ==
            LoadableIds(before) + (if row.errCount < FORBIDDEN_ERRORS then [row.id] else []) + LoadableIds(after)
  {
    var rows := before + [row] + after;
    if after == [] {
      assert rows[..|before|] == before && rows == before + [row];
    } else {
      var n := |after| - 1;
      LoadsRowByRow(before, row, after[..n]);
      assert rows[..|before| + 1 + n] == before + [row] + after[..n] && rows[|rows| - 1] == after[n];
    }
  }

  function LoadedKeys(ids: seq<nat>, first: seq<Probe>, second: seq<Probe>): (r: seq<Key>)
    requires |first| == |second| == |ids|
    ensures |r| == |ids|
    ensures forall i :: 0 <= i < |ids| ==> r[i] == Loaded(ids[i], first[i], second[i])
  {
    seq(|ids|, i requires 0 <= i < |ids| => Loaded(ids[i], first[i], second[i]))
  }

  datatype Outcome = NoKey | Exhausted(retryAt: Time) | Granted(index: nat)

  function RollAll(ks: seq<Key>, now: Time): (r: seq<Key>)
    ensures |r| == |ks|
    ensures forall i :: 0 <= i < |ks| ==> r[i] == Roll(ks[i], now)
  {
    seq(|ks|, i requires 0 <= i < |ks| => Roll(ks[i], now))
  }

  /** The key the scan settles on, or -1: a later key wins only with strictly more points left. */
  function Pick(ks: seq<Key>, now: Time): (b: int)
    ensures -1 <= b < |ks|
  {
    if ks == [] then -1
    else
      var n := |ks| - 1;
      var b := Pick(ks[..n], now);
      if ks[n].Available(now, MIN_BUDGET) && (b == -1 || ks[n].Remaining() > ks[b].Remaining())
      then n
      else b
  }

  /** When a passed-over key could be tried again: when its cooldown or its window ends, whichever
      is first. */
  function Candidate(k: Key, now: Time): (t: Time)
    ensures now < k.cooldownUntil ==> t <= k.cooldownUntil && t <= k.resetAt && t in {k.cooldownUntil, k.resetAt}
    ensures k.cooldownUntil <= now ==> t == k.resetAt
  {
    if now < k.cooldownUntil && k.cooldownUntil < k.resetAt then k.cooldownUntil else k.resetAt
  }

  /** The retry time the scan accumulates over enabled keys it passes over. */
  function Earliest(ks: seq<Key>, now: Time): Time {
    if ks == [] then UNSET
    else
      var n := |ks| - 1;
      var e := Earliest(ks[..n], now);
      if ks[n].Available(now, MIN_BUDGET) || ks[n].disabled then e
      else if e == UNSET || Candidate(ks[n], now) < e then Candidate(ks[n], now)
      else e
  }

  function AcquireOutcome(ks: seq<Key>, now: Time): Outcome {
    if ks == [] then NoKey
    else
      var rolled := RollAll(ks, now);
      var b := Pick(rolled, now);
      if b == -1 then Exhausted(Earliest(rolled, now)) else Granted(b)
  }

  function AcquireKeys(ks: seq<Key>, now: Time): (r: seq<Key>)
    ensures |r| == |ks|
  {
    var rolled := RollAll(ks, now);
    var b := Pick(rolled, now);
    if b == -1 then rolled else rolled[b := Charge(rolled[b])]
  }

  /** PoolSummary's EarliestReset: over enabled keys, without rolling. */
  function SummaryReset(ks: seq<Key>): Time {
    if ks == [] then UNSET
    else
      var n := |ks| - 1;
      var e := SummaryReset(ks[..n]);
      if ks[n].disabled then e
      else if e == UNSET || ks[n].resetAt < e then ks[n].resetAt
      else e
  }

  function CountEnabled(ks: seq<Key>): (n: nat)
    ensures n <= |ks|
  {
    if ks == [] then 0
    else CountEnabled(ks[..|ks| - 1]) + if ks[|ks| - 1].disabled then 0 else 1
  }

  function TotalRemaining(ks: seq<Key>): int {
    if ks == [] then 0
    else TotalRemaining(ks[..|ks| - 1]) + if ks[|ks| - 1].disabled then 0 else ks[|ks| - 1].Remaining()
  }

  function TotalLimit(ks: seq<Key>): int {
    if ks == [] then 0
    else TotalLimit(ks[..|ks| - 1]) + if ks[|ks| - 1].disabled then 0 else ks[|ks| - 1].limit
  }

  /** What a key adds to the totals, wherever it stands: its points and its limit if it is enabled,
      and nothing if it is not. */
  lemma {:induction false} TotalsKeyByKey(before: seq<Key>, k: Key, after: seq<Key>)
    ensures TotalRemaining([]) == TotalLimit([]) == 0
    ensures TotalRemaining(before + [k] + after) ==
            TotalRemaining(before) + (if k.disabled then 0 else Max(0, k.limit - k.spent)) + TotalRemaining(after)
    ensures TotalLimit(before + [k] + after) ==
            TotalLimit(before) + (if k.disabled then 0 else k.limit) + TotalLimit(after)
  {
    var ks := before + [k] + after;
    if after == [] {
      assert ks[..|before|] == before && ks == before + [k];
    } else {
      var n := |after| - 1;
      TotalsKeyByKey(before, k, after[..n]);
      assert ks[..|before| + 1 + n] == before + [k] + after[..n];
    }
  }

  lemma TotalsAfterUpdate(ks: seq<Key>, i: nat, k: Key)
    requires i < |ks| && k.disabled == ks[i].disabled == false
    ensures TotalRemaining(ks[i := k]) == TotalRemaining(ks) - ks[i].Remaining() + k.Remaining()
    ensures TotalLimit(ks[i := k]) == TotalLimit(ks) - ks[i].limit + k.limit
  {
    var front, back := ks[..i], ks[i + 1..];
    TotalsKeyByKey(front, ks[i], back);
    TotalsKeyByKey(front, k, back);
    assert ks == front + [ks[i]] + back && ks[i := k] == front + [k] + back;
  }

  lemma {:induction false} EnabledAreCounted(ks: seq<Key>)
    ensures CountEnabled(ks) == |set i | 0 <= i < |ks| && !ks[i].disabled|
  {
    var enabled := set i | 0 <= i < |ks| && !ks[i].disabled;
    if ks != [] {
      var n := |ks| - 1;
      EnabledAreCounted(ks[..n]);
      var front := set i | 0 <= i < n && !ks[..n][i].disabled;
      assert n !in front && enabled == if ks[n].disabled then front else front + {n};
    }
  }

  /** Indices of the keys a Reconcile pass will query, in pool order. */
  function DueIndices(ks: seq<Key>, now: Time): (r: seq<nat>)
    ensures forall j :: 0 <= j < |r| ==> r[j] < |ks|
  {
    if ks == [] then []
    else
      var n := |ks| - 1;
      DueIndices(ks[..n], now) + if DueForRefresh(ks[n], now) then [n] else []
  }

  /** A pass queries every enabled key that is due and no other, each once and in pool order. */
  lemma {:induction false} DueIndicesAreExact(ks: seq<Key>, now: Time)
    ensures Ascending(DueIndices(ks, now), |ks|)
    ensures forall i: nat :: i < |ks| ==>
              (i in DueIndices(ks, now) <==>
               && !ks[i].disabled
               && (now - ks[i].lastRefreshAt >= RECONCILE_EVERY || ks[i].usesSinceRefresh >= RECONCILE_USES))
  {
    if ks != [] {
      var n := |ks| - 1;
      DueIndicesAreExact(ks[..n], now);
      var front := DueIndices(ks[..n], now);
      assert forall j :: 0 <= j < |front| ==> front[j] in front;
    }
  }

  /** One row of a FlushStats batch. */
  datatype Pending = Pending(id: nat, useDelta: nat, errAbs: nat)

  /** The batch FlushStats collects under its first lock: rows of the table with uses to write. */
  function FlushBatch(ks: seq<Key>): seq<Pending> {
    if ks == [] then []
    else
      var n := |ks| - 1;
      var k := ks[n];
      FlushBatch(ks[..n]) + if k.id == 0 || k.useCount == 0 then [] else [Pending(k.id, k.useCount, k.errCount)]
  }

  /** A key has an entry in the batch exactly when it has a row and uses, with its counts, wherever it
      stands in the pool, and the pool's order is kept. */
  lemma {:induction false} FlushesKeyByKey(before: seq<Key>, k: Key, after: seq<Key>)
    ensures FlushBatch([]) == []
    ensures FlushBatch(before + [k] + after) ==
            FlushBatch(before) +
            (if k.id != 0 && k.useCount != 0 then [Pending(k.id, k.useCount, k.errCount)] else []) +
            FlushBatch(after)
  {
    var ks := before + [k] + after;
    if after == [] {
      assert ks[..|before|] == before && ks == before + [k];
    } else {
      var n := |after| - 1;
      FlushesKeyByKey(before, k, after[..n]);
      assert ks[..|before| + 1 + n] == before + [k] + after[..n] && ks[|ks| - 1] == after[n];
    }
  }

  /** The first key with that id, or the pool's size. */
  function FirstWithId(ks: seq<Key>, id: nat): (r: nat)
    ensures r <= |ks|
    ensures forall j :: 0 <= j < r ==> ks[j].id != id
    ensures r < |ks| ==> ks[r].id == id
  {
    if ks == [] || ks[0].id == id then 0 else 1 + FirstWithId(ks[1..], id)
  }

  /** The subtraction after a successful write touches the first key with that id only. */
  function DrainFirst(ks: seq<Key>, id: nat, delta: nat): seq<Key> {
    var i := FirstWithId(ks, id);
    if i < |ks| then ks[i := Drained(ks[i], delta)] else ks
  }

  // ----- the scan, key by key

  /** The pool in the middle of Acquire's scan: the first `i` keys rolled. */
  function HalfRolled(ks: seq<Key>, now: Time, i: nat): (r: seq<Key>)
    requires i <= |ks|
    ensures |r| == |ks|
  {
    RollAll(ks, now)[..i] + ks[i..]
  }

  /** What the scan remembers. */
  datatype Search = Search(best: int, bestRemaining: int, earliestReset: Time)

  /** One rolled key weighed against it. */
  function Weigh(s: Search, k: Key, i: int, now: Time): Search {
    if k.Available(now, MIN_BUDGET) then
      if k.Remaining() > s.bestRemaining then s.(best := i, bestRemaining := k.Remaining()) else s
    else if !k.disabled && (s.earliestReset == UNSET || Candidate(k, now) < s.earliestReset) then
      s.(earliestReset := Candidate(k, now))
    else s
  }

  function Searched(ks: seq<Key>, now: Time, i: nat): Search
    requires i <= |ks|
  {
    if i == 0 then Search(-1, -1, UNSET) else Weigh(Searched(ks, now, i - 1), Roll(ks[i - 1], now), i - 1, now)
  }

  lemma RollNone(ks: seq<Key>, now: Time)
    ensures HalfRolled(ks, now, 0) == ks
  {
  }

  lemma RollNext(ks: seq<Key>, now: Time, i: nat)
    requires i < |ks|
    ensures HalfRolled(ks, now, i)[i] == ks[i]
    ensures HalfRolled(ks, now, i)[i := Roll(ks[i], now)] == HalfRolled(ks, now, i + 1)
  {
  }

  lemma {:induction false} SearchedSoFar(ks: seq<Key>, now: Time, i: nat)
    requires i <= |ks|
    ensures var rolled := RollAll(ks, now);
            var s := Searched(ks, now, i);
            && s.best == Pick(rolled[..i], now)
            && s.bestRemaining == (if s.best == -1 then -1 else rolled[s.best].Remaining())
            && s.earliestReset == Earliest(rolled[..i], now)
    decreases i
  {
    if i != 0 {
      SearchedSoFar(ks, now, i - 1);
      var rolled := RollAll(ks, now);
      assert rolled[..i][..i - 1] == rolled[..i - 1];
    }
  }

  /** After the last key the scan knows the choice and the retry time. */
  lemma SearchedAll(ks: seq<Key>, now: Time)
    ensures var s := Searched(ks, now, |ks|);
            s.best == Pick(RollAll(ks, now), now) && s.earliestReset == Earliest(RollAll(ks, now), now)
    ensures HalfRolled(ks, now, |ks|) == RollAll(ks, now)
  {
    SearchedSoFar(ks, now, |ks|);
    assert RollAll(ks, now)[..|ks|] == RollAll(ks, now);
  }

  // ----- what the scan's two results mean

  /** `b` is the first of the available keys with the most points left. */
  ghost predicate IsFirstBest(ks: seq<Key>, now: Time, b: int) {
    && 0 <= b < |ks|
    && ks[b].Available(now, MIN_BUDGET)
    && (forall j :: 0 <= j < |ks| && ks[j].Available(now, MIN_BUDGET) ==> ks[j].Remaining() <= ks[b].Remaining())
    && (forall j :: 0 <= j < b && ks[j].Available(now, MIN_BUDGET) ==> ks[j].Remaining() < ks[b].Remaining())
  }

  /** Pick finds the first best key, and -1 exactly when no key is available. */
  lemma {:induction false} PickIsFirstBest(ks: seq<Key>, now: Time)
    ensures Pick(ks, now) == -1 <==> forall j :: 0 <= j < |ks| ==> !ks[j].Available(now, MIN_BUDGET)
    ensures Pick(ks, now) != -1 ==> IsFirstBest(ks, now, Pick(ks, now))
  {
    if ks != [] {
      PickIsFirstBest(ks[..|ks| - 1], now);
    }
  }

  /** Being the first best key determines the choice: nothing else satisfies it. */
  lemma PickIsTheOnlyFirstBest(ks: seq<Key>, now: Time, b: int)
    requires IsFirstBest(ks, now, b)
    ensures Pick(ks, now) == b
  {
    PickIsFirstBest(ks, now);
  }

  /** What the three outcomes of Acquire mean, and what each leaves: no keys; or none of the rolled keys
      is available; or the first best of them is leased, with its pre-debit, and no other key is. */
  lemma AcquireTakesFirstBest(ks: seq<Key>, now: Time)
    ensures var rolled, after := RollAll(ks, now), AcquireKeys(ks, now);
            match AcquireOutcome(ks, now)
            case NoKey => ks == []
            case Exhausted(_) =>
              && ks != [] && after == rolled
              && forall j :: 0 <= j < |ks| ==> !rolled[j].Available(now, MIN_BUDGET)
            case Granted(i) =>
              && IsFirstBest(rolled, now, i)
              && after[i] == rolled[i].(spent := rolled[i].spent + EST_COST, useCount := rolled[i].useCount + 1,
                                        usesSinceRefresh := rolled[i].usesSinceRefresh + 1)
              && forall j :: 0 <= j < |ks| && j != i ==> after[j] == rolled[j]
  {
    PickIsFirstBest(RollAll(ks, now), now);
  }

  /** PoolSummary shows a lease at once: as long as no window ends it costs the pool exactly one
      pre-debit. */
  lemma LeaseCostsTheSummary(ks: seq<Key>, now: Time)
    requires AcquireOutcome(ks, now).Granted? && RollAll(ks, now) == ks
    ensures TotalRemaining(AcquireKeys(ks, now)) == TotalRemaining(ks) - EST_COST
    ensures TotalLimit(AcquireKeys(ks, now)) == TotalLimit(ks)
  {
    AcquireTakesFirstBest(ks, now);
    var i := AcquireOutcome(ks, now).index;
    TotalsAfterUpdate(ks, i, AcquireKeys(ks, now)[i]);
  }

  /** `t` is the least retry candidate of the enabled keys: unset exactly when there is none. */
  ghost predicate IsLeastOf(ks: seq<Key>, t: Time, at: Key -> Time) {
    && (t == UNSET <==> forall i :: 0 <= i < |ks| ==> ks[i].disabled)
    && (t != UNSET ==> exists i :: 0 <= i < |ks| && !ks[i].disabled && at(ks[i]) == t)
    && (forall i :: 0 <= i < |ks| && !ks[i].disabled ==> t <= at(ks[i]))
  }

  /** With every enabled key passed over and every candidate set, the scan reports the least one. */
  lemma {:induction false} EarliestIsLeast(ks: seq<Key>, now: Time)
    requires forall i :: 0 <= i < |ks| && !ks[i].disabled ==>
                           !ks[i].Available(now, MIN_BUDGET) && Candidate(ks[i], now) != UNSET
    ensures IsLeastOf(ks, Earliest(ks, now), (k: Key) => Candidate(k, now))
  {
    if ks != [] {
      var n := |ks| - 1;
      EarliestIsLeast(ks[..n], now);
    }
  }

  /** PoolSummary reports the least ResetAt of the enabled keys when all of them are set. */
  lemma {:induction false} SummaryIsLeast(ks: seq<Key>)
    requires forall i :: 0 <= i < |ks| && !ks[i].disabled ==> ks[i].resetAt != UNSET
    ensures IsLeastOf(ks, SummaryReset(ks), (k: Key) => k.resetAt)
  {
    if ks != [] {
      var n := |ks| - 1;
      SummaryIsLeast(ks[..n]);
    }
  }
}
