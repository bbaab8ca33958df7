/** What choosing the key with the most points left is worth: no quota is lost, and the keys
    are drained evenly. */
module Capacity {
  import opened Basics
  import opened KeyModel
  import opened PoolSpec
  import opened PoolRuns

  // ----- exact capacity

  /** How many leases the key can still give before its reserve is touched. */
  function Slots(k: Key, now: Time): (n: nat)
    ensures n > 0 <==> k.Available(now, MIN_BUDGET)
  {
    if k.disabled || now < k.cooldownUntil || k.Remaining() < SAFETY_BUDGET then 0
    else (k.Remaining() - SAFETY_BUDGET) / EST_COST
  }

  function TotalSlots(ks: seq<Key>, now: Time): nat {
    if ks == [] then 0 else Slots(ks[0], now) + TotalSlots(ks[1..], now)
  }

  /** How many of `n` Acquires in a row, all at the same moment, hand out a lease. */
  function Grants(ks: seq<Key>, now: Time, n: nat): nat
    decreases n
  {
    if n == 0 then 0
    else (if AcquireOutcome(ks, now).Granted? then 1 else 0) + Grants(AcquireKeys(ks, now), now, n - 1)
  }

  lemma {:induction false} SlotsAfterUpdate(ks: seq<Key>, i: nat, k: Key, now: Time)
    requires i < |ks|
    ensures TotalSlots(ks[i := k], now) == TotalSlots(ks, now) - Slots(ks[i], now) + Slots(k, now)
  {
    if i == 0 {
      assert ks[i := k][1..] == ks[1..];
    } else {
      assert ks[i := k][1..] == ks[1..][i - 1 := k];
      SlotsAfterUpdate(ks[1..], i - 1, k, now);
    }
  }

  lemma {:induction false} NoSlotsLeft(ks: seq<Key>, now: Time)
    ensures TotalSlots(ks, now) == 0 <==> forall i :: 0 <= i < |ks| ==> !ks[i].Available(now, MIN_BUDGET)
  {
    if ks != [] {
      NoSlotsLeft(ks[1..], now);
      assert forall i :: 1 <= i < |ks| ==> ks[i] == ks[1..][i - 1];
      assert forall i :: 0 <= i < |ks| - 1 ==> ks[1..][i] == ks[i + 1];
    }
  }

  /** A lease costs the key it comes from exactly one slot. */
  lemma ChargeTakesOneSlot(k: Key, now: Time)
    requires k.Available(now, MIN_BUDGET)
    ensures Slots(Charge(k), now) == Slots(k, now) - 1
  {
    var r := k.Remaining();
    assert Charge(k).Remaining() == r - EST_COST;
    assert (r - EST_COST - SAFETY_BUDGET) / EST_COST == (r - SAFETY_BUDGET) / EST_COST - 1;
  }

  lemma RollTwice(ks: seq<Key>, now: Time)
    ensures RollAll(RollAll(ks, now), now) == RollAll(ks, now)
    ensures var b := Pick(RollAll(ks, now), now);
            b != -1 ==> RollAll(AcquireKeys(ks, now), now) == AcquireKeys(ks, now)
  {
  }

  lemma AcquireTakesOneSlot(ks: seq<Key>, now: Time)
    ensures var total := TotalSlots(RollAll(ks, now), now);
            var total' := TotalSlots(RollAll(AcquireKeys(ks, now), now), now);
            && (AcquireOutcome(ks, now).Granted? <==> total > 0)
            && total' == if total > 0 then total - 1 else 0
  {
    var rolled := RollAll(ks, now);
    var b := Pick(rolled, now);
    RollTwice(ks, now);
    NoSlotsLeft(rolled, now);
    PickIsFirstBest(rolled, now);
    if b != -1 {
      ChargeTakesOneSlot(rolled[b], now);
      SlotsAfterUpdate(rolled, b, Charge(rolled[b]), now);
    }
  }

  /** With the clock standing still, Acquire hands out exactly as many leases as the keys together
      have room for, one by one above their reserves: picking the fullest key wastes nothing. */
  lemma {:induction false} GreedyCapacityIsExact(ks: seq<Key>, now: Time, n: nat)
    ensures var total := TotalSlots(RollAll(ks, now), now);
            Grants(ks, now, n) == if n < total then n else total
    decreases n
  {
    if n != 0 {
      AcquireTakesOneSlot(ks, now);
      GreedyCapacityIsExact(AcquireKeys(ks, now), now, n - 1);
    }
  }

  // ----- balanced spending

  /** No two enabled keys are more than `d` points apart. */
  ghost predicate SpreadAtMost(ks: seq<Key>, d: int) {
    forall i, j :: 0 <= i < |ks| && 0 <= j < |ks| && !ks[i].disabled && !ks[j].disabled ==>
                     ks[i].Remaining() - ks[j].Remaining() <= d
  }

  /** A run of Acquires in which no window ends. */
  ghost predicate AcquiresWithoutRoll(s: Sys, es: seq<Event>)
    requires LegalRun(s, es)
    decreases |es|
  {
    es == [] ||
    (es[0].Acquire? && RollAll(s.keys, es[0].at) == s.keys && AcquiresWithoutRoll(Next(s, es[0]), es[1..]))
  }

  lemma AcquireKeepsSpread(ks: seq<Key>, now: Time, d: int)
    requires forall i :: 0 <= i < |ks| && !ks[i].disabled ==> ks[i].cooldownUntil == UNSET
    requires RollAll(ks, now) == ks && SpreadAtMost(ks, d) && d >= EST_COST
    ensures SpreadAtMost(AcquireKeys(ks, now), d)
  {
    var b := Pick(ks, now);
    if b != -1 {
      PickIsFirstBest(ks, now);
      var top := ks[b].Remaining();
      assert Charge(ks[b]).Remaining() == top - EST_COST;
      forall i | 0 <= i < |ks| && !ks[i].disabled
        ensures ks[i].Remaining() <= top
      {
      }
    }
  }

  /** Spending is balanced: until a window ends, Acquires never spread the enabled keys further
      apart than they were or than one pre-debit, whichever is more. */
  lemma {:induction false} SpendingIsBalanced(s: Sys, es: seq<Event>, d: int)
    requires PoolInv(s) && LegalRun(s, es) && AcquiresWithoutRoll(s, es) && SpreadAtMost(s.keys, d)
    ensures SpreadAtMost(Run(s, es).keys, Max(d, EST_COST))
    decreases |es|
  {
    assert SpreadAtMost(s.keys, Max(d, EST_COST));
    if es != [] {
      AcquireKeepsSpread(s.keys, es[0].at, Max(d, EST_COST));
      NextInv(s, es[0]);
      SpendingIsBalanced(Next(s, es[0]), es[1..], Max(d, EST_COST));
    }
  }
}
