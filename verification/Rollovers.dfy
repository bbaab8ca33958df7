/** What a rollover can cost: the pool starts an empty window an hour long wherever an Acquire finds
    the old one over, FFLogs keeps counting in its own. */
module Rollovers {
  import opened Basics
  import opened KeyModel
  import opened PoolSpec
  import opened LeaseLedger
  import opened BoundsAreTight
  import MemberModel
  import PoolRuns

  /** The first Acquire comes half an hour after the first window, the charges a minute before the end
      of the window it opens, the next rollover a minute after it. FFLogs' windows end a little
      after each full hour. */
  const FIRST: Time := HOUR + 30 * MINUTE
  const BEFORE: Time := 2 * HOUR + 29 * MINUTE
  const AFTER: Time := 2 * HOUR + 31 * MINUTE
  const MIDDLE_END: Time := 1 + 2 * HOUR
  const LAST_END: Time := 1 + 3 * HOUR

  /** An account just rolled over, FFLogs' own count at `count`. */
  function Rolled(count: real, end: Time): Account {
    Account(true, 0, 0.0, 0, 0, 0, NOTHING, Meter(count, end), count)
  }

  function RolledKey(limit: nat, spent: int, uses: nat, at: Time): Key {
    FreshKey(limit).(spent := spent, useCount := uses, usesSinceRefresh := uses, resetAt := at + HOUR)
  }

  /** A first lease that nothing is charged to opens the window. */
  lemma FirstLease(r: iset<Office>, limit: nat, n: nat)
    requires Closed(r) && n > 0 && limit >= MIN_BUDGET && Started(limit, n) in r
    ensures One(RolledKey(limit, EST_COST, 1, FIRST), FIRST, Crew(n, 1, UNTOUCHED), Rolled(0.0, MIDDLE_END),
                Resting) in r
  {
    var k := FreshKey(limit);
    PickIsTheOnlyFirstBest(RollAll([k], FIRST), FIRST, 0);
    CrewGrows(n, 0, UNTOUCHED);
    CrewOpen(n, 0, UNTOUCHED);
    var o' := Next(Started(limit, n), TryAcquire(0, FIRST));
    assert o'.pool.keys == [RolledKey(limit, EST_COST, 1, FIRST)] && o'.accounts == [Rolled(0.0, MIDDLE_END)];
  }

  lemma TimeGoesBy(r: iset<Office>, k: Key, n: nat)
    requires Closed(r) && !Rolls(k, BEFORE)
    requires One(k, FIRST, Crew(n, 0, UNTOUCHED), Rolled(0.0, MIDDLE_END), Resting) in r
    ensures One(k, BEFORE, Crew(n, 0, UNTOUCHED), Rolled(0.0, LAST_END), Resting) in r
  {
    var o' := Next(One(k, FIRST, Crew(n, 0, UNTOUCHED), Rolled(0.0, MIDDLE_END), Resting), TimePasses(BEFORE));
    assert o'.accounts == [Rolled(0.0, LAST_END)];
  }

  /** The leases it takes to be charged `c` points in base queries. */
  function Parts(c: real): nat
    decreases if c <= BASE_POINTS then 0 else c.Floor
  {
    if c <= BASE_POINTS then 1 else 1 + Parts(c - BASE_POINTS)
  }

  lemma {:induction false} ChargeUp(r: iset<Office>, k: Key, now: Time, n: nat, a: Account, c: real)
    requires Closed(r) && n > 0 && 0.0 <= c && Room(k, now, Parts(c)) && k.errCount == 0 && now < a.meter.ends
    requires One(k, now, Crew(n, 0, UNTOUCHED), a, Resting) in r
    ensures One(Leased(k, Parts(c)), now, Crew(n, 0, UNTOUCHED), Bill(a.(clean := true), c), Resting) in r
    decreases if c <= BASE_POINTS then 0 else c.Floor
  {
    var ws := Crew(n, 0, UNTOUCHED);
    if c <= BASE_POINTS {
      ServeBase(r, k, now, ws, a, Resting, 0, c);
    } else {
      ServeBase(r, k, now, ws, a, Resting, 0, BASE_POINTS);
      ChargeUp(r, Charge(k), now, n, Bill(a.(clean := true), BASE_POINTS), c - BASE_POINTS);
      BillTwice(a.(clean := true), Resting, BASE_POINTS, c - BASE_POINTS);
    }
  }

  /** The second rollover leases to the first worker; FFLogs' window goes on. */
  lemma RollOver(r: iset<Office>, limit: nat, spent: int, uses: nat, n: nat, a: Account, c: real)
    requires Closed(r) && n > 0 && limit >= MIN_BUDGET && 0.0 <= c
    requires a.clean && a.late == NOTHING && a.meter == Meter(c, LAST_END)
    requires One(RolledKey(limit, spent, uses, FIRST), BEFORE, Crew(n, 0, UNTOUCHED), a, Resting) in r
    ensures One(RolledKey(limit, EST_COST, uses + 1, AFTER), AFTER, Crew(n, 1, UNTOUCHED), Rolled(c, LAST_END),
                Resting) in r
  {
    var k := RolledKey(limit, spent, uses, FIRST);
    PickIsTheOnlyFirstBest(RollAll([k], AFTER), AFTER, 0);
    CrewGrows(n, 0, UNTOUCHED);
    CrewOpen(n, 0, UNTOUCHED);
    var o' := Next(One(k, BEFORE, Crew(n, 0, UNTOUCHED), a, Resting), TryAcquire(0, AFTER));
    assert o'.pool.keys == [RolledKey(limit, EST_COST, uses + 1, AFTER)] && o'.accounts == [Rolled(c, LAST_END)];
  }

  /** `g` more leases of the first worker, charged their pre-debit each. */
  lemma {:induction false} AllServeBase(r: iset<Office>, k: Key, now: Time, n: nat, g: nat, a: Account)
    requires Closed(r) && n > 0 && Room(k, now, g) && k.errCount == 0 && now < a.meter.ends && a.clean
    requires One(k, now, Crew(n, 0, UNTOUCHED), a, Resting) in r
    ensures One(Leased(k, g), now, Crew(n, 0, UNTOUCHED), Bill(a, 20.0 * g as real), Resting) in r
    decreases g
  {
    if g == 0 {
      assert Bill(a, 0.0) == a;
    } else {
      var a1 := Bill(a, 20.0 * (g - 1) as real);
      AllServeBase(r, k, now, n, g - 1, a);
      ServeBase(r, Leased(k, g - 1), now, Crew(n, 0, UNTOUCHED), a1, Resting, 0, BASE_POINTS);
      BillTwice(a, Resting, 20.0 * (g - 1) as real, BASE_POINTS);
    }
  }

  /** Room for the leases that charge `c` points, one more, and one for each worker. */
  function LimitOf(n: nat, c: real): nat {
    SAFETY_BUDGET + EST_COST * (n + Parts(c) + 1)
  }

  /** The end of the run: after the rollover the window is spent down to the reserve, with a lease open
      for each worker, and everything is charged that can be. */
  function SpentAgain(n: nat, c: real): Office {
    var k := RolledKey(LimitOf(n, c), EST_COST, Parts(c) + 2, AFTER);
    One(Leased(Leased(k, Parts(c)), n), AFTER, Crew(n, n, CHARGED),
        Billed(Bill(Bill(Rolled(c, LAST_END), 20.0), 20.0 * Parts(c) as real), n), Resting)
  }

  /** The first window: `c` points are charged a minute before it ends. */
  lemma SpendFirst(r: iset<Office>, n: nat, c: real)
    requires Closed(r) && n > 0 && 0.0 <= c && Started(LimitOf(n, c), n) in r
    ensures One(RolledKey(LimitOf(n, c), EST_COST * (Parts(c) + 1), Parts(c) + 1, FIRST), BEFORE,
                Crew(n, 0, UNTOUCHED), Bill(Rolled(0.0, LAST_END), c), Resting) in r
  {
    var limit, p := LimitOf(n, c), Parts(c);
    var k1 := RolledKey(limit, EST_COST, 1, FIRST);
    FirstLease(r, limit, n);
    Settles(r, k1, FIRST, Crew(n, 1, UNTOUCHED), Rolled(0.0, MIDDLE_END), Resting, 0);
    CrewGrows(n, 0, UNTOUCHED);
    TimeGoesBy(r, k1, n);
    ChargeUp(r, k1, BEFORE, n, Rolled(0.0, LAST_END), c);
    assert Leased(k1, p) == RolledKey(limit, EST_COST * (p + 1), p + 1, FIRST);
  }

  /** The second one. */
  lemma SpendAgain(r: iset<Office>, n: nat, c: real)
    requires Closed(r) && n > 0 && 0.0 <= c && Started(LimitOf(n, c), n) in r
    ensures SpentAgain(n, c) in r
  {
    var limit, p := LimitOf(n, c), Parts(c);
    SpendFirst(r, n, c);
    RollOver(r, limit, EST_COST * (p + 1), p + 1, n, Bill(Rolled(0.0, LAST_END), c), c);
    var k, a, ws := RolledKey(limit, EST_COST, p + 2, AFTER), Rolled(c, LAST_END), Crew(n, 1, UNTOUCHED);
    AskBase(r, k, AFTER, ws, a, Resting, 0, BASE_POINTS);
    var ws1 := ws[0 := Holding(0, BASE_POINTS, 0)];
    Settles(r, k, AFTER, ws1, Bill(a, 20.0), Resting, 0);
    CrewGrows(n, 0, UNTOUCHED);
    assert ws1[0 := Idle] == Crew(n, 0, UNTOUCHED);
    AllServeBase(r, k, AFTER, n, p, Bill(a, 20.0));
    AllServe(r, Leased(k, p), AFTER, n, n, Bill(Bill(a, 20.0), 20.0 * p as real), Resting);
  }

  /** A clean key without failed, straddling or lost leases whose last replacement overlooked `c`
      points that FFLogs still counts. */
  predicate Carries(o: Office, i: nat, c: real)
    requires i < |o.pool.keys| == |o.accounts|
  {
    var a := o.accounts[i];
    a.clean && a.straddled == a.failed == a.lost == 0 && a.carried == c
  }

  /** What a rollover overlooks is lost in full, however much it is: FFLogs' own count can get that far
      beyond what it is held to otherwise. */
  lemma CarriedIsLost(n: nat, c: real)
    requires n > 0 && 0.0 <= c
    ensures exists o: Office ::
              && Reachable(o, n) && |o.pool.keys| == |o.accounts| == 1 && Carries(o, 0, c)
              && o.accounts[0].meter.count == (o.pool.keys[0].limit - SAFETY_BUDGET + 40 * n) as real + c
  {
    var o := SpentAgain(n, c);
    StartIsReachable(LimitOf(n, c), n);
    forall r: iset<Office> | HasStarts(r, n) && Closed(r)
      ensures o in r
    {
      SpendAgain(r, n, c);
    }
    assert Reachable(o, n);
  }

  predicate Held(o: Office, i: nat, n: nat)
    requires i < |o.pool.keys| == |o.accounts|
  {
    o.accounts[i].meter.count <= (o.pool.keys[i].limit - SAFETY_BUDGET + 40 * n) as real
  }

  /** So the limit is held in all such states with `c` points overlooked exactly when there are none:
      a rollover is harmless if and only if all that FFLogs counts in its window then was charged
      since the end of the key's. */
  lemma HeldExactlyWhenNothingCarried(n: nat, c: real)
    requires n > 0
    ensures (forall o: Office, i: nat | Reachable(o, n) && i < |o.pool.keys| == |o.accounts| ::
               Carries(o, i, c) ==> Held(o, i, n)) <==>
            c <= 0.0
  {
    if c <= 0.0 {
      forall o: Office, i: nat | Reachable(o, n) && i < |o.pool.keys| == |o.accounts|
        ensures Carries(o, i, c) ==> Held(o, i, n)
      {
        LimitHeld(o, n, i);
      }
    } else {
      CarriedIsLost(n, c);
      var o: Office :| && Reachable(o, n) && |o.pool.keys| == |o.accounts| == 1 && Carries(o, 0, c)
                       && o.accounts[0].meter.count == (o.pool.keys[0].limit - SAFETY_BUDGET + 40 * n) as real + c;
      assert !Held(o, 0, n);
    }
  }
}
