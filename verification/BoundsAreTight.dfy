/** The bounds of the lease ledger are attained: runs of one key that go exactly as far as the
    reserve and the drift bound let them. */
module BoundsAreTight {
  import opened Basics
  import opened KeyModel
  import opened PoolSpec
  import opened LeaseLedger
  import MemberModel
  import PoolRuns

  // ----- an office with one key

  function One(k: Key, now: Time, ws: seq<Worker>, a: Account, pass: Pass): Office {
    Office(PoolRuns.Sys([k], now), ws, [a], pass)
  }

  /** The first `c` of `n` workers are at the same point of a lease, the others idle. */
  function Crew(n: nat, c: nat, h: Worker): (ws: seq<Worker>)
    ensures |ws| == n
  {
    seq(n, w => if w < c then h else Idle)
  }

  /** A lease nothing has been charged to yet, one charged all it can be, and one with `calls`
      fight details that cost nothing. */
  const UNTOUCHED := Holding(0, 0.0, 0)
  const CHARGED := Holding(0, BASE_POINTS, MemberModel.ZONES)

  function Free(calls: nat): Worker {
    Holding(0, 0.0, calls)
  }

  lemma CrewGrows(n: nat, c: nat, h: Worker)
    requires c < n
    ensures Crew(n, c, h)[c := h] == Crew(n, c + 1, h) && Crew(n, c + 1, h)[c := Idle] == Crew(n, c, h)
  {
  }

  lemma {:induction false} CrewOpen(n: nat, c: nat, h: Worker)
    requires c <= n && h.Holding? && h.key == 0
    ensures Open(Crew(n, c, h), 0) == c
  {
    if c == 0 {
      NoneOpen(Crew(n, 0, h), 0);
    } else {
      CrewOpen(n, c - 1, h);
      CrewGrows(n, c - 1, h);
      AfterUpdate(Crew(n, c - 1, h), c - 1, h, 0);
    }
  }

  /** The key as start-up leaves it when FFLogs answers with this limit, nothing spent and a full
      hour to go. */
  function FreshKey(limit: nat): Key {
    Key(1, limit, 0, 1 + HOUR, 1, 0, 0, 0, false, false, UNSET)
  }

  function StartUpWith(limit: nat): PoolRuns.StartUp {
    PoolRuns.StartUp([1], [Answered(RateLimitData(limit as real, 0.0, 3600.0), 1)], [Unreachable], None)
  }

  /** The state after that start-up, FFLogs' window ending when it said. */
  function Started(limit: nat, n: nat): Office {
    One(FreshKey(limit), 1, Crew(n, 0, UNTOUCHED), Unused(FreshKey(limit), 1 + HOUR), Resting)
  }

  lemma StartIsReachable(limit: nat, n: nat)
    requires limit > 0
    ensures Reachable(Started(limit, n), n)
  {
    var u, ends := StartUpWith(limit), [1 + HOUR];
    assert RoundUp(0.0) == 0 && ClampResetIn(3600.0) == HOUR && Truncate(limit as real) == limit;
    assert u.Keys() == [FreshKey(limit)];
    var o := Opened(u, 1, n, ends);
    assert o.workers == Started(limit, n).workers && o.accounts == Started(limit, n).accounts;
    assert StartsOk(u, 1) && o == Started(limit, n);
  }

  // ----- its moves

  /** The key is in its window and has points for `leases` more leases at once. */
  predicate Room(k: Key, now: Time, leases: nat) {
    !k.disabled && k.cooldownUntil == UNSET && !Rolls(k, now) &&
    k.spent >= 0 && k.spent + EST_COST * leases <= k.limit - SAFETY_BUDGET
  }

  function Bill(a: Account, points: real): Account {
    a.(truth := a.truth + points, meter := a.meter.(count := a.meter.count + points))
  }

  function PassCharged(p: Pass, points: real): Pass {
    if p.Applying?
    then p.(gap := Tally(p.gap.points + points, p.gap.ended), told := p.told.(count := p.told.count + points))
    else p
  }

  function PassEnded(p: Pass): Pass {
    if p.Applying? then p.(gap := Tally(p.gap.points, p.gap.ended + 1)) else p
  }

  /** Everything is about the one key, and FFLogs' window lasts. */
  predicate OneOk(now: Time, ws: seq<Worker>, a: Account, pass: Pass) {
    && (forall w :: 0 <= w < |ws| && ws[w].Holding? ==> ws[w].key == 0)
    && (pass.Applying? ==> pass.key == 0 && pass.due == [] && now < pass.told.ends)
    && (pass.Asking? ==> forall j <- pass.due :: j == 0)
    && now < a.meter.ends
  }

  lemma TakeStep(k: Key, now: Time, ws: seq<Worker>, a: Account, pass: Pass, w: nat)
    requires OneOk(now, ws, a, pass) && Room(k, now, 1) && w < |ws| && ws[w].Idle?
    ensures var o, m := One(k, now, ws, a, pass), TryAcquire(w, now);
            Legal(o, m) && Next(o, m) == One(Charge(k), now, ws[w := UNTOUCHED], a.(clean := true), pass)
  {
    var o := One(k, now, ws, a, pass);
    assert o.pool.keys[0] == k;
    PickIsTheOnlyFirstBest(RollAll([k], now), now, 0);
    var o' := Next(o, TryAcquire(w, now));
    assert o'.pool.keys == [Charge(k)] && o'.accounts == [a.(clean := true)];
  }

  lemma Take(r: iset<Office>, k: Key, now: Time, ws: seq<Worker>, a: Account, pass: Pass, w: nat)
    requires Closed(r) && One(k, now, ws, a, pass) in r && OneOk(now, ws, a, pass) && Room(k, now, 1)
    requires w < |ws| && ws[w].Idle?
    ensures One(Charge(k), now, ws[w := UNTOUCHED], a.(clean := true), pass) in r
  {
    TakeStep(k, now, ws, a, pass, w);
  }

  lemma AskBase(r: iset<Office>, k: Key, now: Time, ws: seq<Worker>, a: Account, pass: Pass, w: nat, points: real)
    requires Closed(r) && One(k, now, ws, a, pass) in r && OneOk(now, ws, a, pass) && !Rolls(k, now)
    requires w < |ws| && ws[w] == UNTOUCHED && 0.0 <= points <= BASE_POINTS
    ensures One(k, now, ws[w := Holding(0, points, 0)], Bill(a, points), PassCharged(pass, points)) in r
  {
    var o' := Next(One(k, now, ws, a, pass), BaseQuery(w, points, now));
    assert o'.accounts == [Bill(a, points)];
  }

  lemma AskDetail(r: iset<Office>, k: Key, now: Time, ws: seq<Worker>, a: Account, pass: Pass, w: nat, points: real)
    requires Closed(r) && One(k, now, ws, a, pass) in r && OneOk(now, ws, a, pass) && !Rolls(k, now)
    requires w < |ws| && ws[w].Holding? && ws[w].calls < MemberModel.ZONES && 0.0 <= points <= DETAIL_POINTS
    ensures One(k, now, ws[w := ws[w].(calls := ws[w].calls + 1)], Bill(a, points), PassCharged(pass, points)) in r
  {
    var o' := Next(One(k, now, ws, a, pass), FightDetail(w, points, now));
    assert o'.accounts == [Bill(a, points)];
  }

  lemma Settles(r: iset<Office>, k: Key, now: Time, ws: seq<Worker>, a: Account, pass: Pass, w: nat)
    requires Closed(r) && One(k, now, ws, a, pass) in r && OneOk(now, ws, a, pass) && !Rolls(k, now)
    requires k.errCount == 0 && k.spent >= 0 && w < |ws| && ws[w].Holding?
    ensures One(k.(spent := k.spent + MemberModel.DETAIL_COST * ws[w].calls), now, ws[w := Idle], a,
                PassEnded(pass)) in r
  {
    var o' := Next(One(k, now, ws, a, pass), Finish(w, now));
    assert o'.pool.keys == [k.(spent := k.spent + MemberModel.DETAIL_COST * ws[w].calls)] && o'.accounts == [a];
  }

  lemma Panics(r: iset<Office>, k: Key, now: Time, ws: seq<Worker>, a: Account, pass: Pass, w: nat)
    requires Closed(r) && One(k, now, ws, a, pass) in r && OneOk(now, ws, a, pass) && !Rolls(k, now)
    requires w < |ws| && ws[w].Holding?
    ensures One(k, now, ws[w := Idle], a.(failed := a.failed + 1), PassEnded(pass)) in r
  {
    var o' := Next(One(k, now, ws, a, pass), Panic(w, now));
    assert o'.accounts == [a.(failed := a.failed + 1)];
  }

  lemma BillTwice(a: Account, pass: Pass, x: real, y: real)
    ensures Bill(Bill(a, x), y) == Bill(a, x + y) && PassCharged(PassCharged(pass, x), y) == PassCharged(pass, x + y)
  {
  }

  /** A worker asks for the fight details it has left, at full price or for free. */
  lemma {:induction false} AskDetails(r: iset<Office>, k: Key, now: Time, ws: seq<Worker>, a: Account, pass: Pass,
                                      w: nat, free: bool)
    requires Closed(r) && One(k, now, ws, a, pass) in r && OneOk(now, ws, a, pass) && !Rolls(k, now)
    requires w < |ws| && ws[w].Holding? && ws[w].calls <= MemberModel.ZONES
    ensures var points := if free then 0.0 else DETAIL_POINTS * (MemberModel.ZONES - ws[w].calls) as real;
            One(k, now, ws[w := ws[w].(calls := MemberModel.ZONES)], Bill(a, points), PassCharged(pass, points)) in r
    decreases MemberModel.ZONES - ws[w].calls
  {
    var h := ws[w];
    if h.calls == MemberModel.ZONES {
      assert ws[w := h] == ws;
    } else {
      var each := if free then 0.0 else DETAIL_POINTS;
      var h' := h.(calls := h.calls + 1);
      AskDetail(r, k, now, ws, a, pass, w, each);
      AskDetails(r, k, now, ws[w := h'], Bill(a, each), PassCharged(pass, each), w, free);
      BillTwice(a, pass, each, if free then 0.0 else DETAIL_POINTS * (MemberModel.ZONES - h.calls - 1) as real);
      assert ws[w := h'][w := h.(calls := MemberModel.ZONES)] == ws[w := h.(calls := MemberModel.ZONES)];
    }
  }

  /** A worker takes a lease and is charged all that a lease can be. */
  lemma Serve(r: iset<Office>, k: Key, now: Time, ws: seq<Worker>, a: Account, pass: Pass, w: nat)
    requires Closed(r) && One(k, now, ws, a, pass) in r && OneOk(now, ws, a, pass) && Room(k, now, 1)
    requires w < |ws| && ws[w].Idle?
    ensures One(Charge(k), now, ws[w := CHARGED], Bill(a.(clean := true), 60.0), PassCharged(pass, 60.0)) in r
  {
    var k', ws1, a1 := Charge(k), ws[w := UNTOUCHED], a.(clean := true);
    Take(r, k, now, ws, a, pass, w);
    AskBase(r, k', now, ws1, a1, pass, w, BASE_POINTS);
    var ws2 := ws1[w := Holding(0, BASE_POINTS, 0)];
    AskDetails(r, k', now, ws2, Bill(a1, BASE_POINTS), PassCharged(pass, BASE_POINTS), w, false);
    BillTwice(a1, pass, BASE_POINTS, 40.0);
    assert ws2[w := CHARGED] == ws[w := CHARGED];
  }

  /** A worker takes a lease, is charged something for its base queries and settles. */
  lemma ServeBase(r: iset<Office>, k: Key, now: Time, ws: seq<Worker>, a: Account, pass: Pass, w: nat, points: real)
    requires Closed(r) && One(k, now, ws, a, pass) in r && OneOk(now, ws, a, pass) && Room(k, now, 1)
    requires w < |ws| && ws[w].Idle? && k.errCount == 0 && 0.0 <= points <= BASE_POINTS
    ensures One(Charge(k), now, ws, Bill(a.(clean := true), points), PassEnded(PassCharged(pass, points))) in r
  {
    var k', ws1, a1 := Charge(k), ws[w := UNTOUCHED], a.(clean := true);
    Take(r, k, now, ws, a, pass, w);
    AskBase(r, k', now, ws1, a1, pass, w, points);
    var ws2 := ws1[w := Holding(0, points, 0)];
    Settles(r, k', now, ws2, Bill(a1, points), PassCharged(pass, points), w);
    assert ws2[w := Idle] == ws && k'.(spent := k'.spent + MemberModel.DETAIL_COST * 0) == k';
  }

  // ----- the reserve is attained

  /** The key after `g` more leases. */
  function Leased(k: Key, g: nat): Key {
    k.(spent := k.spent + EST_COST * g, useCount := k.useCount + g, usesSinceRefresh := k.usesSinceRefresh + g)
  }

  /** And its account, when each of them has been charged all it can be. */
  function Billed(a: Account, g: nat): Account {
    Bill(a.(clean := a.clean || g > 0), 60.0 * g as real)
  }

  /** The first `g` workers take leases. */
  lemma {:induction false} AllTake(r: iset<Office>, k: Key, now: Time, n: nat, g: nat, a: Account, pass: Pass)
    requires Closed(r) && g <= n && Room(k, now, g) && OneOk(now, [], a, pass)
    requires One(k, now, Crew(n, 0, UNTOUCHED), a, pass) in r
    ensures One(Leased(k, g), now, Crew(n, g, UNTOUCHED), a.(clean := a.clean || g > 0), pass) in r
    decreases g
  {
    if g > 0 {
      AllTake(r, k, now, n, g - 1, a, pass);
      Take(r, Leased(k, g - 1), now, Crew(n, g - 1, UNTOUCHED), a.(clean := a.clean || g > 1), pass, g - 1);
      CrewGrows(n, g - 1, UNTOUCHED);
    }
  }

  /** The first `g` workers, untouched so far, get their details for free and settle, last one first. */
  lemma {:induction false} AllSettleFree(r: iset<Office>, k: Key, now: Time, n: nat, g: nat, a: Account)
    requires Closed(r) && g <= n && k.spent >= 0 && k.errCount == 0 && !Rolls(k, now) && now < a.meter.ends
    requires One(k, now, Crew(n, g, UNTOUCHED), a, Resting) in r
    ensures One(k.(spent := k.spent + 40 * g), now, Crew(n, 0, UNTOUCHED), a, Resting) in r
    decreases g
  {
    if g > 0 {
      var ws := Crew(n, g, UNTOUCHED);
      AskDetails(r, k, now, ws, a, Resting, g - 1, true);
      assert Bill(a, 0.0) == a;
      var ws' := ws[g - 1 := Free(MemberModel.ZONES)];
      Settles(r, k, now, ws', a, Resting, g - 1);
      CrewGrows(n, g - 1, UNTOUCHED);
      assert ws'[g - 1 := Idle] == Crew(n, g - 1, UNTOUCHED);
      AllSettleFree(r, k.(spent := k.spent + 40), now, n, g - 1, a);
    }
  }

  /** The end of that run, from a start with just enough room for `n` leases at once. */
  function SpentDown(n: nat): Office {
    var limit := SAFETY_BUDGET + EST_COST * n;
    One(FreshKey(limit).(spent := EST_COST * n + 40 * n, useCount := n, usesSinceRefresh := n), 1,
        Crew(n, 0, UNTOUCHED), Unused(FreshKey(limit), 1 + HOUR).(clean := true), Resting)
  }

  lemma SpendDown(r: iset<Office>, n: nat)
    requires Closed(r) && n > 0 && Started(SAFETY_BUDGET + EST_COST * n, n) in r
    ensures SpentDown(n) in r
  {
    var k := FreshKey(SAFETY_BUDGET + EST_COST * n);
    var a := Unused(k, 1 + HOUR);
    AllTake(r, k, 1, n, n, a, Resting);
    AllSettleFree(r, Leased(k, n), 1, n, n, a.(clean := true));
  }

  /** For every number of workers, a state is reachable with every lease settled, the key clean, and
      its estimate exactly at the reserve bound: with eight workers 180 points remain. */
  lemma ReserveBoundIsAttained(n: nat)
    requires n > 0
    ensures exists o: Office ::
              && Reachable(o, n) && |o.pool.keys| == |o.accounts| == 1
              && o.accounts[0].clean && Open(o.workers, 0) == 0
              && o.pool.keys[0].spent == o.pool.keys[0].limit - SAFETY_BUDGET + 40 * n
  {
    StartIsReachable(SAFETY_BUDGET + EST_COST * n, n);
    forall r: iset<Office> | HasStarts(r, n) && Closed(r)
      ensures SpentDown(n) in r
    {
      SpendDown(r, n);
    }
    CrewOpen(n, 0, UNTOUCHED);
    assert Reachable(SpentDown(n), n);
  }

  // ----- the drift is attained

  const DUE: Time := 1 + RECONCILE_EVERY
  const END: Time := 1 + HOUR

  /** A Reconcile answer that leaves the limit and the window as they are, and reports nothing spent. */
  const NO_NEWS := RateLimitData(0.0, 0.0, 0.0)

  /** The pass between that answer and its use, with `gap` on the key since. */
  function Waiting(gap: Tally): Pass {
    Applying(0, NO_NEWS, DUE, gap, Meter(gap.points, END), [])
  }

  /** The pool's key, as start-up left it, is found due and queried. */
  lemma AnswerComes(r: iset<Office>, limit: nat, n: nat)
    requires Closed(r) && Started(limit, n) in r
    ensures One(FreshKey(limit), DUE, Crew(n, 0, UNTOUCHED), Unused(FreshKey(limit), END), Waiting(NOTHING)) in r
  {
    var k, ws, a := FreshKey(limit), Crew(n, 0, UNTOUCHED), Unused(FreshKey(limit), END);
    assert [k][..0] == [] && DueIndices([k], DUE) == [0];
    var o1 := Next(Started(limit, n), BeginPass(DUE));
    assert o1.accounts == [a] && o1 == One(k, DUE, ws, a, Asking([0]));
    var o2 := Next(o1, Answer(NO_NEWS, DUE));
    assert o2.accounts == [a] && [0][1..] == [];
  }

  /** While the answer is on its way, `e` leases come and go, each charged all it can be. */
  lemma {:induction false} LeasesLost(r: iset<Office>, limit: nat, n: nat, e: nat)
    requires Closed(r) && n > 0 && 60 * e <= limit - SAFETY_BUDGET
    requires One(FreshKey(limit), DUE, Crew(n, 0, UNTOUCHED), Unused(FreshKey(limit), END), Waiting(NOTHING)) in r
    ensures One(FreshKey(limit).(spent := 60 * e, useCount := e, usesSinceRefresh := e), DUE, Crew(n, 0, UNTOUCHED),
                Billed(Unused(FreshKey(limit), END), e), Waiting(Tally(60.0 * e as real, e))) in r
    decreases e
  {
    var a0 := Unused(FreshKey(limit), END);
    if e == 0 {
      assert Billed(a0, 0) == a0;
    } else {
      LeasesLost(r, limit, n, e - 1);
      var k1 := FreshKey(limit).(spent := 60 * (e - 1), useCount := e - 1, usesSinceRefresh := e - 1);
      var a1, pass, ws := Billed(a0, e - 1), Waiting(Tally(60.0 * (e - 1) as real, e - 1)), Crew(n, 0, UNTOUCHED);
      Serve(r, k1, DUE, ws, a1, pass, 0);
      assert Bill(a1.(clean := true), 60.0) == Billed(a0, e);
      Settles(r, Charge(k1), DUE, ws[0 := CHARGED], Billed(a0, e), PassCharged(pass, 60.0), 0);
      assert ws[0 := CHARGED][0 := Idle] == ws;
    }
  }

  /** The account of a key refreshed with that answer while `s` leases are open. */
  function Refreshed(gap: Tally, s: nat): Account {
    Account(false, 0, gap.points, 0, s, gap.ended, NOTHING, Meter(gap.points, END), 0.0)
  }

  lemma AnswerApplied(r: iset<Office>, k: Key, n: nat, s: nat, a: Account, gap: Tally)
    requires Closed(r) && s <= n && a.late == NOTHING && !Rolls(k, DUE)
    requires One(k, DUE, Crew(n, s, UNTOUCHED), a, Waiting(gap)) in r
    ensures One(k.(spent := 0, lastRefreshAt := DUE, usesSinceRefresh := 0, errCount := 0), DUE, Crew(n, s, UNTOUCHED),
                Refreshed(gap, s), Asking([])) in r
  {
    var k' := k.(spent := 0, lastRefreshAt := DUE, usesSinceRefresh := 0, errCount := 0);
    CrewOpen(n, s, UNTOUCHED);
    assert RoundUp(0.0) == 0;
    var o' := Next(One(k, DUE, Crew(n, s, UNTOUCHED), a, Waiting(gap)), Apply(DUE, DUE));
    assert o'.pool.keys == [k'] && o'.accounts == [Refreshed(gap, s)];
  }

  /** The leases it left open make their base queries and settle. */
  lemma {:induction false} AllSettle(r: iset<Office>, k: Key, n: nat, s: nat, a: Account)
    requires Closed(r) && s <= n && k.spent >= 0 && k.errCount == 0 && !Rolls(k, DUE) && DUE < a.meter.ends
    requires One(k, DUE, Crew(n, s, UNTOUCHED), a, Asking([])) in r
    ensures One(k, DUE, Crew(n, 0, UNTOUCHED), Bill(a, 20.0 * s as real), Asking([])) in r
    decreases s
  {
    if s == 0 {
      assert Bill(a, 0.0) == a;
    } else {
      var ws := Crew(n, s, UNTOUCHED);
      AskBase(r, k, DUE, ws, a, Asking([]), s - 1, BASE_POINTS);
      var ws' := ws[s - 1 := Holding(0, BASE_POINTS, 0)];
      Settles(r, k, DUE, ws', Bill(a, 20.0), Asking([]), s - 1);
      CrewGrows(n, s - 1, UNTOUCHED);
      assert ws'[s - 1 := Idle] == Crew(n, s - 1, UNTOUCHED);
      AllSettle(r, k, n, s - 1, Bill(a, 20.0));
      BillTwice(a, Asking([]), 20.0, 20.0 * (s - 1) as real);
    }
  }

  /** A worker takes `f` more leases, and each ends in a panic. */
  lemma {:induction false} AllPanic(r: iset<Office>, k: Key, n: nat, f: nat, a: Account)
    requires Closed(r) && n > 0 && Room(k, DUE, f) && DUE < a.meter.ends
    requires One(k, DUE, Crew(n, 0, UNTOUCHED), a, Asking([])) in r
    ensures One(Leased(k, f), DUE, Crew(n, 0, UNTOUCHED), Billed(a, f).(failed := a.failed + f), Asking([])) in r
    decreases f
  {
    if f == 0 {
      assert Billed(a, 0) == a;
    } else {
      AllPanic(r, k, n, f - 1, a);
      var k1, a1, ws := Leased(k, f - 1), Billed(a, f - 1).(failed := a.failed + f - 1), Crew(n, 0, UNTOUCHED);
      Serve(r, k1, DUE, ws, a1, Asking([]), 0);
      assert Bill(a1.(clean := true), 60.0) == Billed(a, f).(failed := a.failed + f - 1);
      Panics(r, Charge(k1), DUE, ws[0 := CHARGED], Billed(a, f).(failed := a.failed + f - 1), Asking([]), 0);
      assert ws[0 := CHARGED][0 := Idle] == ws;
    }
  }

  /** The first `g` workers take leases that stay open. */
  lemma {:induction false} AllServe(r: iset<Office>, k: Key, now: Time, n: nat, g: nat, a: Account, pass: Pass)
    requires Closed(r) && g <= n && Room(k, now, g) && OneOk(now, [], a, pass) && !pass.Applying?
    requires One(k, now, Crew(n, 0, UNTOUCHED), a, pass) in r
    ensures One(Leased(k, g), now, Crew(n, g, CHARGED), Billed(a, g), pass) in r
    decreases g
  {
    if g == 0 {
      assert Billed(a, 0) == a && Crew(n, 0, CHARGED) == Crew(n, 0, UNTOUCHED);
    } else {
      AllServe(r, k, now, n, g - 1, a, pass);
      Serve(r, Leased(k, g - 1), now, Crew(n, g - 1, CHARGED), Billed(a, g - 1), pass, g - 1);
      assert Bill(Billed(a, g - 1).(clean := true), 60.0) == Billed(a, g);
      CrewGrows(n, g - 1, CHARGED);
    }
  }

  /** Room for all of that. */
  function LimitFor(open: nat, failed: nat, straddled: nat, lost: nat): nat {
    SAFETY_BUDGET + 60 * lost + EST_COST * (straddled + failed + open) + 1
  }

  /** The account after `lost` leases between the answer and its use, `straddled` open at that moment,
      and `failed` panics. */
  function DriftedAccount(failed: nat, straddled: nat, lost: nat): Account {
    var a := Bill(Refreshed(Tally(60.0 * lost as real, lost), straddled), 20.0 * straddled as real);
    Billed(a, failed).(failed := failed)
  }

  /** The end of the run: `open` leases are left, each charged all it can be. */
  function Drifted(n: nat, open: nat, failed: nat, straddled: nat, lost: nat): Office {
    var k := FreshKey(LimitFor(open, failed, straddled, lost)).(lastRefreshAt := DUE, useCount := lost + straddled);
    One(Leased(Leased(k, failed), open), DUE, Crew(n, open, CHARGED),
        Billed(DriftedAccount(failed, straddled, lost), open), Asking([]))
  }

  lemma DriftsSoFar(r: iset<Office>, n: nat, open: nat, failed: nat, straddled: nat, lost: nat)
    requires Closed(r) && n > 0 && open <= n && straddled <= n
    requires Started(LimitFor(open, failed, straddled, lost), n) in r
    ensures Drifted(n, open, failed, straddled, lost) in r
  {
    var limit := LimitFor(open, failed, straddled, lost);
    AnswerComes(r, limit, n);
    LeasesLost(r, limit, n, lost);
    var k1 := FreshKey(limit).(spent := 60 * lost, useCount := lost, usesSinceRefresh := lost);
    var a1, gap := Billed(Unused(FreshKey(limit), END), lost), Tally(60.0 * lost as real, lost);
    AllTake(r, k1, DUE, n, straddled, a1, Waiting(gap));
    AnswerApplied(r, Leased(k1, straddled), n, straddled, a1.(clean := a1.clean || straddled > 0), gap);
    var k2 := FreshKey(limit).(lastRefreshAt := DUE, useCount := lost + straddled);
    AllSettle(r, k2, n, straddled, Refreshed(gap, straddled));
    AllPanic(r, k2, n, failed, Bill(Refreshed(gap, straddled), 20.0 * straddled as real));
    AllServe(r, Leased(k2, failed), DUE, n, open, DriftedAccount(failed, straddled, lost), Asking([]));
  }

  /** The drift bound is attained, whatever the numbers of leases it counts: each of its four terms
      is needed in full. */
  lemma DriftBoundIsAttained(n: nat, open: nat, failed: nat, straddled: nat, lost: nat)
    requires n > 0 && open <= n && straddled <= n
    ensures exists o: Office ::
              && Reachable(o, n) && |o.pool.keys| == |o.accounts| == 1
              && Open(o.workers, 0) == open && o.accounts[0].failed == failed
              && o.accounts[0].straddled == straddled && o.accounts[0].lost == lost
              && Drift(o.pool.keys[0], o.accounts[0]) ==
                 40.0 * (open + failed) as real + 20.0 * straddled as real + 60.0 * lost as real
  {
    var o := Drifted(n, open, failed, straddled, lost);
    StartIsReachable(LimitFor(open, failed, straddled, lost), n);
    forall r: iset<Office> | HasStarts(r, n) && Closed(r)
      ensures o in r
    {
      DriftsSoFar(r, n, open, failed, straddled, lost);
    }
    CrewOpen(n, open, CHARGED);
    assert Reachable(o, n);
  }

  /** The last replacement of the estimate left `straddled` leases open and came after `lost` had
      ended since its reading. */
  predicate LastReplaced(o: Office, i: nat, straddled: nat, lost: nat)
    requires i < |o.pool.keys| == |o.accounts|
  {
    o.accounts[i].straddled == straddled && o.accounts[i].lost == lost
  }

  /** So 40 points for each open or failed lease are enough in all such states exactly when both
      numbers are zero. */
  lemma PlainExactlyWithoutStraddlers(n: nat, straddled: nat, lost: nat)
    requires n > 0 && straddled <= n
    ensures (forall o: Office, i: nat | Reachable(o, n) && i < |o.pool.keys| == |o.accounts| ::
               LastReplaced(o, i, straddled, lost) ==> PlainBound(o, i)) <==>
            (straddled == 0 && lost == 0)
  {
    if straddled == 0 && lost == 0 {
      forall o: Office, i: nat | Reachable(o, n) && i < |o.pool.keys| == |o.accounts|
        ensures LastReplaced(o, i, straddled, lost) ==> PlainBound(o, i)
      {
        DriftBound(o, n, i);
      }
    } else {
      DriftBoundIsAttained(n, 0, 0, straddled, lost);
      var o: Office :| && Reachable(o, n) && |o.pool.keys| == |o.accounts| == 1
                       && Open(o.workers, 0) == 0 && o.accounts[0].failed == 0
                       && o.accounts[0].straddled == straddled && o.accounts[0].lost == lost
                       && Drift(o.pool.keys[0], o.accounts[0]) ==
                          40.0 * (0 + 0) as real + 20.0 * straddled as real + 60.0 * lost as real;
      assert LastReplaced(o, 0, straddled, lost) && !PlainBound(o, 0);
    }
  }
}
