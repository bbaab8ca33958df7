/** "Reaching the threshold disables the key": what of it holds. The workers' leases and Reconcile's
    passes are those of the lease ledger; beside each state stands what one key's queries and leases
    have told since start-up. */
module FailureRule {
  import opened Basics
  import opened KeyModel
  import opened LeaseLedger
  import opened BoundsAreTight
  import PoolRuns
  import PoolSpec

  /** What a move tells about key `i`. */
  function SignalsOf(o: Office, m: Move, i: nat): seq<PoolRuns.Signal>
    requires Legal(o, m)
  {
    if PoolEvent(o, m).Some? then PoolRuns.SignalOf(PoolEvent(o, m).value, i) else []
  }

  /** A state with the history of one key. */
  datatype Told = Told(o: Office, h: seq<PoolRuns.Signal>)

  ghost predicate ClosedWith(states: iset<Told>, i: nat) {
    forall t, m :: t in states && Legal(t.o, m) ==> Told(Next(t.o, m), t.h + SignalsOf(t.o, m, i)) in states
  }

  ghost predicate HasStartsWith(states: iset<Told>, n: nat, i: nat) {
    forall u: PoolRuns.StartUp, t0: Time, ends: seq<Time> ::
      StartsOk(u, t0) && i < |u.Keys()| == |ends| ==>
        Told(Opened(u, t0, n, ends), PoolRuns.StartHistory(u, i)) in states
  }

  /** Reachable with `n` workers, with this history of key `i`. */
  ghost predicate ReachableWith(t: Told, n: nat, i: nat) {
    forall states: iset<Told> :: HasStartsWith(states, n, i) && ClosedWith(states, i) ==> t in states
  }

  /** One move breaks the rule: Reconcile's failed query of an enabled key that is one failure short. */
  lemma MoveBreaksRuleExactly(o: Office, m: Move, i: nat)
    requires Legal(o, m) && i < |o.pool.keys| && PoolRuns.Rule(o.pool.keys[i])
    ensures PoolRuns.Rule(Next(o, m).pool.keys[i]) <==>
            !(m.QueryLost? && o.pass.due[0] == i && !o.pool.keys[i].disabled &&
              o.pool.keys[i].errCount == FORBIDDEN_ERRORS - 1)
  {
    if PoolEvent(o, m).Some? {
      PoolRuns.RuleBreaksExactly(o.pool, PoolEvent(o, m).value, i);
    }
  }

  // ----- the history decides

  ghost predicate Matches(t: Told, i: nat) {
    i < |t.o.pool.keys| && PoolRuns.ErrorsMatch(t.o.pool.keys[i], t.h)
  }

  lemma MatchesNext(t: Told, m: Move, i: nat)
    requires Matches(t, i) && Legal(t.o, m)
    ensures Matches(Told(Next(t.o, m), t.h + SignalsOf(t.o, m, i)), i)
  {
    if PoolEvent(t.o, m).Some? {
      PoolRuns.ErrorsMatchNext(t.o.pool, PoolEvent(t.o, m).value, i, t.h);
    } else {
      assert t.h + [] == t.h;
    }
  }

  lemma ReachableMatches(t: Told, n: nat, i: nat)
    requires ReachableWith(t, n, i)
    ensures Matches(t, i)
  {
    var states := iset x: Told | Matches(x, i);
    forall u: PoolRuns.StartUp, t0: Time, ends: seq<Time> | StartsOk(u, t0) && i < |u.Keys()| == |ends|
      ensures Told(Opened(u, t0, n, ends), PoolRuns.StartHistory(u, i)) in states
    {
      PoolRuns.StartErrorsMatch(u, i);
    }
    forall x, m | x in states && Legal(x.o, m)
      ensures Told(Next(x.o, m), x.h + SignalsOf(x.o, m, i)) in states
    {
      MatchesNext(x, m, i);
    }
    assert HasStartsWith(states, n, i) && ClosedWith(states, i);
    assert t in states;
  }

  // ----- a run that breaks the rule

  const LIMIT: nat := SAFETY_BUDGET + EST_COST * FORBIDDEN_ERRORS

  function Failures(g: nat, x: PoolRuns.Signal): seq<PoolRuns.Signal> {
    seq(g, _ => x)
  }

  /** The key after `g` leases that ended in errors, and `q` failed queries. */
  function Worn(g: nat, q: nat): Key {
    Leased(FreshKey(LIMIT), g).(errCount := g + q)
  }

  /** Its account: with each lease one failure. */
  function WornAccount(g: nat): Account {
    Unused(FreshKey(LIMIT), 1 + HOUR).(clean := g > 0, failed := g)
  }

  function History(g: nat, q: nat): seq<PoolRuns.Signal> {
    [PoolRuns.Success] + Failures(g, PoolRuns.LeaseFailure) + Failures(q, PoolRuns.QueryFailure)
  }

  lemma StartIsIn(states: iset<Told>, n: nat)
    requires HasStartsWith(states, n, 0)
    ensures Told(Started(LIMIT, n), History(0, 0)) in states
  {
    var u, ends := StartUpWith(LIMIT), [1 + HOUR];
    assert RoundUp(0.0) == 0 && ClampResetIn(3600.0) == HOUR && Truncate(LIMIT as real) == LIMIT;
    assert u.Keys() == [FreshKey(LIMIT)];
    var o := Opened(u, 1, n, ends);
    assert o.workers == Started(LIMIT, n).workers && o.accounts == Started(LIMIT, n).accounts;
    assert PoolRuns.StartHistory(u, 0) == History(0, 0);
    assert StartsOk(u, 1) && Told(o, PoolRuns.StartHistory(u, 0)) in states;
  }

  lemma FailStep(k: Key, now: Time, n: nat, a: Account)
    requires n > 0 && !Rolls(k, now) && now < a.meter.ends && !k.disabled && k.errCount + 1 < FORBIDDEN_ERRORS
    ensures var o, m := One(k, now, Crew(n, 1, UNTOUCHED), a, Resting), FailLease(0, Transient, now);
            && Legal(o, m) && SignalsOf(o, m, 0) == [PoolRuns.LeaseFailure]
            && Next(o, m) == One(k.(errCount := k.errCount + 1), now, Crew(n, 0, UNTOUCHED), a.(failed := a.failed + 1),
                                 Resting)
  {
    var o, m := One(k, now, Crew(n, 1, UNTOUCHED), a, Resting), FailLease(0, Transient, now);
    CrewGrows(n, 0, UNTOUCHED);
    var o' := Next(o, m);
    assert o'.pool.keys == [k.(errCount := k.errCount + 1)] && o'.accounts == [a.(failed := a.failed + 1)];
  }

  lemma {:induction false} HistoryGrows(g: nat, q: nat)
    ensures History(g, 0) + [PoolRuns.LeaseFailure] == History(g + 1, 0)
    ensures History(g, q) + [PoolRuns.QueryFailure] == History(g, q + 1)
    ensures History(g, q) + [] == History(g, q)
  {
  }

  lemma LeaseFails(states: iset<Told>, n: nat, g: nat)
    requires ClosedWith(states, 0) && n > 0 && g + 1 < FORBIDDEN_ERRORS
    requires Told(One(Worn(g, 0), 1, Crew(n, 0, UNTOUCHED), WornAccount(g), Resting), History(g, 0)) in states
    ensures Told(One(Worn(g + 1, 0), 1, Crew(n, 0, UNTOUCHED), WornAccount(g + 1), Resting), History(g + 1, 0))
            in states
  {
    var k, a, ws := Worn(g, 0), WornAccount(g), Crew(n, 0, UNTOUCHED);
    var o0 := One(k, 1, ws, a, Resting);
    var o1 := One(Charge(k), 1, Crew(n, 1, UNTOUCHED), a.(clean := true), Resting);
    TakeStep(k, 1, ws, a, Resting, 0);
    CrewGrows(n, 0, UNTOUCHED);
    HistoryGrows(g, 0);
    assert Next(o0, TryAcquire(0, 1)) == o1 && SignalsOf(o0, TryAcquire(0, 1), 0) == [];
    assert Told(o1, History(g, 0)) in states;
    FailStep(Charge(k), 1, n, a.(clean := true));
  }

  /** Fewer than a hundred leases in a row end in transient errors. */
  lemma {:induction false} LeasesFail(states: iset<Told>, n: nat, g: nat)
    requires ClosedWith(states, 0) && n > 0 && g < FORBIDDEN_ERRORS
    requires Told(Started(LIMIT, n), History(0, 0)) in states
    ensures Told(One(Worn(g, 0), 1, Crew(n, 0, UNTOUCHED), WornAccount(g), Resting), History(g, 0)) in states
    decreases g
  {
    if g > 0 {
      LeasesFail(states, n, g - 1);
      LeaseFails(states, n, g - 1);
    }
  }

  /** One pass a minute, as Reconcile's ticker has it. */
  function PassTime(q: nat): Time {
    1 + q * MINUTE
  }

  function MeterAt(q: nat): Meter {
    if q == 0 then Meter(0.0, 1 + HOUR) else Turned(MeterAt(q - 1), PassTime(q))
  }

  lemma TurnedOnce(meter: Meter, at: Time)
    ensures at < Turned(meter, at).ends && Turned(Turned(meter, at), at) == Turned(meter, at)
  {
    if meter.ends <= at {
      var hours := (at - meter.ends) / HOUR;
      assert at - meter.ends < HOUR * (hours + 1);
    }
  }

  lemma {:induction false} NothingCounted(q: nat)
    ensures MeterAt(q).count == 0.0
  {
    if q > 0 {
      NothingCounted(q - 1);
    }
  }

  /** After `q` failed passes, somewhere in a pass. */
  function Unanswered(n: nat, g: nat, q: nat, at: Time, meter: Meter, pass: Pass): Office {
    One(Worn(g, q), at, Crew(n, 0, UNTOUCHED), WornAccount(g).(meter := meter), pass)
  }

  lemma PassBegins(n: nat, g: nat, q: nat, now: Time, at: Time, meter: Meter)
    requires g >= RECONCILE_USES && now <= at && meter.count == 0.0
    ensures var o := Unanswered(n, g, q, now, meter, Resting);
            && Legal(o, BeginPass(at))
            && Next(o, BeginPass(at)) == Unanswered(n, g, q, at, Turned(meter, at), Asking([0]))
  {
    var k, o := Worn(g, q), Unanswered(n, g, q, now, meter, Resting);
    assert [k][..0] == [] && PoolSpec.DueIndices([k], at) == [0];
    var o' := Next(o, BeginPass(at));
    assert o'.accounts == [WornAccount(g).(meter := Turned(meter, at))];
  }

  lemma QueryFails(n: nat, g: nat, q: nat, at: Time, meter: Meter)
    requires meter == Turned(meter, at)
    ensures var o := Unanswered(n, g, q, at, meter, Asking([0]));
            && Legal(o, QueryLost(at)) && SignalsOf(o, QueryLost(at), 0) == [PoolRuns.QueryFailure]
            && Next(o, QueryLost(at)) == Unanswered(n, g, q + 1, at, meter, Asking([]))
  {
    var o := Unanswered(n, g, q, at, meter, Asking([0]));
    var o' := Next(o, QueryLost(at));
    assert o'.pool.keys == [Worn(g, q + 1)] && o'.accounts == [WornAccount(g).(meter := meter)] && [0][1..] == [];
  }

  lemma PassEnds(n: nat, g: nat, q: nat, at: Time, meter: Meter)
    requires meter == Turned(meter, at)
    ensures var o := Unanswered(n, g, q, at, meter, Asking([]));
            Legal(o, EndPass(at)) && Next(o, EndPass(at)) == Unanswered(n, g, q, at, meter, Resting)
  {
    var o' := Next(Unanswered(n, g, q, at, meter, Asking([])), EndPass(at));
    assert o'.accounts == [WornAccount(g).(meter := meter)];
  }

  lemma PassFails(states: iset<Told>, n: nat, g: nat, q: nat)
    requires ClosedWith(states, 0) && g >= RECONCILE_USES
    requires Told(Unanswered(n, g, q, PassTime(q), MeterAt(q), Resting), History(g, q)) in states
    ensures Told(Unanswered(n, g, q + 1, PassTime(q + 1), MeterAt(q + 1), Resting), History(g, q + 1)) in states
  {
    var at, meter := PassTime(q + 1), MeterAt(q + 1);
    NothingCounted(q);
    TurnedOnce(MeterAt(q), at);
    HistoryGrows(g, q);
    HistoryGrows(g, q + 1);
    PassBegins(n, g, q, PassTime(q), at, MeterAt(q));
    assert Told(Unanswered(n, g, q, at, meter, Asking([0])), History(g, q)) in states;
    QueryFails(n, g, q, at, meter);
    assert Told(Unanswered(n, g, q + 1, at, meter, Asking([])), History(g, q + 1)) in states;
    PassEnds(n, g, q + 1, at, meter);
  }

  lemma {:induction false} PassesFail(states: iset<Told>, n: nat, g: nat, q: nat)
    requires ClosedWith(states, 0) && n > 0 && RECONCILE_USES <= g < FORBIDDEN_ERRORS
    requires HasStartsWith(states, n, 0)
    ensures Told(Unanswered(n, g, q, PassTime(q), MeterAt(q), Resting), History(g, q)) in states
    decreases q
  {
    if q == 0 {
      StartIsIn(states, n);
      LeasesFail(states, n, g);
      assert WornAccount(g).(meter := MeterAt(0)) == WornAccount(g);
    } else {
      PassesFail(states, n, g, q - 1);
      PassFails(states, n, g, q - 1);
    }
  }

  lemma {:induction false} QueriesEndIt(g: nat, q: nat)
    requires g > 0
    ensures PoolRuns.FailedQuerySuffix(History(g, q)) == q
  {
    if q == 0 {
      assert History(g, 0)[|History(g, 0)| - 1] == PoolRuns.LeaseFailure;
    } else {
      HistoryGrows(g, q - 1);
      QueriesEndIt(g, q - 1);
      PoolRuns.SuffixesAfter(History(g, q - 1), PoolRuns.QueryFailure);
    }
  }

  /** The rule holds of all reachable keys whose history ends in exactly `q` failed rate-limit queries
      if and only if `q` is zero: the workers alone never leave an enabled key at the threshold, and
      any number of failed passes can. */
  lemma RuleHoldsExactly(n: nat, q: nat)
    requires n > 0
    ensures (forall t: Told, i: nat | ReachableWith(t, n, i) && i < |t.o.pool.keys| ::
               PoolRuns.FailedQuerySuffix(t.h) == q ==> PoolRuns.Rule(t.o.pool.keys[i])) <==>
            q == 0
  {
    if q == 0 {
      forall t: Told, i: nat | ReachableWith(t, n, i) && i < |t.o.pool.keys|
        ensures PoolRuns.FailedQuerySuffix(t.h) == q ==> PoolRuns.Rule(t.o.pool.keys[i])
      {
        ReachableMatches(t, n, i);
      }
    } else {
      var g := FORBIDDEN_ERRORS - 1;
      var t := Told(Unanswered(n, g, q, PassTime(q), MeterAt(q), Resting), History(g, q));
      forall states: iset<Told> | HasStartsWith(states, n, 0) && ClosedWith(states, 0)
        ensures t in states
      {
        PassesFail(states, n, g, q);
      }
      QueriesEndIt(g, q);
      assert ReachableWith(t, n, 0) && !PoolRuns.Rule(t.o.pool.keys[0]);
    }
  }
}
