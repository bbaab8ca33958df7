/** The retry time Acquire reports on exhaustion, and the sleep waitForKey makes of it. */
module RetryTime {
  import opened Basics
  import opened KeyModel
  import opened PoolSpec
  import opened PoolRuns

  const FALLBACK_WAIT: nat := 10 * SECOND
  const PER_MEMBER_TIMEOUT: nat := 60 * SECOND
  const MAX_WAIT: nat := HOUR

  /** waitForKey's sleep: until the retry time, ten seconds when that is not ahead, one hour at most. */
  function Wait(retryAt: Time, now: Time): (w: nat)
    ensures retryAt <= now ==> w == 10 * SECOND
    ensures now < retryAt <= now + HOUR ==> now + w == retryAt
    ensures now + HOUR < retryAt ==> w == HOUR
  {
    var wait := if retryAt <= now then FALLBACK_WAIT else retryAt - now;
    if wait > MAX_WAIT then MAX_WAIT else wait
  }

  /** A key that an Acquire at `u` would roll into a window with room for a lease. */
  predicate Recovers(k: Key, u: Time) {
    !k.disabled && k.resetAt < u && k.limit >= MIN_BUDGET
  }

  /** Every enabled key is out of points, and the earliest of their windows ends at `t`. */
  ghost predicate DryUntil(ks: seq<Key>, t: Time) {
    && (forall i :: 0 <= i < |ks| && !ks[i].disabled ==>
          ks[i].cooldownUntil == UNSET && ks[i].resetAt != UNSET && ks[i].Remaining() < MIN_BUDGET)
    && IsLeastOf(ks, t, (k: Key) => k.resetAt)
  }

  /** Rolling at `now` leaves every window of a reachable pool at or after `now`. */
  lemma RolledWindows(s: Sys, now: Time)
    requires PoolInv(s) && s.now <= now
    ensures forall i :: 0 <= i < |s.keys| && !s.keys[i].disabled ==>
                          var k := RollAll(s.keys, now)[i];
                          && !k.disabled && k.cooldownUntil == UNSET
                          && now <= k.resetAt <= now + HOUR && k.resetAt != UNSET
  {
  }

  /** Without cooldowns the reported time is the earliest window end of the enabled keys. */
  lemma EarliestWindow(ks: seq<Key>, now: Time)
    requires forall i :: 0 <= i < |ks| && !ks[i].disabled ==>
                           ks[i].cooldownUntil == UNSET && ks[i].resetAt != UNSET && ks[i].Remaining() < MIN_BUDGET
    ensures DryUntil(ks, Earliest(ks, now))
  {
    EarliestIsLeast(ks, now);
    assert forall k: Key :: k.cooldownUntil == UNSET ==> Candidate(k, now) == k.resetAt;
  }

  lemma ExhaustedIsDry(s: Sys, now: Time)
    requires PoolInv(s) && s.now <= now && AcquireOutcome(s.keys, now).Exhausted?
    ensures DryUntil(AcquireKeys(s.keys, now), AcquireOutcome(s.keys, now).retryAt)
  {
    RolledWindows(s, now);
    PickIsFirstBest(RollAll(s.keys, now), now);
    EarliestWindow(RollAll(s.keys, now), now);
  }

  lemma LeastIsUnique(ks: seq<Key>, t: Time, u: Time, at: Key -> Time)
    requires IsLeastOf(ks, t, at) && IsLeastOf(ks, u, at)
    requires forall i :: 0 <= i < |ks| && !ks[i].disabled ==> at(ks[i]) != UNSET
    ensures t == u
  {
  }

  /** Until its retry time a dry pool answers every Acquire alike and stays dry. */
  lemma DryBefore(ks: seq<Key>, t: Time, u: Time)
    requires ks != [] && DryUntil(ks, t) && (u <= t || t == UNSET)
    ensures AcquireOutcome(ks, u) == Exhausted(t)
    ensures DryUntil(AcquireKeys(ks, u), t)
    ensures forall i :: 0 <= i < |ks| && !ks[i].disabled ==> AcquireKeys(ks, u)[i] == ks[i]
  {
    var rolled := RollAll(ks, u);
    assert forall i :: 0 <= i < |ks| && !ks[i].disabled ==> rolled[i] == ks[i];
    DryRolled(ks, rolled, t);
    PickIsFirstBest(rolled, u);
    EarliestWindow(rolled, u);
    LeastIsUnique(rolled, t, Earliest(rolled, u), (k: Key) => k.resetAt);
  }

  lemma DryRolled(ks: seq<Key>, rolled: seq<Key>, t: Time)
    requires DryUntil(ks, t) && |rolled| == |ks|
    requires forall i :: 0 <= i < |ks| ==> rolled[i].disabled == ks[i].disabled
    requires forall i :: 0 <= i < |ks| && !ks[i].disabled ==> rolled[i] == ks[i]
    ensures DryUntil(rolled, t)
  {
  }

  /** Every one of a sequence of attempts, each at or before the retry time, gets the same answer. */
  ghost predicate AllAttempts(ks: seq<Key>, us: seq<Time>, answer: Outcome)
    decreases |us|
  {
    us == [] || (AcquireOutcome(ks, us[0]) == answer && AllAttempts(AcquireKeys(ks, us[0]), us[1..], answer))
  }

  lemma {:induction false} EveryAttemptRepeats(ks: seq<Key>, t: Time, us: seq<Time>)
    requires ks != [] && DryUntil(ks, t) && forall u <- us :: u <= t || t == UNSET
    ensures AllAttempts(ks, us, Exhausted(t))
    decreases |us|
  {
    if us != [] {
      assert us[0] in us && forall u <- us[1..] :: u in us;
      DryBefore(ks, t, us[0]);
      EveryAttemptRepeats(AcquireKeys(ks, us[0]), t, us[1..]);
    }
  }

  /** A dry pool grants a lease exactly when some enabled key's window has ended and its limit
      leaves room for one. */
  lemma DryAt(ks: seq<Key>, t: Time, u: Time)
    requires ks != [] && DryUntil(ks, t)
    ensures AcquireOutcome(ks, u).Granted? <==> exists i :: 0 <= i < |ks| && Recovers(ks[i], u)
  {
    var rolled := RollAll(ks, u);
    PickIsFirstBest(rolled, u);
    forall i | 0 <= i < |ks|
      ensures rolled[i].Available(u, MIN_BUDGET) <==> Recovers(ks[i], u)
    {
    }
  }

  /** The retry time is exact. In a reachable state where Acquire reports exhaustion with time t
      and nothing else runs: t is unset exactly when every key is disabled, and then every later attempt
      gets the same answer; otherwise t is a real reset time not before now and within the hour,
      every sequence of attempts up to and including t gets the same answer, and after t Acquire
      succeeds at exactly the moments at which a key whose window has ended has room for a lease. */
  lemma RetryTimeIsExact(s: Sys, now: Time)
    requires PoolInv(s) && s.now <= now && AcquireOutcome(s.keys, now).Exhausted?
    ensures var t := AcquireOutcome(s.keys, now).retryAt;
            var ks := AcquireKeys(s.keys, now);
            && (t == UNSET <==> forall i :: 0 <= i < |ks| ==> ks[i].disabled)
            && (t != UNSET ==>
                  now <= t <= now + HOUR && exists i :: 0 <= i < |ks| && !ks[i].disabled && ks[i].resetAt == t)
            && (forall us: seq<Time> :: (forall u <- us :: u <= t || t == UNSET) ==> AllAttempts(ks, us, Exhausted(t)))
            && (forall u :: t < u ==>
                  (AcquireOutcome(ks, u).Granted? <==> exists i :: 0 <= i < |ks| && Recovers(ks[i], u)))
  {
    var t := AcquireOutcome(s.keys, now).retryAt;
    var ks := AcquireKeys(s.keys, now);
    ExhaustedIsDry(s, now);
    RolledWindows(s, now);
    forall us: seq<Time> | forall u <- us :: u <= t || t == UNSET
      ensures AllAttempts(ks, us, Exhausted(t))
    {
      EveryAttemptRepeats(ks, t, us);
    }
    forall u | t < u
      ensures AcquireOutcome(ks, u).Granted? <==> exists i :: 0 <= i < |ks| && Recovers(ks[i], u)
    {
      DryAt(ks, t, u);
    }
  }

  /** On exhaustion Acquire reports what PoolSummary shows as EarliestReset: cooldowns never decide. */
  lemma RetryTimeIsSummaryReset(s: Sys, now: Time)
    requires PoolInv(s) && s.now <= now && AcquireOutcome(s.keys, now).Exhausted?
    ensures SummaryReset(AcquireKeys(s.keys, now)) == AcquireOutcome(s.keys, now).retryAt
  {
    var ks := AcquireKeys(s.keys, now);
    ExhaustedIsDry(s, now);
    SummaryIsLeast(ks);
    LeastIsUnique(ks, SummaryReset(ks), AcquireOutcome(s.keys, now).retryAt, (k: Key) => k.resetAt);
  }

  /** The one-hour cap never changes a sleep: a worker that finds a reachable pool exhausted at `now`
      and then reads the clock at `u` sleeps exactly until the retry time, or ten seconds when that
      time is not ahead or unset. */
  lemma CapNeverBinds(s: Sys, now: Time, u: Time)
    requires PoolInv(s) && s.now <= now <= u && AcquireOutcome(s.keys, now).Exhausted?
    ensures var t := AcquireOutcome(s.keys, now).retryAt;
            Wait(t, u) == if t <= u then FALLBACK_WAIT else t - u
  {
    RetryTimeIsExact(s, now);
  }

  /** Waking exactly at the retry time is too early: the answer is the same, and the next sleep is
      the ten-second fallback. With room in the key that set the time, the attempt after that
      succeeds, so a worker alone with the pool sleeps at most twice, if its member's deadline lets it.
      `u1` and `u2` are the clock readings the two sleeps are computed from, `wake1` and `wake2` the
      second and third attempts, `began` the moment the member was taken: a retry time beyond its
      deadline is never reached by that member. */
  lemma TwoSleepsSuffice(s: Sys, began: Time, now: Time, i: nat, u1: Time, wake1: Time, u2: Time, wake2: Time)
    requires PoolInv(s) && s.now <= now && AcquireOutcome(s.keys, now).Exhausted?
    requires i < |s.keys| && began <= now
    requires var k := AcquireKeys(s.keys, now)[i];
             !k.disabled && k.limit >= MIN_BUDGET && k.resetAt == AcquireOutcome(s.keys, now).retryAt
    requires now <= u1 && u1 + Wait(AcquireOutcome(s.keys, now).retryAt, u1) <= wake1
    requires wake1 <= u2 && u2 + Wait(AcquireOutcome(s.keys, now).retryAt, u2) <= wake2
    ensures var ks := AcquireKeys(s.keys, now);
            var t := AcquireOutcome(s.keys, now).retryAt;
            && (wake1 <= began + PER_MEMBER_TIMEOUT ==> t <= began + PER_MEMBER_TIMEOUT)
            && if wake1 == t then
                 && AcquireOutcome(ks, wake1) == Exhausted(t) && Wait(t, u2) == FALLBACK_WAIT
                 && AcquireOutcome(AcquireKeys(ks, wake1), wake2).Granted?
               else
                 AcquireOutcome(ks, wake1).Granted?
  {
    var ks, t := AcquireKeys(s.keys, now), AcquireOutcome(s.keys, now).retryAt;
    CapNeverBinds(s, now, u1);
    ExhaustedIsDry(s, now);
    if wake1 == t {
      DryBefore(ks, t, wake1);
      var ks1 := AcquireKeys(ks, wake1);
      assert Recovers(ks1[i], wake2);
      DryAt(ks1, t, wake2);
    } else {
      assert Recovers(ks[i], wake1);
      DryAt(ks, t, wake1);
    }
  }
}
