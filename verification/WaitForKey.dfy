/** waitForKey as it is written: try, count as blocked once, sleep, try again, while the rest of the
    program goes on. */
module WaitForKey {
  import opened Basics
  import opened PoolSpec
  import KeyModel
  import PoolRuns
  import KeyPool
  import PoolSteps
  import RetryTime
  import Status

  /** Another worker's change of the waiting count. */
  datatype Mark = Mark(delta: int, recoverAt: Time)

  /** One round of the loop: what the others do to the pool and to the status before its attempt, the
      clock when Acquire runs and when the sleep is computed, and, for a round that gets a lease, what
      the others do to the pool while the worker uses it. */
  datatype Round = Round(others: seq<PoolRuns.Event>, marks: seq<Mark>, at: Time, later: Time,
                         meanwhile: seq<PoolRuns.Event>)

  predicate LegalRound(s: PoolRuns.Sys, r: Round) {
    && PoolRuns.LegalRun(s, r.others) && PoolRuns.Run(s, r.others).now <= r.at <= r.later
    && PoolRuns.LegalRun(PoolRuns.Next(PoolRuns.Run(s, r.others), PoolRuns.Acquire(r.at)), r.meanwhile)
  }

  /** The pool as the attempt of a round finds it, and as it leaves it. */
  function Found(s: PoolRuns.Sys, r: Round): PoolRuns.Sys
    requires LegalRound(s, r)
  {
    PoolRuns.Run(s, r.others)
  }

  function Left(s: PoolRuns.Sys, r: Round): PoolRuns.Sys
    requires LegalRound(s, r)
  {
    PoolRuns.Next(Found(s, r), PoolRuns.Acquire(r.at))
  }

  /** The pools before, between and after the rounds. */
  ghost predicate Trace(pools: seq<PoolRuns.Sys>, rounds: seq<Round>) {
    && |pools| == |rounds| + 1
    && forall n {:trigger rounds[n]} :: 0 <= n < |rounds| ==>
         LegalRound(pools[n], rounds[n]) && pools[n + 1] == Left(pools[n], rounds[n])
  }

  lemma TraceAt(pools: seq<PoolRuns.Sys>, rounds: seq<Round>, n: nat)
    requires Trace(pools, rounds) && n < |rounds|
    ensures LegalRound(pools[n], rounds[n]) && pools[n + 1] == Left(pools[n], rounds[n])
  {
    var round := rounds[n];
  }

  /** The answer of round `n`. */
  ghost function AnswerOf(pools: seq<PoolRuns.Sys>, rounds: seq<Round>, n: nat): Outcome
    requires n < |rounds| && Trace(pools, rounds)
  {
    AcquireOutcome(Found(pools[n], rounds[n]).keys, rounds[n].at)
  }

  /** Round `n` found the pool exhausted and slept as computed. */
  ghost predicate SleptThrough(pools: seq<PoolRuns.Sys>, rounds: seq<Round>, n: nat, sleep: nat)
    requires n < |rounds| && Trace(pools, rounds)
  {
    var answer := AnswerOf(pools, rounds, n);
    answer.Exhausted? && sleep == RetryTime.Wait(answer.retryAt, rounds[n].later)
  }

  ghost predicate AllSlept(pools: seq<PoolRuns.Sys>, rounds: seq<Round>, sleeps: seq<nat>)
    requires Trace(pools, rounds) && |sleeps| <= |rounds|
  {
    forall n: nat :: n < |sleeps| ==> SleptThrough(pools, rounds, n, sleeps[n])
  }

  lemma SleptOneMore(pools: seq<PoolRuns.Sys>, rounds: seq<Round>, sleeps: seq<nat>, sleep: nat)
    requires Trace(pools, rounds) && |sleeps| < |rounds| && AllSlept(pools, rounds, sleeps)
    requires SleptThrough(pools, rounds, |sleeps|, sleep)
    ensures AllSlept(pools, rounds, sleeps + [sleep])
  {
    forall n: nat | n < |sleeps + [sleep]|
      ensures SleptThrough(pools, rounds, n, (sleeps + [sleep])[n])
    {
      if n < |sleeps| {
        assert SleptThrough(pools, rounds, n, sleeps[n]);
      }
    }
  }

  /** The lease that the answer of the first round that is not exhausted gives, if it gives one. */
  predicate LeaseOf(answer: Option<Outcome>, states: seq<KeyPool.KeyState>, lease: Option<KeyPool.KeyState>) {
    match answer
    case None => lease == None
    case Some(Granted(i)) => i < |states| && lease == Some(states[i])
    case Some(NoKey) => lease == None
    case Some(Exhausted(_)) => false
  }

  /** The attempts made when `failed` of them found the pool exhausted. */
  function Attempts(rounds: seq<Round>, failed: nat): nat {
    if failed < |rounds| then failed + 1 else failed
  }

  /** The answer that ended it, unless the deadline passed. */
  ghost function EndOf(pools: seq<PoolRuns.Sys>, rounds: seq<Round>, failed: nat): Option<Outcome>
    requires Trace(pools, rounds) && failed <= |rounds|
  {
    if failed < |rounds| then Some(AnswerOf(pools, rounds, failed)) else None
  }

  // ----- the status

  function Marked(st: Status.Snapshot, marks: seq<Mark>): Status.Snapshot {
    if marks == [] then st
    else
      var n := |marks| - 1;
      Status.WaitingChanged(Marked(st, marks[..n]), marks[n].delta, marks[n].recoverAt)
  }

  /** The status after `n` exhausted rounds: the first one counts the worker, with its retry time. */
  function StatusAfter(st: Status.Snapshot, rounds: seq<Round>, n: nat, retryAt: Time): Status.Snapshot
    requires n <= |rounds|
  {
    if n == 0 then st
    else
      var shown := Marked(StatusAfter(st, rounds, n - 1, retryAt), rounds[n - 1].marks);
      if n == 1 then Status.WaitingChanged(shown, 1, retryAt) else shown
  }

  /** And once the worker has left, after `n` exhausted rounds and, unless its deadline passed, the
      attempt that ended them. */
  function StatusLeft(st: Status.Snapshot, rounds: seq<Round>, n: nat, retryAt: Time): Status.Snapshot
    requires n <= |rounds|
  {
    var shown := StatusAfter(st, rounds, n, retryAt);
    var last := if n < |rounds| then Marked(shown, rounds[n].marks) else shown;
    if n > 0 then Status.WaitingChanged(last, -1, UNSET) else last
  }

  function Deltas(marks: seq<Mark>): int {
    if marks == [] then 0 else Deltas(marks[..|marks| - 1]) + marks[|marks| - 1].delta
  }

  function DeltasOf(rounds: seq<Round>, n: nat): int
    requires n <= |rounds|
  {
    if n == 0 then 0 else DeltasOf(rounds, n - 1) + Deltas(rounds[n - 1].marks)
  }

  lemma {:induction false} MarkedCount(st: Status.Snapshot, marks: seq<Mark>)
    ensures Marked(st, marks).waitingCount == st.waitingCount + Deltas(marks)
  {
    if marks != [] {
      MarkedCount(st, marks[..|marks| - 1]);
    }
  }

  lemma {:induction false} WaitingOnce(st: Status.Snapshot, rounds: seq<Round>, n: nat, retryAt: Time)
    requires n <= |rounds|
    ensures StatusAfter(st, rounds, n, retryAt).waitingCount ==
            st.waitingCount + DeltasOf(rounds, n) + if n > 0 then 1 else 0
  {
    if n > 0 {
      WaitingOnce(st, rounds, n - 1, retryAt);
      MarkedCount(StatusAfter(st, rounds, n - 1, retryAt), rounds[n - 1].marks);
    }
  }

  /** While it waits, the worker is counted exactly once; when it has left, the waiting count has
      changed by what the others did and nothing else. */
  lemma CountTakenBack(st: Status.Snapshot, rounds: seq<Round>, n: nat, retryAt: Time)
    requires n <= |rounds|
    ensures StatusLeft(st, rounds, n, retryAt).waitingCount ==
            st.waitingCount + DeltasOf(rounds, Attempts(rounds, n))
  {
    WaitingOnce(st, rounds, n, retryAt);
    if n < |rounds| {
      MarkedCount(StatusAfter(st, rounds, n, retryAt), rounds[n].marks);
    }
  }

  /** The first exhausted round shows the worker and its retry time at once; and if the others change
      nothing meanwhile, that is what is shown until it leaves, and then the scan goes on as before. */
  lemma {:induction false} BlockingIsShown(st: Status.Snapshot, rounds: seq<Round>, n: nat, retryAt: Time)
    requires 0 < n <= |rounds| && st.waitingCount == 0
    requires forall k :: 0 <= k < |rounds| ==> rounds[k].marks == []
    ensures StatusAfter(st, rounds, n, retryAt) ==
            st.(state := Status.WaitingForKeys, waitingCount := 1, keysRecoverAt := retryAt)
    ensures StatusLeft(st, rounds, n, retryAt) == st.(state := Status.Scanning, keysRecoverAt := UNSET)
  {
    if n > 1 {
      BlockingIsShown(st, rounds, n - 1, retryAt);
    }
  }

  /** The retry time the worker is counted with. */
  ghost function FirstRetry(pools: seq<PoolRuns.Sys>, rounds: seq<Round>): (t: Time)
    requires Trace(pools, rounds)
    ensures rounds != [] && AnswerOf(pools, rounds, 0).Exhausted? ==> AnswerOf(pools, rounds, 0) == Exhausted(t)
  {
    if rounds == [] || !AnswerOf(pools, rounds, 0).Exhausted? then UNSET else AnswerOf(pools, rounds, 0).retryAt
  }

  // ----- the loop

  method MarkAll(status: Status.StateStore, marks: seq<Mark>)
    modifies status
    ensures status.View() == Marked(old(status.View()), marks)
  {
    ghost var before := status.View();
    var i := 0;
    while i < |marks|
      invariant i <= |marks| && status.View() == Marked(before, marks[..i])
    {
      assert marks[..i + 1][..i] == marks[..i];
      status.MarkWaitingForKeys(marks[i].delta, marks[i].recoverAt);
      i := i + 1;
    }
    assert marks[..|marks|] == marks;
  }

  /** What the others do before an attempt. */
  method Meanwhile(pool: KeyPool.Pool, status: Status.StateStore, r: Round, ghost s: PoolRuns.Sys)
    requires pool.Valid() && s.keys == pool.View() && LegalRound(s, r)
    modifies pool.keys, status
    ensures pool.keys == old(pool.keys) && pool.View() == Found(s, r).keys
    ensures status.View() == Marked(old(status.View()), r.marks)
  {
    PoolSteps.PerformAll(pool, r.others, s.now);
    ghost var found := pool.View();
    MarkAll(status, r.marks);
    assert pool.View() == found;
  }

  predicate Answers(outcome: Outcome, states: seq<KeyPool.KeyState>, answer: KeyPool.AcquireResult) {
    match outcome
    case NoKey => answer == KeyPool.NoKeys
    case Exhausted(t) => answer == KeyPool.AllExhausted(t)
    case Granted(i) => i < |states| && answer == KeyPool.Leased(states[i])
  }

  /** One attempt. */
  method Attempt(pool: KeyPool.Pool, status: Status.StateStore, r: Round, ghost s: PoolRuns.Sys)
    returns (answer: KeyPool.AcquireResult)
    requires pool.Valid() && s.keys == pool.View() && LegalRound(s, r)
    modifies pool.keys, status
    ensures pool.keys == old(pool.keys) && pool.View() == Left(s, r).keys
    ensures status.View() == Marked(old(status.View()), r.marks)
    ensures Answers(AcquireOutcome(Found(s, r).keys, r.at), pool.keys, answer)
  {
    Meanwhile(pool, status, r, s);
    ghost var shown := status.View();
    answer := pool.Acquire(r.at);
    assert status.View() == shown;
  }

  /** The first exhausted round of a call counts the worker as waiting. */
  method Block(ghost pool: KeyPool.Pool, status: Status.StateStore, failed: nat, retryAt: Time)
    modifies status
    ensures pool.keys == old(pool.keys) && pool.View() == old(pool.View())
    ensures status.View() == if failed == 0 then Status.WaitingChanged(old(status.View()), 1, retryAt)
                             else old(status.View())
  {
    if failed == 0 {
      status.MarkWaitingForKeys(1, retryAt);
    }
  }

  /** The deferred call on every way out. */
  method Leave(ghost pool: KeyPool.Pool, status: Status.StateStore, failed: nat)
    modifies status
    ensures pool.keys == old(pool.keys) && pool.View() == old(pool.View())
    ensures status.View() == if failed > 0 then Status.WaitingChanged(old(status.View()), -1, UNSET)
                             else old(status.View())
  {
    if failed > 0 {
      status.MarkWaitingForKeys(-1, UNSET);
    }
  }

  /** After `failed` exhausted rounds: the sleeps so far, the pool and the status. */
  ghost predicate Waiting(pools: seq<PoolRuns.Sys>, rounds: seq<Round>, failed: nat, sleeps: seq<nat>,
                          ks: seq<KeyModel.Key>, shown: Status.Snapshot, st: Status.Snapshot)
    requires Trace(pools, rounds)
  {
    && failed == |sleeps| <= |rounds| && AllSlept(pools, rounds, sleeps) && ks == pools[failed].keys
    && st == StatusAfter(shown, rounds, failed, FirstRetry(pools, rounds))
  }

  /** One turn of the loop: an attempt, and then either the way out or the next sleep. */
  method Turn(pool: KeyPool.Pool, status: Status.StateStore, rounds: seq<Round>, failed: nat, sleeps: seq<nat>,
              ghost pools: seq<PoolRuns.Sys>, ghost shown: Status.Snapshot)
    returns (lease: Option<KeyPool.KeyState>, again: bool, more: seq<nat>)
    requires pool.Valid() && Trace(pools, rounds) && failed < |rounds|
    requires Waiting(pools, rounds, failed, sleeps, pool.View(), shown, status.View())
    modifies pool.keys, status
    ensures pool.keys == old(pool.keys) && pool.View() == pools[failed + 1].keys
    ensures again ==> lease == None && Waiting(pools, rounds, failed + 1, more, pool.View(), shown, status.View())
    ensures !again ==> LeaseOf(EndOf(pools, rounds, failed), pool.keys, lease)
    ensures !again ==> status.View() == StatusLeft(shown, rounds, failed, FirstRetry(pools, rounds))
  {
    TraceAt(pools, rounds, failed);
    var result := Attempt(pool, status, rounds[failed], pools[failed]);
    if !result.AllExhausted? {
      Leave(pool, status, failed);
      return if result.Leased? then Some(result.state) else None, false, sleeps;
    }
    lease, again := None, true;
    Block(pool, status, failed, result.retryAt);
    var sleep := RetryTime.Wait(result.retryAt, rounds[failed].later);
    SleptOneMore(pools, rounds, sleeps, sleep);
    more := sleeps + [sleep];
  }

  /** The deadline passes during the sleep of the last round given, if no round before gets an
      answer other than exhaustion. `failed` counts the exhausted rounds. */
  method Wait(pool: KeyPool.Pool, status: Status.StateStore, rounds: seq<Round>, ghost pools: seq<PoolRuns.Sys>)
    returns (lease: Option<KeyPool.KeyState>, failed: nat, sleeps: seq<nat>)
    requires pool.Valid() && Trace(pools, rounds) && pool.View() == pools[0].keys
    modifies pool.keys, status
    ensures pool.keys == old(pool.keys) && failed == |sleeps| <= |rounds| && AllSlept(pools, rounds, sleeps)
    ensures LeaseOf(EndOf(pools, rounds, failed), pool.keys, lease)
    ensures pool.View() == pools[Attempts(rounds, failed)].keys
    ensures status.View() == StatusLeft(old(status.View()), rounds, failed, FirstRetry(pools, rounds))
  {
    ghost var shown := status.View();
    var again := true;
    lease, failed, sleeps := None, 0, [];
    while failed < |rounds|
      invariant failed <= |rounds| && pool.keys == old(pool.keys) && lease == None
      invariant Waiting(pools, rounds, failed, sleeps, pool.View(), shown, status.View())
    {
      var more;
      lease, again, more := Turn(pool, status, rounds, failed, sleeps, pools, shown);
      if !again {
        return;
      }
      failed, sleeps := failed + 1, more;
    }
    Leave(pool, status, failed);
  }
}
