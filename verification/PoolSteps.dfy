/** The pool in memory goes where the runs of its values go: a run's critical sections, performed one
    after another by the pool's own methods. */
module PoolSteps {
  import opened Basics
  import opened KeyModel
  import opened PoolSpec
  import opened PoolRuns
  import KeyPool

  /** One critical section, on the object it is about. `now` is the clock so far. */
  method Perform(pool: KeyPool.Pool, e: Event, ghost now: Time)
    requires pool.Valid() && Legal(Sys(pool.View(), now), e)
    modifies pool.keys
    ensures pool.keys == old(pool.keys) && pool.View() == Next(Sys(old(pool.View()), now), e).keys
  {
    match e {
      case Acquire(at) =>
        var _ := pool.Acquire(at);
      case Release(i, extra, _) =>
        pool.Release(i, pool.keys[i], extra);
      case MarkError(i, kind, at) =>
        var _ := pool.MarkError(i, pool.keys[i], kind, at);
      case Refresh(i, data, readAt, _) =>
        pool.ApplyRefresh(i, pool.keys[i], data, readAt);
      case RefreshFail(i, _) =>
        pool.CountRefreshFailure(i, pool.keys[i]);
      case Drain(id, delta, _) =>
        pool.ApplyDrain(Pending(id, delta, 0));
    }
  }

  lemma RunPrefix(s: Sys, es: seq<Event>, n: nat)
    requires LegalRun(s, es) && n < |es|
    ensures LegalRun(s, es[..n]) && LegalRun(s, es[..n + 1]) && Legal(Run(s, es[..n]), es[n])
    ensures Run(s, es[..n + 1]) == Next(Run(s, es[..n]), es[n])
  {
    RunSplit(s, es, n);
    RunSplit(s, es, n + 1);
    RunSplit(s, es[..n + 1], n);
    assert es[..n + 1][..n] == es[..n] && es[..n + 1][n..] == [es[n]] && es[n..][0] == es[n];
    assert [es[n]][1..] == [];
  }

  /** Any run of the pool, from the pool as it stands. */
  method PerformAll(pool: KeyPool.Pool, es: seq<Event>, ghost now: Time)
    requires pool.Valid() && LegalRun(Sys(pool.View(), now), es)
    modifies pool.keys
    ensures pool.keys == old(pool.keys) && pool.View() == Run(Sys(old(pool.View()), now), es).keys
  {
    ghost var start := Sys(pool.View(), now);
    var i := 0;
    while i < |es|
      invariant i <= |es| && pool.keys == old(pool.keys)
      invariant LegalRun(start, es[..i]) && pool.View() == Run(start, es[..i]).keys
    {
      RunPrefix(start, es, i);
      Perform(pool, es[i], Run(start, es[..i]).now);
      i := i + 1;
    }
    assert es[..|es|] == es;
  }
}
