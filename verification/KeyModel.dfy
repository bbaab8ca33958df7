/** One FFLogs key as a value, and what each critical section of the pool does to it. */
module KeyModel {
  import opened Basics

  const SAFETY_BUDGET := 500
  const EST_COST := 20
  const MIN_BUDGET := SAFETY_BUDGET + EST_COST
  const RECONCILE_EVERY: nat := 5 * MINUTE
  const RECONCILE_USES: nat := 50
  const DISABLED_COOLDOWN: nat := 48 * HOUR
  const DEFAULT_LIMIT := 5000
  const FORBIDDEN_ERRORS: nat := 100
  const MAX_RESET_IN: nat := HOUR

  datatype Key = Key(
    id: nat,
    limit: int,
    spent: int,
    resetAt: Time,
    lastRefreshAt: Time,
    usesSinceRefresh: nat,
    useCount: nat,
    errCount: nat,
    disabled: bool,
    forbidden: bool,
    cooldownUntil: Time)
  {
    function Remaining(): (r: int)
      ensures r >= 0 && r >= limit - spent && (r == 0 || r == limit - spent)
    {
      if limit - spent < 0 then 0 else limit - spent
    }

    predicate Available(now: Time, minBudget: int) {
      !disabled && !(now < cooldownUntil) && Remaining() >= minBudget
    }
  }

  /** The server's answer to a rate-limit query: JSON numbers with fractional parts. */
  datatype RateLimitData = RateLimitData(limitPerHour: real, spentThisHour: real, resetIn: real)

  datatype ErrorKind = Transient | RateLimited | Unauthorized

  /** What a start-up probe came back with; `at` is the clock reading after a good answer. */
  datatype Probe = Answered(data: RateLimitData, at: Time) | InvalidClient | Unreachable

  /** A key as `Load` and `AddEnvKey` first build it. */
  function NewKey(id: nat): Key {
    Key(id, 0, 0, UNSET, UNSET, 0, 0, 0, false, false, UNSET)
  }

  // ----- conversions at the server boundary

  /** Go's `int(x)`: truncation toward zero. */
  function Truncate(x: real): (n: int)
    ensures x >= 0.0 ==> n as real <= x < n as real + 1.0
    ensures x <= 0.0 ==> n as real - 1.0 < x <= n as real
  {
    if x >= 0.0 then x.Floor else -((-x).Floor)
  }

  /** Truncate, then add one when that lost something: the ceiling of `x`. */
  function RoundUp(x: real): (r: int)
    ensures r as real - 1.0 < x <= r as real
  {
    var whole := Truncate(x);
    if x > whole as real then whole + 1 else whole
  }

  /** A seconds value from the server as a duration of at most one hour: to the nanosecond below
      when it is in range, the whole hour when it is not. */
  function ClampResetIn(secs: real): (d: nat)
    ensures d <= MAX_RESET_IN
    ensures 0.0 < secs <= 3600.0 ==> d as real <= secs * 1000000000.0 < d as real + 1.0
    ensures secs <= 0.0 || secs > 3600.0 ==> d == HOUR
  {
    if secs <= 0.0 || secs > 3600.0 then MAX_RESET_IN
    else
      var scaled := secs * 1000000000.0;
      assert 0.0 <= scaled <= 3600000000000.0;
      scaled.Floor
  }

  // ----- critical sections, one key at a time

  /** An expired window empties the estimate and opens a new window of one hour. */
  function Roll(k: Key, now: Time): Key {
    if k.resetAt != UNSET && now > k.resetAt
    then k.(spent := 0, resetAt := now + HOUR)
    else k
  }

  /** The pre-debit of a granted lease. */
  function Charge(k: Key): Key {
    k.(spent := k.spent + EST_COST, useCount := k.useCount + 1, usesSinceRefresh := k.usesSinceRefresh + 1)
  }

  /** Release: a success ends the failure run and corrects the estimate, never below zero. */
  function Settle(k: Key, extra: int): Key {
    k.(errCount := 0,
       spent := if extra == 0 then k.spent else if k.spent + extra < 0 then 0 else k.spent + extra)
  }

  /** MarkError: one more failure; a rate limit uses up the window, an authorization failure or
      a long enough failure run disables the key. */
  function Fail(k: Key, kind: ErrorKind, now: Time): Key {
    var counted := k.(errCount := k.errCount + 1);
    var marked := match kind
      case RateLimited => counted.(spent := counted.limit)
      case Unauthorized => counted.(disabled := true, cooldownUntil := now + DISABLED_COOLDOWN)
      case Transient => counted;
    if !kind.Unauthorized? && marked.errCount >= FORBIDDEN_ERRORS
    then marked.(disabled := true, cooldownUntil := now + DISABLED_COOLDOWN)
    else marked
  }

  /** The part of Reconcile under the lock after a good answer; `at` was read before locking. */
  function Refresh(k: Key, data: RateLimitData, at: Time): Key {
    var limit := Truncate(data.limitPerHour);
    k.(limit := if limit > 0 then limit else k.limit,
       spent := RoundUp(data.spentThisHour),
       resetAt := if data.resetIn > 0.0 then at + ClampResetIn(data.resetIn) else k.resetAt,
       lastRefreshAt := at,
       usesSinceRefresh := 0,
       errCount := 0)
  }

  /** Reconcile after a failed query: counted, but never compared with the threshold. */
  function RefreshFailed(k: Key): Key {
    k.(errCount := k.errCount + 1)
  }

  predicate DueForRefresh(k: Key, now: Time) {
    !k.disabled && (now - k.lastRefreshAt >= RECONCILE_EVERY || k.usesSinceRefresh >= RECONCILE_USES)
  }

  /** The start-up probe of a key that is not yet shared. */
  function Probed(k: Key, p: Probe): Key {
    match p
    case InvalidClient => k.(disabled := true, forbidden := true, errCount := k.errCount + 1)
    case Unreachable => k.(disabled := true, errCount := k.errCount + 1)
    case Answered(data, at) =>
      var limit := Truncate(data.limitPerHour);
      k.(disabled := false,
         errCount := 0,
         limit := if limit == 0 then DEFAULT_LIMIT else limit,
         spent := RoundUp(data.spentThisHour),
         resetAt := at + ClampResetIn(data.resetIn),
         lastRefreshAt := at)
  }

  /** The key says what the server said at `at`: the limit down to an integer (the default when that is
      zero), the points up to an integer, and the window to the nanosecond below or for an hour. */
  predicate StartsFrom(k: Key, data: RateLimitData, at: Time) {
    && (data.limitPerHour >= 1.0 ==> k.limit as real <= data.limitPerHour < k.limit as real + 1.0)
    && (-1.0 < data.limitPerHour < 1.0 ==> k.limit == DEFAULT_LIMIT)
    && (data.limitPerHour <= -1.0 ==> k.limit as real - 1.0 < data.limitPerHour <= k.limit as real)
    && k.spent as real - 1.0 < data.spentThisHour <= k.spent as real
    && k.lastRefreshAt == at
    && WindowFrom(k.resetAt, data.resetIn, at)
  }

  /** A window of `secs` seconds from `at` ends at `end`, to the nanosecond; an hour when out of range. */
  predicate WindowFrom(end: Time, secs: real, at: Time) {
    if 0.0 < secs <= 3600.0
    then (end - at) as real <= secs * 1000000000.0 < (end - at) as real + 1.0
    else end == at + HOUR
  }

  /** Phase 2 of Load: a key whose first probe failed without being forbidden gets a second one. */
  function Reprobed(k: Key, p: Probe): Key {
    if k.disabled && !k.forbidden then Probed(k.(disabled := false), p) else k
  }

  /** So the last probe made decides: the key is enabled exactly when it was answered, with what it said,
      and forbidden exactly when it found the client invalid. */
  function Loaded(id: nat, first: Probe, second: Probe): (k: Key)
    ensures var last := if first.Unreachable? then second else first;
            && k.id == id && k.useCount == k.usesSinceRefresh == 0 && k.cooldownUntil == UNSET
            && (k.disabled <==> !last.Answered?) && (k.forbidden <==> last.InvalidClient?)
            && k.errCount == (if last.Answered? then 0 else if first.Unreachable? then 2 else 1)
            && if last.Answered? then StartsFrom(k, last.data, last.at)
               else k.limit == k.spent == 0 && k.resetAt == k.lastRefreshAt == UNSET
  {
    Reprobed(Probed(NewKey(id), first), second)
  }

  /** FlushStats after a successful write: the written delta leaves the in-memory counter. */
  function Drained(k: Key, delta: nat): Key {
    if k.useCount >= delta then k.(useCount := k.useCount - delta) else k
  }
}
