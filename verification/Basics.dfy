/** Shared vocabulary: optional values and clock readings. */
module Basics {
  datatype Option<+T> = None | Some(value: T)

  /** A clock reading, in nanoseconds since Go's zero time. The value 0 is `time.Time{}`,
      so `IsZero` is a comparison with 0 and `Before`/`After` are `<` and `>`. */
  type Time = nat

  const UNSET: Time := 0
  const SECOND: nat := 1_000_000_000
  const MINUTE: nat := 60 * SECOND
  const HOUR: nat := 60 * MINUTE

  function Max(a: int, b: int): (m: int)
    ensures m >= a && m >= b && (m == a || m == b)
  {
    if a < b then b else a
  }

  /** Indices below `n`, in order. */
  predicate Ascending(picks: seq<nat>, n: nat) {
    && (forall j :: 0 <= j < |picks| ==> picks[j] < n)
    && (forall j, l :: 0 <= j < l < |picks| ==> picks[j] < picks[l])
  }

  lemma TakeOfDrop<T>(s: seq<T>, c: nat, n: nat)
    requires c + n <= |s|
    ensures s[c..][..n] == s[c..c + n]
  {
  }
}
