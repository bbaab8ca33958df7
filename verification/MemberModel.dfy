/** What the rest of the program needs to know of a member's sync. */
module MemberModel {
  /** The zones a member is asked about, and the settlement for each fight-detail query. */
  const ZONES: nat := 4
  const DETAIL_COST := 10

  /** How a member ends; `KeyLess` is one that never got a lease. */
  datatype End = KeyLess | Failure | NoCharacter | Synced | Panicked

  /** The ends that are stored as a sync: a member without a character is not asked for again either
      until the sync is old. */
  predicate CountsAsSynced(end: End) {
    end.Synced? || end.NoCharacter?
  }
}
