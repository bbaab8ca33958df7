/** One member's sync: getting a key, the queries made under its lease, how the lease ends, what is
    counted and what is stored. */
module MemberSync {
  import opened Basics
  import opened KeyModel
  import opened KeyPool
  import opened MemberModel
  import PoolRuns
  import opened PoolSpec
  import PoolSteps
  import Pipeline
  import Status
  import WaitForKey

  /** What a call to FFLogs comes to: a value, an error that says something about the key, or a panic. */
  datatype Reply<T> = Ok(value: T) | Err(kind: ErrorKind) | Crash

  /** A fight-detail query: a fight, an incomplete report, an error or a panic. */
  datatype Detail = Fight | Incomplete | Failed(kind: ErrorKind) | Crashed

  /** What the outside answers if asked: the character id, which zones have rankings, and for each
      zone its fight detail and whether memo-server takes the upload. */
  datatype Replies = Replies(charID: Reply<int>, ranked: Reply<seq<bool>>, details: seq<Detail>, uploads: seq<bool>)
  {
    predicate WellFormed() {
      (ranked.Ok? ==> |ranked.value| == ZONES) && |details| == |uploads| == ZONES
    }
  }

  /** The counters shown by /progress that a member's sync touches. */
  datatype Counts = Counts(noCharID: nat, withData: nat, uploaded: nat, errors: nat)
  {
    function Plus(more: Counts): Counts {
      Counts(noCharID + more.noCharID, withData + more.withData, uploaded + more.uploaded, errors + more.errors)
    }
  }

  class Counters {
    var membersNoCharID: nat
    var membersWithData: nat
    var fightsUploaded: nat
    var memberSyncErrors: nat

    function View(): Counts
      reads this
    {
      Counts(membersNoCharID, membersWithData, fightsUploaded, memberSyncErrors)
    }

    /** What other workers add. */
    method Add(more: Counts)
      modifies this
      ensures View() == old(View()).Plus(more)
    {
      membersNoCharID := membersNoCharID + more.noCharID;
      membersWithData := membersWithData + more.withData;
      fightsUploaded := fightsUploaded + more.uploaded;
      memberSyncErrors := memberSyncErrors + more.errors;
    }
  }

  /** The table after these writes of logs_sync_time. */
  function StoredAll(rows: seq<Pipeline.Member>, stamps: seq<Pipeline.Stamp>): seq<Pipeline.Member> {
    if stamps == [] then rows
    else
      var n := |stamps| - 1;
      Pipeline.StoreSync(StoredAll(rows, stamps[..n]), stamps[n].id, stamps[n].at)
  }

  /** The members table, as far as a sync writes it. */
  class MembersTable {
    var rows: seq<Pipeline.Member>

    /** `ok` is whether the database takes the write. */
    method MarkSynced(id: nat, at: Time, ok: bool)
      modifies this
      ensures rows == if ok then Pipeline.StoreSync(old(rows), id, at) else old(rows)
    {
      if ok {
        rows := Pipeline.StoreSync(rows, id, at);
      }
    }

    /** The writes of other workers. */
    method MarkAll(stamps: seq<Pipeline.Stamp>)
      modifies this
      ensures rows == StoredAll(old(rows), stamps)
    {
      var i := 0;
      while i < |stamps|
        invariant i <= |stamps| && rows == StoredAll(old(rows), stamps[..i])
      {
        assert stamps[..i + 1][..i] == stamps[..i];
        MarkSynced(stamps[i].id, stamps[i].at, true);
        i := i + 1;
      }
      assert stamps[..|stamps|] == stamps;
    }
  }

  // ----- what the zone loop amounts to

  function CountRanked(ranked: seq<bool>): nat {
    if ranked == [] then 0 else CountRanked(ranked[..|ranked| - 1]) + if ranked[|ranked| - 1] then 1 else 0
  }

  /** Zones among the first `n` whose fight was fetched and whose upload came out as `ok`. */
  function CountUploads(ranked: seq<bool>, details: seq<Detail>, uploads: seq<bool>, n: nat, ok: bool): nat
    requires n <= |ranked| && n <= |details| && n <= |uploads|
  {
    if n == 0 then 0
    else CountUploads(ranked, details, uploads, n - 1, ok) +
         if ranked[n - 1] && details[n - 1].Fight? && uploads[n - 1] == ok then 1 else 0
  }

  predicate Stops(d: Detail) {
    d.Failed? || d.Crashed?
  }

  /** The first zone from `n` on whose fight-detail query is made and does not come back, or the
      number of zones. */
  function FirstStop(ranked: seq<bool>, details: seq<Detail>, n: nat): (z: nat)
    requires n <= |ranked| == |details|
    ensures n <= z <= |ranked|
    ensures z < |ranked| ==> ranked[z] && Stops(details[z])
    ensures forall j :: n <= j < z ==> !(ranked[j] && Stops(details[j]))
    decreases |ranked| - n
  {
    if n == |ranked| || (ranked[n] && Stops(details[n])) then n else FirstStop(ranked, details, n + 1)
  }

  /** The fight-detail queries made: one for each ranked zone up to the first that stops the loop. */
  function CallsMade(ranked: seq<bool>, details: seq<Detail>): nat
    requires |ranked| == |details|
  {
    var stop := FirstStop(ranked, details, 0);
    CountRanked(if stop < |ranked| then ranked[..stop + 1] else ranked)
  }

  /** What stops the loop, if anything does. */
  function Stopped(ranked: seq<bool>, details: seq<Detail>): Option<Detail>
    requires |ranked| == |details|
  {
    var stop := FirstStop(ranked, details, 0);
    if stop < |ranked| then Some(details[stop]) else None
  }

  /** Uploads attempted before that which came out as `ok`. */
  function Uploads(ranked: seq<bool>, details: seq<Detail>, uploads: seq<bool>, ok: bool): nat
    requires |ranked| == |details| == |uploads|
  {
    CountUploads(ranked, details, uploads, FirstStop(ranked, details, 0), ok)
  }

  // ----- the same, zone by zone

  /** The zones whose fight detail is asked for: the ranked ones up to the first whose query does not come
      back, and that one. */
  ghost function AskedZones(ranked: seq<bool>, details: seq<Detail>): set<nat>
    requires |ranked| == |details|
  {
    set z: nat | z < |ranked| && ranked[z] && forall j :: 0 <= j < z ==> !(ranked[j] && Stops(details[j]))
  }

  /** Those whose fight came back and was taken by memo-server, or was not. */
  ghost function UploadedZones(ranked: seq<bool>, details: seq<Detail>, uploads: seq<bool>, ok: bool): set<nat>
    requires |ranked| == |details| == |uploads|
  {
    set z <- AskedZones(ranked, details) | details[z].Fight? && uploads[z] == ok
  }

  lemma {:induction false} RankedAreCounted(ranked: seq<bool>)
    ensures CountRanked(ranked) == |set z | 0 <= z < |ranked| && ranked[z]|
  {
    if ranked != [] {
      var n := |ranked| - 1;
      RankedAreCounted(ranked[..n]);
      var front := set z | 0 <= z < n && ranked[..n][z];
      assert n !in front && (set z | 0 <= z < |ranked| && ranked[z]) == if ranked[n] then front + {n} else front;
    }
  }

  lemma {:induction false} UploadsAreCounted(ranked: seq<bool>, details: seq<Detail>, uploads: seq<bool>, n: nat,
                                             ok: bool)
    requires n <= |ranked| && n <= |details| && n <= |uploads|
    ensures CountUploads(ranked, details, uploads, n, ok) ==
            |set z: nat | z < n && ranked[z] && details[z].Fight? && uploads[z] == ok|
  {
    if n != 0 {
      UploadsAreCounted(ranked, details, uploads, n - 1, ok);
      var front := set z: nat | z < n - 1 && ranked[z] && details[z].Fight? && uploads[z] == ok;
      var all := set z: nat | z < n && ranked[z] && details[z].Fight? && uploads[z] == ok;
      if ranked[n - 1] && details[n - 1].Fight? && uploads[n - 1] == ok {
        assert n - 1 !in front && all == front + {n - 1};
      } else {
        assert all == front;
      }
    }
  }

  /** What the first loop amounts to is counted over these zones. */
  lemma LoopIsZoneByZone(ranked: seq<bool>, details: seq<Detail>, uploads: seq<bool>)
    requires |ranked| == |details| == |uploads|
    ensures CallsMade(ranked, details) == |AskedZones(ranked, details)|
    ensures forall ok ::
              Uploads(ranked, details, uploads, ok) == |UploadedZones(ranked, details, uploads, ok)|
  {
    var stop := FirstStop(ranked, details, 0);
    var made := if stop < |ranked| then ranked[..stop + 1] else ranked;
    RankedAreCounted(made);
    assert AskedZones(ranked, details) == set z | 0 <= z < |made| && made[z];
    forall ok
      ensures Uploads(ranked, details, uploads, ok) == |UploadedZones(ranked, details, uploads, ok)|
    {
      UploadsAreCounted(ranked, details, uploads, stop, ok);
      assert UploadedZones(ranked, details, uploads, ok) ==
             set z: nat | z < stop && ranked[z] && details[z].Fight? && uploads[z] == ok;
    }
  }

  /** The first loop: one fight-detail query for each ranked zone, until one does not come back. */
  method UploadZones(ranked: seq<bool>, details: seq<Detail>, uploads: seq<bool>, counters: Counters)
    returns (uploadedZones: nat, calls: nat, stopped: Option<Detail>)
    requires |ranked| == |details| == |uploads|
    modifies counters
    ensures stopped == Stopped(ranked, details)
    ensures calls == CallsMade(ranked, details)
    ensures uploadedZones == Uploads(ranked, details, uploads, true)
    ensures counters.View() == old(counters.View()).(
              uploaded := old(counters.fightsUploaded) + uploadedZones,
              errors := old(counters.memberSyncErrors) + Uploads(ranked, details, uploads, false))
  {
    uploadedZones, calls := 0, 0;
    for z := 0 to |ranked|
      invariant FirstStop(ranked, details, z) == FirstStop(ranked, details, 0)
      invariant calls == CountRanked(ranked[..z])
      invariant uploadedZones == CountUploads(ranked, details, uploads, z, true)
      invariant counters.View() == old(counters.View()).(
                  uploaded := old(counters.fightsUploaded) + uploadedZones,
                  errors := old(counters.memberSyncErrors) + CountUploads(ranked, details, uploads, z, false))
    {
      assert ranked[..z + 1][..z] == ranked[..z];
      if ranked[z] {
        calls := calls + 1;
        match details[z] {
          case Failed(_) =>
            return uploadedZones, calls, Some(details[z]);
          case Crashed =>
            return uploadedZones, calls, Some(details[z]);
          case Incomplete =>
          case Fight =>
            if uploads[z] {
              counters.fightsUploaded := counters.fightsUploaded + 1;
              uploadedZones := uploadedZones + 1;
            } else {
              counters.memberSyncErrors := counters.memberSyncErrors + 1;
            }
        }
      }
    }
    assert ranked[..|ranked|] == ranked;
    stopped := None;
  }

  /** The second loop: the zones the settlement debits. */
  method CountZonesWithData(ranked: seq<bool>) returns (zones: nat)
    ensures zones == CountRanked(ranked) == |set z | 0 <= z < |ranked| && ranked[z]|
  {
    zones := 0;
    for z := 0 to |ranked|
      invariant zones == CountRanked(ranked[..z])
    {
      assert ranked[..z + 1][..z] == ranked[..z];
      if ranked[z] {
        zones := zones + 1;
      }
    }
    assert ranked[..|ranked|] == ranked;
    RankedAreCounted(ranked);
  }

  // ----- how a member that has a lease ends

  /** The member was found and its rankings came back, so the zone loop runs. */
  predicate Queried(r: Replies) {
    r.charID.Ok? && r.charID.value != 0 && r.ranked.Ok?
  }

  function Ending(r: Replies): (end: End)
    requires r.WellFormed()
    ensures !end.KeyLess?
  {
    if r.charID == Ok(0) then NoCharacter
    else if r.charID.Crash? || (r.charID.Ok? && r.ranked.Crash?) then Panicked
    else if !Queried(r) then Failure
    else match Stopped(r.ranked.value, r.details)
         case None => Synced
         case Some(d) => if d.Failed? then Failure else Panicked
  }

  /** The error that ends a failing member. */
  function FailureKind(r: Replies): ErrorKind
    requires r.WellFormed() && Ending(r).Failure?
  {
    if r.charID.Err? then r.charID.kind
    else if r.ranked.Err? then r.ranked.kind
    else Stopped(r.ranked.value, r.details).value.kind
  }

  lemma {:induction false} RankedAtMostAll(ranked: seq<bool>)
    ensures CountRanked(ranked) <= |ranked|
  {
    if ranked != [] {
      RankedAtMostAll(ranked[..|ranked| - 1]);
    }
  }

  lemma CallsAtMostZones(ranked: seq<bool>, details: seq<Detail>)
    requires |ranked| == |details|
    ensures CallsMade(ranked, details) <= |ranked|
  {
    var stop := FirstStop(ranked, details, 0);
    RankedAtMostAll(if stop < |ranked| then ranked[..stop + 1] else ranked);
  }

  /** The fight-detail queries it makes. */
  function Calls(r: Replies): (n: nat)
    requires r.WellFormed()
    ensures n <= ZONES
  {
    if Queried(r) then CallsAtMostZones(r.ranked.value, r.details); CallsMade(r.ranked.value, r.details) else 0
  }

  function UploadsOf(r: Replies, ok: bool): nat
    requires r.WellFormed()
  {
    if Queried(r) then Uploads(r.ranked.value, r.details, r.uploads, ok) else 0
  }

  /** The key after the lease: settled with exactly 10 points for each fight-detail query made, marked
      with the error, or, for an unknown character and for a panic, left as it is. */
  function LeaseEnded(k: Key, r: Replies, now: Time): Key
    requires r.WellFormed()
  {
    match Ending(r)
    case Synced => Settle(k, DETAIL_COST * Calls(r))
    case Failure => Fail(k, FailureKind(r), now)
    case _ => k
  }

  /** The counters after it: failed uploads are errors, panics are not. */
  function CountsAfter(c: Counts, r: Replies): Counts
    requires r.WellFormed()
  {
    Counts(c.noCharID + (if Ending(r).NoCharacter? then 1 else 0),
           c.withData + (if Ending(r).Synced? && UploadsOf(r, true) > 0 then 1 else 0),
           c.uploaded + UploadsOf(r, true),
           c.errors + UploadsOf(r, false) + (if Ending(r).Failure? then 1 else 0))
  }

  // ----- what the replies alone say

  /** The fight details asked for under the lease, and the zones uploaded or refused. */
  ghost function Asked(r: Replies): (zones: set<nat>)
    requires r.WellFormed()
    ensures forall z <- zones :: z < ZONES && Queried(r)
  {
    if Queried(r) then AskedZones(r.ranked.value, r.details) else {}
  }

  ghost function Uploaded(r: Replies, ok: bool): set<nat>
    requires r.WellFormed()
  {
    set z <- Asked(r) | r.details[z].Fight? && r.uploads[z] == ok
  }

  /** The first query that does not come back fails with this error: the character query, or for a known
      character the rankings, or one of the fight details. */
  ghost predicate FailsWith(r: Replies, kind: ErrorKind)
    requires r.WellFormed()
  {
    || r.charID == Err(kind)
    || (r.charID.Ok? && r.charID.value != 0 && r.ranked == Err(kind))
    || exists z <- Asked(r) :: r.details[z] == Failed(kind)
  }

  /** Or it panics. */
  ghost predicate Panics(r: Replies)
    requires r.WellFormed()
  {
    || r.charID.Crash?
    || (r.charID.Ok? && r.charID.value != 0 && r.ranked.Crash?)
    || exists z <- Asked(r) :: r.details[z].Crashed?
  }

  lemma EndsAsReplied(r: Replies)
    requires r.WellFormed()
    ensures Ending(r) == NoCharacter <==> r.charID == Ok(0)
    ensures Ending(r) == Panicked <==> Panics(r)
    ensures Ending(r) == Failure <==> exists kind :: FailsWith(r, kind)
    ensures forall kind :: FailsWith(r, kind) ==> Ending(r) == Failure && FailureKind(r) == kind
  {
    if Queried(r) {
      var stop := FirstStop(r.ranked.value, r.details, 0);
      assert stop < ZONES ==> stop in Asked(r);
    }
    if Ending(r) == Failure {
      assert FailsWith(r, FailureKind(r));
    }
  }

  /** The key at the end of the lease, from the replies: marked with the error of the first query that
      fails, so without points after a 429 and disabled after a 401 or 403, wherever in the member it came;
      settled with ten points for each zone asked for when nothing fails; untouched otherwise. */
  lemma LeaseEndsAsReplied(k: Key, r: Replies, now: Time)
    requires r.WellFormed()
    ensures forall kind :: FailsWith(r, kind) ==> LeaseEnded(k, r, now) == Fail(k, kind, now)
    ensures FailsWith(r, RateLimited) ==> LeaseEnded(k, r, now).Remaining() == 0
    ensures FailsWith(r, Unauthorized) ==> LeaseEnded(k, r, now).disabled
    ensures r.charID == Ok(0) || Panics(r) ==> LeaseEnded(k, r, now) == k
    ensures r.charID != Ok(0) && !Panics(r) && (forall kind :: !FailsWith(r, kind)) ==>
              LeaseEnded(k, r, now) == Settle(k, 10 * |Asked(r)|)
  {
    EndsAsReplied(r);
    if Queried(r) {
      LoopIsZoneByZone(r.ranked.value, r.details, r.uploads);
    }
  }

  /** And the counters. */
  lemma CountedAsReplied(c: Counts, r: Replies)
    requires r.WellFormed()
    ensures CountsAfter(c, r).noCharID == c.noCharID + if r.charID == Ok(0) then 1 else 0
    ensures CountsAfter(c, r).uploaded == c.uploaded + |Uploaded(r, true)|
    ensures CountsAfter(c, r).errors ==
            c.errors + |Uploaded(r, false)| + if exists kind :: FailsWith(r, kind) then 1 else 0
    ensures CountsAfter(c, r).withData ==
            c.withData + if !Panics(r) && (forall kind :: !FailsWith(r, kind)) && Uploaded(r, true) != {} then 1 else 0
  {
    EndsAsReplied(r);
    if Queried(r) {
      LoopIsZoneByZone(r.ranked.value, r.details, r.uploads);
      assert forall ok :: Uploaded(r, ok) == UploadedZones(r.ranked.value, r.details, r.uploads, ok);
    } else {
      assert Uploaded(r, true) == {} && Uploaded(r, false) == {};
    }
  }

  /** On success the second loop's debit is exactly the price of the first loop's queries. */
  lemma SettlesWhatItAsked(r: Replies)
    requires r.WellFormed() && Ending(r).Synced?
    ensures Calls(r) == CountRanked(r.ranked.value)
    ensures forall k: Key, now: Time :: LeaseEnded(k, r, now) == Settle(k, DETAIL_COST * CountRanked(r.ranked.value))
  {
  }

  /** A failed query ends the member: it is counted and marks the key. */
  method FailMember(pool: Pool, ghost i: nat, lease: KeyState, kind: ErrorKind, counters: Counters, now: Time)
    requires pool.Valid() && i < |pool.keys| && pool.keys[i] == lease
    modifies lease, counters
    ensures pool.View() == old(pool.View())[i := Fail(old(pool.View())[i], kind, now)]
    ensures counters.View() == old(counters.View()).(errors := old(counters.memberSyncErrors) + 1)
  {
    counters.memberSyncErrors := counters.memberSyncErrors + 1;
    var _ := pool.MarkError(i, lease, kind, now);
  }

  /** The second loop and the settlement. */
  method SettleMember(pool: Pool, ghost i: nat, lease: KeyState, ranked: seq<bool>, uploadedZones: nat,
                      counters: Counters)
    requires pool.Valid() && i < |pool.keys| && pool.keys[i] == lease
    modifies lease, counters
    ensures pool.View() == old(pool.View())[i := Settle(old(pool.View())[i], DETAIL_COST * CountRanked(ranked))]
    ensures counters.View() == old(counters.View()).(
              withData := old(counters.membersWithData) + (if uploadedZones > 0 then 1 else 0))
  {
    var zonesWithData := CountZonesWithData(ranked);
    pool.Release(i, lease, zonesWithData * DETAIL_COST);
    if uploadedZones > 0 {
      counters.membersWithData := counters.membersWithData + 1;
    }
  }

  /** The part of a member's sync after the rankings are known: both loops, then the lease ends. */
  method SyncZones(pool: Pool, ghost i: nat, lease: KeyState, r: Replies, counters: Counters, now: Time)
    returns (outcome: End)
    requires pool.Valid() && i < |pool.keys| && pool.keys[i] == lease && r.WellFormed() && Queried(r)
    modifies lease, counters
    ensures outcome == Ending(r)
    ensures pool.View() == old(pool.View())[i := LeaseEnded(old(pool.View())[i], r, now)]
    ensures counters.View() == CountsAfter(old(counters.View()), r)
  {
    var ranked := r.ranked.value;
    var uploadedZones, stopped := UploadUnderLease(pool, ranked, r.details, r.uploads, counters);
    if stopped.None? {
      SettlesWhatItAsked(r);
      SettleMember(pool, i, lease, ranked, uploadedZones, counters);
      return Synced;
    }
    if stopped.value.Failed? {
      FailMember(pool, i, lease, stopped.value.kind, counters, now);
      return Failure;
    }
    outcome := Panicked;
  }

  /** The first loop touches no key. */
  method UploadUnderLease(ghost pool: Pool, ranked: seq<bool>, details: seq<Detail>, uploads: seq<bool>,
                          counters: Counters)
    returns (uploadedZones: nat, stopped: Option<Detail>)
    requires |ranked| == |details| == |uploads|
    modifies counters
    ensures pool.keys == old(pool.keys) && pool.View() == old(pool.View())
    ensures stopped == Stopped(ranked, details)
    ensures uploadedZones == Uploads(ranked, details, uploads, true)
    ensures counters.View() == old(counters.View()).(
              uploaded := old(counters.fightsUploaded) + uploadedZones,
              errors := old(counters.memberSyncErrors) + Uploads(ranked, details, uploads, false))
  {
    var calls;
    uploadedZones, calls, stopped := UploadZones(ranked, details, uploads, counters);
  }

  /** What a worker does with a lease. */
  method SyncUnderLease(pool: Pool, ghost i: nat, lease: KeyState, r: Replies, counters: Counters, now: Time)
    returns (outcome: End)
    requires pool.Valid() && i < |pool.keys| && pool.keys[i] == lease && r.WellFormed()
    modifies lease, counters
    ensures outcome == Ending(r)
    ensures pool.View() == old(pool.View())[i := LeaseEnded(old(pool.View())[i], r, now)]
    ensures forall kind :: FailsWith(r, kind) ==> pool.View()[i] == Fail(old(pool.View())[i], kind, now)
    ensures FailsWith(r, RateLimited) ==> lease.Remaining() == 0
    ensures FailsWith(r, Unauthorized) ==> lease.disabled
    ensures counters.View() == CountsAfter(old(counters.View()), r)
  {
    ghost var before := pool.View();
    assert before[i := before[i]] == before;
    LeaseEndsAsReplied(before[i], r, now);
    match r.charID {
      case Crash =>
        return Panicked;
      case Err(kind) =>
        FailMember(pool, i, lease, kind, counters, now);
        return Failure;
      case Ok(id) =>
        if id == 0 {
          counters.membersNoCharID := counters.membersNoCharID + 1;
          assert pool.View() == before;
          return NoCharacter;
        }
    }
    match r.ranked {
      case Crash =>
        outcome := Panicked;
      case Err(kind) =>
        FailMember(pool, i, lease, kind, counters, now);
        outcome := Failure;
      case Ok(_) =>
        outcome := SyncZones(pool, i, lease, r, counters, now);
    }
  }

  /** The work under a lease. The pool is what the others make of it meanwhile, except for the end of
      the lease; the sync is stored, if the database takes the write (`stored`), exactly for a
      synced member and for one without a character. */
  method WorkOnMember(pool: Pool, ghost status: Status.StateStore, ghost i: nat, lease: KeyState, ghost s: PoolRuns.Sys,
                      meanwhile: seq<PoolRuns.Event>, m: Pipeline.Member, r: Replies, counters: Counters,
                      members: MembersTable, stored: bool, now: Time)
    returns (outcome: End)
    requires pool.Valid() && s.keys == pool.View() && PoolRuns.LegalRun(s, meanwhile)
    requires i < |pool.keys| && pool.keys[i] == lease && r.WellFormed()
    modifies pool.keys, counters, members
    ensures status.View() == old(status.View())
    ensures outcome == Ending(r) && counters.View() == CountsAfter(old(counters.View()), r)
    ensures var left := PoolRuns.Run(s, meanwhile).keys;
            i < |left| && pool.View() == left[i := LeaseEnded(left[i], r, now)]
    ensures members.rows == if outcome in {Synced, NoCharacter} && stored
                            then Pipeline.StoreSync(old(members.rows), m.id, now) else old(members.rows)
  {
    PoolSteps.PerformAll(pool, meanwhile, s.now);
    outcome := SyncUnderLease(pool, i, lease, r, counters, now);
    ghost var left := pool.View();
    if CountsAsSynced(outcome) {
      members.MarkSynced(m.id, now, stored);
    }
    assert pool.View() == left;
  }

  /** The pool after a member that got a lease: what the others made of it, except for the lease's end. */
  predicate Worked(after: PoolRuns.Sys, meanwhile: seq<PoolRuns.Event>, answer: Outcome, r: Replies, now: Time,
                   ks: seq<Key>)
    requires r.WellFormed() && PoolRuns.LegalRun(after, meanwhile)
  {
    var left := PoolRuns.Run(after, meanwhile).keys;
    answer.Granted? && answer.index < |left| && ks == left[answer.index := LeaseEnded(left[answer.index], r, now)]
  }

  /** A member, from waiting for a key to storing the sync. Without a lease nothing but the status is
      touched and nothing is counted. `more` and `stamps` are what other workers add to the counters and
      write to other members' rows meanwhile. */
  method SyncOneMember(pool: Pool, status: Status.StateStore, rounds: seq<WaitForKey.Round>,
                       ghost pools: seq<PoolRuns.Sys>, m: Pipeline.Member, r: Replies, counters: Counters,
                       more: Counts, members: MembersTable, stamps: seq<Pipeline.Stamp>, stored: bool, now: Time)
    returns (outcome: End, failed: nat)
    requires pool.Valid() && WaitForKey.Trace(pools, rounds) && pool.View() == pools[0].keys && r.WellFormed()
    modifies pool.keys, status, counters, members
    ensures failed <= |rounds|
    ensures status.View() ==
            WaitForKey.StatusLeft(old(status.View()), rounds, failed, WaitForKey.FirstRetry(pools, rounds))
    ensures outcome.KeyLess? <==> WaitForKey.EndOf(pools, rounds, failed) in {None, Some(NoKey)}
    ensures outcome.KeyLess? ==>
              counters.View() == old(counters.View()).Plus(more) && members.rows == StoredAll(old(members.rows), stamps)
    ensures !outcome.KeyLess? ==>
              && outcome == Ending(r) && counters.View() == CountsAfter(old(counters.View()).Plus(more), r)
              && Worked(pools[failed + 1], rounds[failed].meanwhile, WaitForKey.AnswerOf(pools, rounds, failed), r, now,
                        pool.View())
              && members.rows == if outcome in {Synced, NoCharacter} && stored
                                 then Pipeline.StoreSync(StoredAll(old(members.rows), stamps), m.id, now)
                                 else StoredAll(old(members.rows), stamps)
  {
    var lease, exhausted, sleeps := WaitForKey.Wait(pool, status, rounds, pools);
    failed := exhausted;
    OthersWork(pool, status, counters, more, members, stamps);
    if lease.None? {
      return KeyLess, failed;
    }
    outcome := WorkOnMember(pool, status, WaitForKey.AnswerOf(pools, rounds, failed).index, lease.value,
                            pools[failed + 1], rounds[failed].meanwhile, m, r, counters, members, stored, now);
  }

  /** Additions to the counters and writes to other rows come to the same whenever they are made. */
  method OthersWork(ghost pool: Pool, ghost status: Status.StateStore, counters: Counters, more: Counts,
                    members: MembersTable, stamps: seq<Pipeline.Stamp>)
    modifies counters, members
    ensures pool.keys == old(pool.keys) && pool.View() == old(pool.View()) && status.View() == old(status.View())
    ensures counters.View() == old(counters.View()).Plus(more) && members.rows == StoredAll(old(members.rows), stamps)
  {
    counters.Add(more);
    members.MarkAll(stamps);
  }
}
