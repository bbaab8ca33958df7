/** The scan pipeline: a producer walking the members table in batches, a bounded channel and the
    workers behind it, step by step, over any number of scans. */
module Pipeline {
  import opened Basics
  import opened CnWorlds

  const QUEUE_SIZE: nat := 64
  const RECENT_SYNC_SKIP: nat := 24 * HOUR

  /** A row of the members table. */
  datatype Member = Member(id: nat, name: string, server: string, synced: Option<Time>)

  /** The table in primary-key order: positive ids, each once. */
  ghost predicate Sorted(rows: seq<Member>) {
    && (forall i :: 0 <= i < |rows| ==> rows[i].id > 0)
    && (forall i, j :: 0 <= i < j < |rows| ==> rows[i].id < rows[j].id)
  }

  // ----- the filter and the up-front count

  datatype Verdict = Keep | NonCN | Recent

  function FilterReason(m: Member, now: Time): Verdict {
    if m.synced.Some? && now - m.synced.value < RECENT_SYNC_SKIP then Recent
    else if !IsCNServer(m.server) then NonCN
    else Keep
  }

  /** The WHERE clause of the precount made at `t0`. */
  predicate Stale(m: Member, t0: Time) {
    IsCNServer(m.server) && (m.synced.None? || m.synced.value < t0 - RECENT_SYNC_SKIP)
  }

  function CountStale(rows: seq<Member>, t0: Time): nat {
    if rows == [] then 0 else (if Stale(rows[0], t0) then 1 else 0) + CountStale(rows[1..], t0)
  }

  // ----- queries

  function Where(rows: seq<Member>, lastID: nat): seq<Member> {
    if rows == [] then []
    else (if rows[0].id > lastID then [rows[0]] else []) + Where(rows[1..], lastID)
  }

  /** `WHERE id > lastID ORDER BY id LIMIT limit`. */
  function FetchBatch(rows: seq<Member>, lastID: nat, limit: nat): seq<Member> {
    var found := Where(rows, lastID);
    if limit < |found| then found[..limit] else found
  }

  /** `UPDATE members SET logs_sync_time = at WHERE id = id`. */
  function StoreSync(rows: seq<Member>, id: nat, at: Time): (r: seq<Member>)
    ensures |r| == |rows|
    ensures forall i :: 0 <= i < |rows| ==> r[i] == if rows[i].id == id then rows[i].(synced := Some(at)) else rows[i]
  {
    seq(|rows|, i requires 0 <= i < |rows| => if rows[i].id == id then rows[i].(synced := Some(at)) else rows[i])
  }

  // ----- the reference: one pass over rows with one clock reading each

  function Kept(rows: seq<Member>, clock: seq<Time>): (r: seq<Member>)
    requires |clock| <= |rows|
    ensures |r| <= |clock|
  {
    if clock == [] then []
    else
      var n := |clock| - 1;
      Kept(rows, clock[..n]) + if FilterReason(rows[n], clock[n]).Keep? then [rows[n]] else []
  }

  function CountVerdict(rows: seq<Member>, clock: seq<Time>, v: Verdict): nat
    requires |clock| <= |rows|
  {
    if clock == [] then 0
    else
      var n := |clock| - 1;
      CountVerdict(rows, clock[..n], v) + if FilterReason(rows[n], clock[n]) == v then 1 else 0
  }

  // ----- the running program

  /** `Classifying` is between counting a row as walked and counting its verdict; `Sending` is a
      kept row, already counted as queued, waiting for room in the channel. */
  datatype Producer =
    | Fetching
    | Walking(batch: seq<Member>)
    | Classifying(m: Member, rest: seq<Member>)
    | Sending(m: Member, rest: seq<Member>)
    | Closed(complete: bool)

  /** A busy worker's member may already have been marked as synced. */
  datatype Worker = Ready | Busy(m: Member, marked: bool) | Exited

  /** One value this program stored in logs_sync_time. */
  datatype Stamp = Stamp(id: nat, at: Time)

  /** `start` and `t0` are the table and the clock when the scan made its precount. `seen`, `clock`,
      `kept`, `handed` and `log` record, in order, the rows walked, the clock readings of the filter,
      the rows it kept, the rows workers received, and (over all scans) the sync times stored. */
  datatype Scan = Scan(
    table: seq<Member>,
    now: Time,
    start: seq<Member>,
    t0: Time,
    lastID: nat,
    producer: Producer,
    channel: seq<Member>,
    workers: seq<Worker>,
    walked: nat,
    nonCN: nat,
    recent: nat,
    queued: nat,
    expected: nat,
    seen: seq<Member>,
    clock: seq<Time>,
    kept: seq<Member>,
    handed: seq<Member>,
    log: seq<Stamp>)

  /** `NextScan` begins a scan once the previous one has returned; `counted` is whether its precount
      query succeeded. `Mark` is the write of logs_sync_time, `Finish` the worker going back for
      the next member, with or without having marked. */
  datatype Step =
    | NextScan(count: nat, at: Time, counted: bool)
    | Fetch(limit: nat)
    | FetchFails
    | Walk
    | Classify(at: Time)
    | Send
    | Receive(w: nat)
    | Mark(w: nat, ok: bool, at: Time)
    | Finish(w: nat)
    | Exit(w: nat)

  predicate Over(s: Scan) {
    s.producer.Closed? && forall w <- s.workers :: w.Exited?
  }

  predicate Legal(s: Scan, e: Step) {
    match e
    case NextScan(n, at, _) => Over(s) && n > 0 && s.now <= at
    case Fetch(limit) => s.producer.Fetching? && limit > 0
    case FetchFails => s.producer.Fetching?
    case Walk => s.producer.Walking? && s.producer.batch != []
    case Classify(at) => s.producer.Classifying? && s.now <= at
    case Send => s.producer.Sending? && |s.channel| < QUEUE_SIZE
    case Receive(w) => w < |s.workers| && s.workers[w].Ready? && s.channel != []
    case Mark(w, _, at) => w < |s.workers| && s.workers[w].Busy? && !s.workers[w].marked && s.now <= at
    case Finish(w) => w < |s.workers| && s.workers[w].Busy?
    case Exit(w) => w < |s.workers| && s.workers[w].Ready? && s.channel == [] && s.producer.Closed?
  }

  /** The producer after a row is done with. */
  function Onward(rest: seq<Member>): Producer {
    if rest == [] then Fetching else Walking(rest)
  }

  function Next(s: Scan, e: Step): Scan
    requires Legal(s, e)
  {
    match e
    case NextScan(n, at, counted) =>
      Scan(s.table, at, s.table, at, 0, Fetching, [], seq(n, _ => Ready), 0, 0, 0, 0,
           if counted then CountStale(s.table, at) else 0, [], [], [], [], s.log)
    case Fetch(limit) =>
      var batch := FetchBatch(s.table, s.lastID, limit);
      s.(producer := if batch == [] then Closed(true) else Walking(batch))
    case FetchFails => s.(producer := Closed(false))
    case Walk =>
      var m := s.producer.batch[0];
      s.(lastID := m.id, walked := s.walked + 1, seen := s.seen + [m],
         producer := Classifying(m, s.producer.batch[1..]))
    case Classify(at) =>
      var m, rest := s.producer.m, s.producer.rest;
      var s1 := s.(now := at, clock := s.clock + [at]);
      (match FilterReason(m, at)
       case Keep => s1.(queued := s.queued + 1, kept := s.kept + [m], producer := Sending(m, rest))
       case NonCN => s1.(nonCN := s.nonCN + 1, producer := Onward(rest))
       case Recent => s1.(recent := s.recent + 1, producer := Onward(rest)))
    case Send => s.(channel := s.channel + [s.producer.m], producer := Onward(s.producer.rest))
    case Receive(w) =>
      s.(channel := s.channel[1..], handed := s.handed + [s.channel[0]],
         workers := s.workers[w := Busy(s.channel[0], false)])
    case Mark(w, ok, at) =>
      var m := s.workers[w].m;
      var s1 := s.(now := at, workers := s.workers[w := Busy(m, true)]);
      if ok then s1.(table := StoreSync(s.table, m.id, at), log := s.log + [Stamp(m.id, at)]) else s1
    case Finish(w) => s.(workers := s.workers[w := Ready])
    case Exit(w) => s.(workers := s.workers[w := Exited])
  }

  predicate LegalRun(s: Scan, es: seq<Step>)
    decreases |es|
  {
    es == [] || (Legal(s, es[0]) && LegalRun(Next(s, es[0]), es[1..]))
  }

  function Run(s: Scan, es: seq<Step>): Scan
    requires LegalRun(s, es)
    decreases |es|
  {
    if es == [] then s else Run(Next(s, es[0]), es[1..])
  }

  /** Before the first scan: no workers, nothing in motion, nothing stored yet. */
  function Boot(table: seq<Member>, now: Time): Scan {
    Scan(table, now, table, now, 0, Closed(false), [], [], 0, 0, 0, 0, 0, [], [], [], [], [])
  }
}
