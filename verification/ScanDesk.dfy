/** A scan seen from its members: who is in whose hands, how each one ended, and what it cost. */
module ScanDesk {
  import opened Basics
  import opened MemberModel
  import P = Pipeline

  /** How a member ended. */
  datatype Report = Report(m: P.Member, end: End)

  /** What a worker has in hand: nothing, a member not finished yet (with or without a lease, charged
      so much at most), or one that has ended. */
  datatype Job = Free | Open(m: P.Member, leased: bool, most: real) | Done(m: P.Member, end: End)

  /** `reports`, `handed`, `granted`, `charged` and `stored` are the members that ended, the members
      handed out, the leases given, the points FFLogs charged and the sync times stored. */
  datatype Desk = Desk(
    jobs: seq<Job>,
    reports: seq<Report>,
    handed: seq<P.Member>,
    granted: nat,
    charged: real,
    stored: seq<P.Stamp>)

  datatype Event =
    | Nothing
    | Clear(n: nat)
    | Take(w: nat, m: P.Member)
    | Grant(w: nat)
    | Pay(w: nat, points: real, most: real)
    | Close(w: nat, end: End)
    | Store(w: nat, at: Time)
    | Leave(w: nat)

  const FULL_PRICE := 60.0
  const BASE_PRICE := 20.0

  /** The most that is charged for a member that ended this way. */
  function Price(end: End): real {
    match end
    case KeyLess => 0.0
    case NoCharacter => BASE_PRICE
    case _ => FULL_PRICE
  }

  predicate Legal(d: Desk, e: Event) {
    match e
    case Nothing => true
    case Clear(_) => true
    case Take(w, _) => w < |d.jobs| && d.jobs[w].Free?
    case Grant(w) => w < |d.jobs| && d.jobs[w].Open? && !d.jobs[w].leased && d.jobs[w].most == 0.0
    case Pay(w, points, most) => w < |d.jobs| && d.jobs[w].Open? && d.jobs[w].leased && points <= most
    case Close(w, end) =>
      w < |d.jobs| && d.jobs[w].Open? && (d.jobs[w].leased <==> !end.KeyLess?) && d.jobs[w].most <= Price(end)
    case Store(w, _) => w < |d.jobs| && d.jobs[w].Done? && CountsAsSynced(d.jobs[w].end)
    case Leave(w) => w < |d.jobs| && d.jobs[w].Done?
  }

  function Next(d: Desk, e: Event): Desk
    requires Legal(d, e)
  {
    match e
    case Nothing => d
    case Clear(n) => Desk(seq(n, _ => Free), [], [], 0, 0.0, [])
    case Take(w, m) => d.(jobs := d.jobs[w := Open(m, false, 0.0)], handed := d.handed + [m])
    case Grant(w) => d.(jobs := d.jobs[w := Open(d.jobs[w].m, true, 0.0)], granted := d.granted + 1)
    case Pay(w, points, most) =>
      d.(jobs := d.jobs[w := Open(d.jobs[w].m, true, d.jobs[w].most + most)], charged := d.charged + points)
    case Close(w, end) =>
      d.(jobs := d.jobs[w := Done(d.jobs[w].m, end)], reports := d.reports + [Report(d.jobs[w].m, end)])
    case Store(w, at) => d.(stored := d.stored + [P.Stamp(d.jobs[w].m.id, at)])
    case Leave(w) => d.(jobs := d.jobs[w := Free])
  }

  // ----- sums

  /** Members, leases and points of the members that have ended: every one that had a key counts a
      lease, and costs at most what its end allows. */
  function LeasesOf(reports: seq<Report>): nat {
    if reports == [] then 0
    else LeasesOf(reports[..|reports| - 1]) + if reports[|reports| - 1].end.KeyLess? then 0 else 1
  }

  function PriceOf(reports: seq<Report>): real {
    if reports == [] then 0.0 else PriceOf(reports[..|reports| - 1]) + Price(reports[|reports| - 1].end)
  }

  /** And of those in the workers' hands. */
  function OpenJobs(jobs: seq<Job>): nat {
    if jobs == [] then 0 else OpenJobs(jobs[1..]) + if jobs[0].Open? then 1 else 0
  }

  function LeasesIn(jobs: seq<Job>): nat {
    if jobs == [] then 0 else LeasesIn(jobs[1..]) + if jobs[0].Open? && jobs[0].leased then 1 else 0
  }

  function MostIn(jobs: seq<Job>): real {
    if jobs == [] then 0.0 else MostIn(jobs[1..]) + if jobs[0].Open? then jobs[0].most else 0.0
  }

  lemma {:induction false} JobsUpdate(jobs: seq<Job>, w: nat, j: Job)
    requires w < |jobs|
    ensures OpenJobs(jobs[w := j]) == OpenJobs(jobs) - (if jobs[w].Open? then 1 else 0) + (if j.Open? then 1 else 0)
    ensures LeasesIn(jobs[w := j]) == LeasesIn(jobs) - (if jobs[w].Open? && jobs[w].leased then 1 else 0)
                                      + (if j.Open? && j.leased then 1 else 0)
    ensures MostIn(jobs[w := j]) == MostIn(jobs) - (if jobs[w].Open? then jobs[w].most else 0.0)
                                    + (if j.Open? then j.most else 0.0)
  {
    if w == 0 {
      assert jobs[w := j][1..] == jobs[1..];
    } else {
      assert jobs[w := j][1..] == jobs[1..][w - 1 := j];
      JobsUpdate(jobs[1..], w - 1, j);
    }
  }

  lemma {:induction false} NoOpenJobs(jobs: seq<Job>)
    requires forall w :: 0 <= w < |jobs| ==> !jobs[w].Open?
    ensures OpenJobs(jobs) == LeasesIn(jobs) == 0 && MostIn(jobs) == 0.0
  {
    if jobs != [] {
      NoOpenJobs(jobs[1..]);
    }
  }

  lemma {:induction false} LeasesAreOpen(jobs: seq<Job>)
    ensures LeasesIn(jobs) <= OpenJobs(jobs)
  {
    if jobs != [] {
      LeasesAreOpen(jobs[1..]);
    }
  }

  lemma ReportedMore(reports: seq<Report>, r: Report)
    ensures LeasesOf(reports + [r]) == LeasesOf(reports) + if r.end.KeyLess? then 0 else 1
    ensures PriceOf(reports + [r]) == PriceOf(reports) + Price(r.end)
  {
    assert (reports + [r])[..|reports|] == reports;
  }

  /** Everything handed out, granted or charged belongs to a member that has ended or is in some
      worker's hands. */
  predicate AddsUp(d: Desk) {
    && |d.handed| == |d.reports| + OpenJobs(d.jobs)
    && d.granted == LeasesOf(d.reports) + LeasesIn(d.jobs)
    && d.charged <= PriceOf(d.reports) + MostIn(d.jobs)
  }

  lemma AddsUpNext(d: Desk, e: Event)
    requires AddsUp(d) && Legal(d, e)
    ensures AddsUp(Next(d, e))
  {
    match e {
      case Clear(n) => NoOpenJobs(Next(d, e).jobs);
      case Take(w, m) => JobsUpdate(d.jobs, w, Open(m, false, 0.0));
      case Grant(w) => JobsUpdate(d.jobs, w, Open(d.jobs[w].m, true, 0.0));
      case Pay(w, _, most) => JobsUpdate(d.jobs, w, Open(d.jobs[w].m, true, d.jobs[w].most + most));
      case Close(w, end) =>
        JobsUpdate(d.jobs, w, Done(d.jobs[w].m, end));
        ReportedMore(d.reports, Report(d.jobs[w].m, end));
      case Leave(w) => JobsUpdate(d.jobs, w, Free);
      case _ =>
    }
  }

  // ----- each member once

  ghost predicate HasReport(reports: seq<Report>, m: P.Member) {
    exists r <- reports :: r.m == m
  }

  ghost predicate InHands(jobs: seq<Job>, m: P.Member) {
    exists w :: 0 <= w < |jobs| && jobs[w].Open? && jobs[w].m == m
  }

  /** Every member handed out is in some worker's hands or has a report. */
  ghost predicate Covered(jobs: seq<Job>, reports: seq<Report>, handed: seq<P.Member>) {
    forall m <- handed :: HasReport(reports, m) || InHands(jobs, m)
  }

  /** Reports are about different members that were handed out. */
  ghost predicate Distinct(reports: seq<Report>, handed: seq<P.Member>) {
    && (forall r <- reports :: r.m in handed)
    && (forall i, j :: 0 <= i < j < |reports| ==> reports[i].m.id != reports[j].m.id)
  }

  /** Workers have different members in hand, which were handed out and have no report. */
  ghost predicate Unreported(jobs: seq<Job>, reports: seq<Report>, handed: seq<P.Member>) {
    && (forall w :: 0 <= w < |jobs| && jobs[w].Open? ==> jobs[w].m in handed)
    && (forall w, r <- reports :: 0 <= w < |jobs| && jobs[w].Open? ==> r.m.id != jobs[w].m.id)
    && (forall v, w :: 0 <= v < w < |jobs| && jobs[v].Open? && jobs[w].Open? ==> jobs[v].m.id != jobs[w].m.id)
  }

  /** A worker that is done has reported; the sync times stored are of members that ended with one. */
  ghost predicate Accurate(jobs: seq<Job>, reports: seq<Report>, stored: seq<P.Stamp>) {
    && (forall w :: 0 <= w < |jobs| && jobs[w].Done? ==> Report(jobs[w].m, jobs[w].end) in reports)
    && (forall st <- stored :: exists r <- reports :: r.m.id == st.id && CountsAsSynced(r.end))
  }

  /** Only a member that was not handed out before is taken. */
  ghost predicate TakesNew(d: Desk, e: Event) {
    e.Take? ==> forall m <- d.handed :: m.id != e.m.id
  }

  ghost predicate Inv(d: Desk) {
    && AddsUp(d) && Covered(d.jobs, d.reports, d.handed) && Distinct(d.reports, d.handed)
    && Unreported(d.jobs, d.reports, d.handed) && Accurate(d.jobs, d.reports, d.stored)
  }

  lemma CoveredAfterTake(jobs: seq<Job>, reports: seq<Report>, handed: seq<P.Member>, w: nat, m: P.Member)
    requires Covered(jobs, reports, handed) && w < |jobs| && jobs[w].Free?
    ensures Covered(jobs[w := Open(m, false, 0.0)], reports, handed + [m])
  {
    var jobs' := jobs[w := Open(m, false, 0.0)];
    assert jobs'[w].m == m;
    forall x <- handed | !HasReport(reports, x)
      ensures InHands(jobs', x)
    {
      var v :| 0 <= v < |jobs| && jobs[v].Open? && jobs[v].m == x;
      assert jobs'[v] == jobs[v];
    }
  }

  /** The same member stays open, or nothing was. */
  lemma CoveredAfterChange(jobs: seq<Job>, reports: seq<Report>, handed: seq<P.Member>, w: nat, j: Job)
    requires Covered(jobs, reports, handed) && w < |jobs|
    requires jobs[w].Open? ==> j.Open? && j.m == jobs[w].m
    ensures Covered(jobs[w := j], reports, handed)
  {
    forall x <- handed | !HasReport(reports, x)
      ensures InHands(jobs[w := j], x)
    {
      var v :| 0 <= v < |jobs| && jobs[v].Open? && jobs[v].m == x;
      assert jobs[w := j][v].Open? && jobs[w := j][v].m == x;
    }
  }

  lemma CoveredAfterClose(jobs: seq<Job>, reports: seq<Report>, handed: seq<P.Member>, w: nat, end: End)
    requires Covered(jobs, reports, handed) && w < |jobs| && jobs[w].Open?
    ensures Covered(jobs[w := Done(jobs[w].m, end)], reports + [Report(jobs[w].m, end)], handed)
  {
    var jobs', reports' := jobs[w := Done(jobs[w].m, end)], reports + [Report(jobs[w].m, end)];
    assert reports'[|reports|] == Report(jobs[w].m, end);
    forall x <- handed
      ensures HasReport(reports', x) || InHands(jobs', x)
    {
      if HasReport(reports, x) {
        var r :| r in reports && r.m == x;
        assert r in reports';
      } else if x != jobs[w].m {
        var v :| 0 <= v < |jobs| && jobs[v].Open? && jobs[v].m == x;
        assert jobs'[v] == jobs[v];
      }
    }
  }

  lemma DistinctAfterClose(jobs: seq<Job>, reports: seq<Report>, handed: seq<P.Member>, w: nat, end: End)
    requires Distinct(reports, handed) && Unreported(jobs, reports, handed) && w < |jobs| && jobs[w].Open?
    ensures Distinct(reports + [Report(jobs[w].m, end)], handed)
    ensures Unreported(jobs[w := Done(jobs[w].m, end)], reports + [Report(jobs[w].m, end)], handed)
  {
    assert forall i :: 0 <= i < |reports| ==> reports[i] in reports;
  }

  lemma AccurateAfterClose(jobs: seq<Job>, reports: seq<Report>, stored: seq<P.Stamp>, w: nat, end: End)
    requires Accurate(jobs, reports, stored) && w < |jobs| && jobs[w].Open?
    ensures Accurate(jobs[w := Done(jobs[w].m, end)], reports + [Report(jobs[w].m, end)], stored)
  {
    var reports' := reports + [Report(jobs[w].m, end)];
    assert reports'[|reports|] in reports' && forall r <- reports :: r in reports';
  }

  lemma InvAfterTake(d: Desk, w: nat, m: P.Member)
    requires Inv(d) && Legal(d, Take(w, m)) && TakesNew(d, Take(w, m))
    ensures Inv(Next(d, Take(w, m)))
  {
    AddsUpNext(d, Take(w, m));
    CoveredAfterTake(d.jobs, d.reports, d.handed, w, m);
    assert m in d.handed + [m];
  }

  lemma InvAfterClose(d: Desk, w: nat, end: End)
    requires Inv(d) && Legal(d, Close(w, end))
    ensures Inv(Next(d, Close(w, end)))
  {
    AddsUpNext(d, Close(w, end));
    CoveredAfterClose(d.jobs, d.reports, d.handed, w, end);
    DistinctAfterClose(d.jobs, d.reports, d.handed, w, end);
    AccurateAfterClose(d.jobs, d.reports, d.stored, w, end);
  }

  lemma InvAfterChange(d: Desk, e: Event)
    requires Inv(d) && Legal(d, e) && (e.Grant? || e.Pay? || e.Leave?)
    ensures Inv(Next(d, e))
  {
    AddsUpNext(d, e);
    CoveredAfterChange(d.jobs, d.reports, d.handed, e.w, Next(d, e).jobs[e.w]);
  }

  lemma InvAfterStore(d: Desk, w: nat, at: Time)
    requires Inv(d) && Legal(d, Store(w, at))
    ensures Inv(Next(d, Store(w, at)))
  {
    assert Report(d.jobs[w].m, d.jobs[w].end) in d.reports;
  }

  lemma InvNext(d: Desk, e: Event)
    requires Inv(d) && Legal(d, e) && TakesNew(d, e)
    ensures Inv(Next(d, e))
  {
    match e {
      case Nothing =>
      case Clear(_) => AddsUpNext(d, e);
      case Take(w, m) => InvAfterTake(d, w, m);
      case Close(w, end) => InvAfterClose(d, w, end);
      case Store(w, at) => InvAfterStore(d, w, at);
      case _ => InvAfterChange(d, e);
    }
  }

  // ----- when nothing is in hand any more

  function CountEnded(reports: seq<Report>, end: End): nat {
    if reports == [] then 0
    else CountEnded(reports[..|reports| - 1], end) + if reports[|reports| - 1].end == end then 1 else 0
  }

  lemma {:induction false} EndedAreCounted(reports: seq<Report>, end: End)
    ensures CountEnded(reports, end) == |set i | 0 <= i < |reports| && reports[i].end == end|
  {
    if reports != [] {
      var n := |reports| - 1;
      EndedAreCounted(reports[..n], end);
      var front := set i | 0 <= i < n && reports[..n][i].end == end;
      var all := set i | 0 <= i < |reports| && reports[i].end == end;
      if reports[n].end == end {
        assert n !in front && all == front + {n};
      } else {
        assert all == front;
      }
    }
  }

  lemma {:induction false} EndsAddUp(reports: seq<Report>)
    ensures |reports| == CountEnded(reports, KeyLess) + CountEnded(reports, Failure) + CountEnded(reports, NoCharacter)
                         + CountEnded(reports, Synced) + CountEnded(reports, Panicked)
    ensures LeasesOf(reports) == |reports| - CountEnded(reports, KeyLess)
    ensures PriceOf(reports) == BASE_PRICE * CountEnded(reports, NoCharacter) as real
                                + FULL_PRICE * (CountEnded(reports, Synced) + CountEnded(reports, Failure)
                                                + CountEnded(reports, Panicked)) as real
  {
    if reports != [] {
      EndsAddUp(reports[..|reports| - 1]);
    }
  }
}
