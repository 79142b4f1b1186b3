/** The drop counters that the video and the audio source keep for their drop-oldest queues. */
module DropAccounting {
  import opened Arithmetic

  /** last and overall are skipped_last and skipped_overall. from and to are the capture times
      of the first and the last frame dropped in the current burst. */
  datatype Skips = Skips(last: nat, overall: nat, from: Option<nat>, to: Option<nat>)

  /** The warning posted when a burst of drops is over. */
  datatype Report = Report(count: nat, from: Option<nat>, to: Option<nat>)

  const NO_SKIPS: Skips := Skips(0, 0, None, None)

  /** How many entries the drop loop removes from a queue before one is appended. */
  function Overflow(length: nat, queueSize: nat): nat {
    if length >= queueSize then length - queueSize + 1 else 0
  }

  /** A burst ends when nothing had to be dropped although frames were dropped before. */
  predicate EndsBurst(sk: Skips, times: seq<nat>) { times == [] && sk.last > 0 }

  /** The counters after dropping frames with these capture times for one new frame. */
  function Counted(sk: Skips, times: seq<nat>): Skips {
    if EndsBurst(sk, times) then
      sk.(overall := sk.overall + sk.last, last := 0)
    else
      Burst(sk, times).(last := sk.last + |times|)
  }

  /** The ends of the burst as the drop loop moves them, before the counters are settled. */
  function Burst(sk: Skips, times: seq<nat>): Skips {
    if times == [] then sk
    else
      sk.(from := if sk.last == 0 then Some(times[0]) else sk.from, to := Some(times[|times| - 1]))
  }

  lemma BurstExtends(sk: Skips, times: seq<nat>, t: nat)
    ensures
      var b := Burst(sk, times);
      && b.last == sk.last && b.overall == sk.overall
      && Burst(sk, times + [t]) ==
           (if times == [] && b.last == 0 then b.(from := Some(t)) else b).(to := Some(t))
  {}

  function Posted(sk: Skips, times: seq<nat>): seq<Report> {
    if EndsBurst(sk, times) then [Report(sk.last, sk.from, sk.to)] else []
  }

  // ------------------------------------------------------- against the list of all drops

  /** The reports cut the list of drops into consecutive non-empty bursts and name the first
      and the last of each. */
  ghost predicate Cover(reports: seq<Report>, drops: seq<nat>)
    decreases |reports|
  {
    if reports == [] then drops == []
    else
      var r := reports[|reports| - 1];
      && 0 < r.count <= |drops|
      && r.from == Some(drops[|drops| - r.count])
      && r.to == Some(drops[|drops| - 1])
      && Cover(reports[..|reports| - 1], drops[..|drops| - r.count])
  }

  /** drops lists the capture times of all frames dropped since the counters were cleared. */
  ghost predicate Accounts(sk: Skips, reports: seq<Report>, drops: seq<nat>) {
    && |drops| == sk.overall + sk.last
    && Cover(reports, drops[..sk.overall])
    && (sk.last > 0 ==> sk.from == Some(drops[sk.overall]) && sk.to == Some(drops[|drops| - 1]))
  }

  /** No drop is lost or counted twice: the counters split the drops into reported bursts and
      the burst under way, whose ends are skip_from and skip_to. */
  lemma CountedKeepsAccounts(sk: Skips, reports: seq<Report>, drops: seq<nat>, times: seq<nat>)
    requires Accounts(sk, reports, drops)
    ensures Accounts(Counted(sk, times), reports + Posted(sk, times), drops + times)
  {
    var sk', reports', drops' := Counted(sk, times), reports + Posted(sk, times), drops + times;
    if EndsBurst(sk, times) {
      assert drops' == drops && drops[..sk'.overall] == drops;
      assert reports'[..|reports'| - 1] == reports;
    } else {
      assert reports' == reports;
      assert drops'[..sk.overall] == drops[..sk.overall];
    }
  }

  lemma CoverCounts(reports: seq<Report>, drops: seq<nat>)
    requires Cover(reports, drops)
    ensures ReportedTotal(reports) == |drops|
    decreases |reports|
  {
    if reports == [] {
    } else {
      CoverCounts(reports[..|reports| - 1], drops[..|drops| - reports[|reports| - 1].count]);
    }
  }

  function ReportedTotal(reports: seq<Report>): nat {
    if reports == [] then 0 else ReportedTotal(reports[..|reports| - 1]) + reports[|reports| - 1].count
  }
}
