/** Conservation of cpu-seconds over whole runs: what the delivered weights of a task add up to. */
module CpuUtilConservation {
  import opened Floats
  import opened Entities
  import opened NestedMaps
  import opened CpuUtilHistory
  import opened CpuUtilTheorems

  /** Cpu-seconds that a utilisation stands for over some time; a non-finite one stands for none. */
  function CpuSeconds(util: Float, elapsed: real): real {
    if util.Finite? then util.r / 100.0 * elapsed else 0.0
  }

  // ----- one step

  /** Over a step without elapsed time no utilisation is finite; over any other it accounts for the growth. */
  lemma UtilTimesElapsed(p: DataPoint, q: DataPoint)
    ensures CpuUtil(p, q).Finite? <==> p.timestamp != q.timestamp
    ensures CpuSeconds(CpuUtil(p, q), Elapsed(p, q)) == if p.timestamp == q.timestamp then 0.0 else q.total - p.total
  {
    var x, y := q.total - p.total, Elapsed(p, q);
    if y != 0.0 {
      QuotientTimes(x, y);
      assert CpuUtil(p, q).r / 100.0 == x / y;
    }
  }

  lemma NonNegativeProduct(x: real, y: real)
    requires x >= 0.0 && y >= 0.0
    ensures x * y >= 0.0
  {
  }

  lemma ScaledBounds(a: real, b: real, e: real)
    requires -0.00005 <= b - a <= 0.00005
    ensures -0.00005 * Abs(e) <= b * e - a * e <= 0.00005 * Abs(e)
  {
    NonNegativeProduct(b - a + 0.00005, Abs(e));
    NonNegativeProduct(0.00005 - (b - a), Abs(e));
    assert (b - a + 0.00005) * Abs(e) == b * Abs(e) - a * Abs(e) + 0.00005 * Abs(e);
    assert (0.00005 - (b - a)) * Abs(e) == 0.00005 * Abs(e) - (b * Abs(e) - a * Abs(e));
  }

  /** One reported weight stands for what the exact utilisation does, up to rounding. */
  lemma RoundedUtilTimesElapsed(p: DataPoint, q: DataPoint)
    ensures var error := CpuSeconds(Round(CpuUtil(p, q)), Elapsed(p, q)) - CpuSeconds(CpuUtil(p, q), Elapsed(p, q));
            -0.00005 * Abs(Elapsed(p, q)) <= error <= 0.00005 * Abs(Elapsed(p, q))
  {
    if CpuUtil(p, q).Finite? {
      var u := CpuUtil(p, q).r;
      RoundNear(u);
      ScaledBounds(u / 100.0, RoundReal(u) / 100.0, Elapsed(p, q));
    }
  }

  // ----- all appearances of a task

  /** Growth of the counter from the first to the latest appearance. */
  function Growth(points: seq<DataPoint>): real {
    if points == [] then 0.0 else points[|points| - 1].total - points[0].total
  }

  /** The part of the growth that falls on steps without elapsed time. */
  function StalledGrowth(points: seq<DataPoint>): real {
    var n := |points|;
    if n < 2 then 0.0
    else
      var p, q := points[n - 2], points[n - 1];
      StalledGrowth(points[..n - 1]) + (if p.timestamp == q.timestamp then q.total - p.total else 0.0)
  }

  /** Time between consecutive appearances, whatever its direction, summed. */
  function TotalElapsed(points: seq<DataPoint>): real {
    var n := |points|;
    if n < 2 then 0.0 else TotalElapsed(points[..n - 1]) + Abs(Elapsed(points[n - 2], points[n - 1]))
  }

  /** Exact utilisations times elapsed time, summed. */
  function ExactSeconds(points: seq<DataPoint>): real {
    var n := |points|;
    if n < 2 then 0.0
    else
      var p, q := points[n - 2], points[n - 1];
      ExactSeconds(points[..n - 1]) + CpuSeconds(CpuUtil(p, q), Elapsed(p, q))
  }

  /** They telescope to the growth of the counter, gaps included, short of what grew in no time. */
  lemma {:induction false} ExactSecondsTelescope(points: seq<DataPoint>)
    ensures ExactSeconds(points) == Growth(points) - StalledGrowth(points)
  {
    var n := |points|;
    if n > 1 {
      ExactSecondsTelescope(points[..n - 1]);
      UtilTimesElapsed(points[n - 2], points[n - 1]);
    }
  }

  /** Timestamps strictly increase, as the schedule rule intends. */
  ghost predicate Increasing(points: seq<DataPoint>) {
    forall i, j :: 0 <= i < j < |points| ==> points[i].timestamp < points[j].timestamp
  }

  lemma {:induction false} IncreasingTotals(points: seq<DataPoint>)
    requires points != [] && Increasing(points)
    ensures StalledGrowth(points) == 0.0
    ensures TotalElapsed(points) == Elapsed(points[0], points[|points| - 1])
  {
    var n := |points|;
    if n > 1 {
      IncreasingTotals(points[..n - 1]);
      assert points[n - 2].timestamp < points[n - 1].timestamp;
    }
  }

  // ----- whole runs

  /** Cpu-seconds of a task according to the delivered weights and the time each of them is about. */
  function ReportedSeconds(history: seq<Batch>, results: seq<RankedTasks>, k: Key): real
    requires |history| == |results|
  {
    if history == [] then 0.0
    else
      var n := |history| - 1;
      ReportedSeconds(history[..n], results[..n], k)
      + match WeightIn(results[n], k)
        case None => 0.0
        case Some(w) => CpuSeconds(w, LastElapsed(Appearances(history, k)))
  }

  lemma LogPrefix(history: seq<Batch>, results: seq<RankedTasks>)
    requires IsLog(history, results) && history != []
    ensures |history| == |results|
    ensures var n := |history| - 1;
            IsLog(history[..n], results[..n]) && IsRanking(history[..n], history[n], results[n])
  {
    var n := |history| - 1;
    forall j | 0 <= j < n ensures IsRanking(history[..n][..j], history[..n][j], results[..n][j]) {
      assert history[..n][..j] == history[..j];
    }
  }

  /** Reported and consumed cpu-seconds agree up to rounding and up to what grew in no time. */
  ghost predicate Conserved(reported: real, points: seq<DataPoint>) {
    var error := reported - (Growth(points) - StalledGrowth(points));
    -0.00005 * TotalElapsed(points) <= error <= 0.00005 * TotalElapsed(points)
  }

  lemma {:induction false} ConservedStep(reported: real, before: seq<DataPoint>, p: DataPoint)
    requires Conserved(reported, before)
    ensures before == [] ==> Conserved(reported, before + [p])
    ensures before != [] ==>
              var q := before[|before| - 1];
              Conserved(reported + CpuSeconds(Round(CpuUtil(q, p)), Elapsed(q, p)), before + [p])
  {
    var points := before + [p];
    assert points[..|before|] == before;
    if before != [] {
      var q := before[|before| - 1];
      RoundedUtilTimesElapsed(q, p);
      UtilTimesElapsed(q, p);
    }
  }

  lemma LastReport(history: seq<Batch>, results: seq<RankedTasks>, k: Key)
    requires IsLog(history, results) && history != []
    ensures var n := |history| - 1;
            var before := Appearances(history[..n], k);
            var earlier := ReportedSeconds(history[..n], results[..n], k);
            ReportedSeconds(history, results, k) ==
            if before == [] || k !in KeysOf(history[n]) then earlier
            else var q, p := before[|before| - 1], PointOf(history[n], k);
                 earlier + CpuSeconds(Round(CpuUtil(q, p)), Elapsed(q, p))
  {
    hide IsLog, IsRanking, CpuUtil, Round, PointOf;
    var n := |history| - 1;
    LogPrefix(history, results);
    assert history == history[..n] + [history[n]];
    DeliveredWeight(history[..n], history[n], results[n], k);
    SeenIffAppeared(history[..n], k);
    if k in RankedKeys(history[..n], history[n]) {
      RankedPoints(history[..n], history[n], k);
    }
  }

  /** Over any run since Init the delivered weights of a task add up to the cpu-seconds it consumed between its
      first and its latest appearance, less what grew in no time, within 0.00005 of the elapsed time. */
  lemma {:induction false} Conservation(history: seq<Batch>, results: seq<RankedTasks>, k: Key)
    requires IsLog(history, results)
    ensures Conserved(ReportedSeconds(history, results, k), Appearances(history, k))
  {
    hide IsLog, IsRanking, KeysOf, PointOf, CpuUtil, Round;
    if history == [] {
    } else {
      var n := |history| - 1;
      LogPrefix(history, results);
      LastReport(history, results, k);
      Conservation(history[..n], results[..n], k);
      var before, points := Appearances(history[..n], k), Appearances(history, k);
      if k in KeysOf(history[n]) {
        ConservedStep(ReportedSeconds(history[..n], results[..n], k), before, PointOf(history[n], k));
      } else {
        assert points == before;
      }
    }
  }

  /** With increasing timestamps that is all it consumed, within 0.00005 of the time from first to latest. */
  lemma ConservationIncreasing(history: seq<Batch>, results: seq<RankedTasks>, k: Key)
    requires IsLog(history, results)
    requires Appearances(history, k) != [] && Increasing(Appearances(history, k))
    ensures var points := Appearances(history, k);
            var error := ReportedSeconds(history, results, k) - Growth(points);
            var elapsed := Elapsed(points[0], points[|points| - 1]);
            -0.00005 * elapsed <= error <= 0.00005 * elapsed
  {
    hide IsLog, ReportedSeconds, Appearances, Increasing;
    Conservation(history, results, k);
    IncreasingTotals(Appearances(history, k));
  }

  /** A task that gains no more than c cpu-seconds a second is weighted between 0 and 100 times c;
      rounding does not overshoot. */
  lemma WeightWithinCpus(p: DataPoint, q: DataPoint, c: nat)
    requires p.timestamp < q.timestamp
    requires 0.0 <= q.total - p.total <= c as real * Elapsed(p, q)
    ensures Round(CpuUtil(p, q)).Finite? && 0.0 <= Round(CpuUtil(p, q)).r <= 100.0 * c as real
  {
    var x, y := q.total - p.total, Elapsed(p, q);
    QuotientBounds(x, y, c as real);
    var u := CpuUtil(p, q).r;
    assert 0.0 <= u <= 100.0 * c as real;
    RoundMonotone(0.0, u);
    RoundMonotone(u, 100.0 * c as real);
    RoundFixesHundredths(0);
    RoundFixesHundredths(10000 * c);
  }

  lemma QuotientBounds(x: real, y: real, c: real)
    requires y > 0.0 && 0.0 <= x <= c * y
    ensures 0.0 <= x / y <= c
  {
  }
}
