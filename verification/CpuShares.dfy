/** What the cpushares strategy delivers: a stable ranking of each host's samples by allocated cpu shares. */
module CpuShares {
  import opened Floats
  import opened Entities
  import opened StableSort
  import opened Ranking

  // ----- what is to be ranked

  /** One weighted metric per sample or stream. */
  datatype Share = Share(metric: Metric, weight: Float)

  function SumOf(values: seq<SamplePair>): real {
    if values == [] then 0.0 else SumOf(values[..|values| - 1]) + values[|values| - 1].value
  }

  function Average(values: seq<SamplePair>): Float {
    Divide(SumOf(values), |values| as real)
  }

  function SharesOf(data: Value): seq<Share> {
    match data
    case Matrix(m) => seq(|m|, i requires 0 <= i < |m| => Share(m[i].metric, Average(m[i].values)))
    case Vector(v) => seq(|v|, i requires 0 <= i < |v| => Share(v[i].metric, Finite(v[i].value)))
    case _ => []
  }

  /** The hosts named by some share; a task label is not needed for that. */
  function HostsOf(labels: Labels, shares: seq<Share>): set<string> {
    set s | s in shares && HostOf(labels, s.metric).Some? :: HostOf(labels, s.metric).value
  }

  /** The tasks of a host in input order, one for each share that carries both labels. */
  function TasksOn(labels: Labels, shares: seq<Share>, h: string): seq<Task> {
    if shares == [] then []
    else
      var n := |shares| - 1;
      var s := shares[n];
      TasksOn(labels, shares[..n], h) +
      (if HostOf(labels, s.metric) == Some(h) && TaskIDOf(labels, s.metric).Some?
       then [Task(s.metric, s.weight, TaskIDOf(labels, s.metric).value, h)] else [])
  }

  function Grouped(labels: Labels, shares: seq<Share>): RankedTasks {
    map h | h in HostsOf(labels, shares) :: TasksOn(labels, shares, h)
  }

  function SortedGroups(tasks: RankedTasks): RankedTasks {
    map h | h in tasks :: Sorted(tasks[h], MoreWeight)
  }

  /** What the receiver gets. */
  function RankingOf(labels: Labels, shares: seq<Share>): RankedTasks {
    SortedGroups(Grouped(labels, shares))
  }

  // ----- filing one share

  lemma GroupedNone(labels: Labels)
    ensures Grouped(labels, []) == map[]
  {
  }

  lemma GroupedStep(labels: Labels, shares: seq<Share>, s: Share)
    ensures HostsOf(labels, shares + [s])
            == HostsOf(labels, shares)
               + (if HostOf(labels, s.metric).Some? then {HostOf(labels, s.metric).value} else {})
    ensures forall h :: TasksOn(labels, shares + [s], h) ==
              if HostOf(labels, s.metric) == Some(h) && TaskIDOf(labels, s.metric).Some?
              then TasksOn(labels, shares, h) + [Task(s.metric, s.weight, TaskIDOf(labels, s.metric).value, h)]
              else TasksOn(labels, shares, h)
    ensures forall h :: h !in HostsOf(labels, shares) ==> TasksOn(labels, shares, h) == []
  {
    assert (shares + [s])[..|shares|] == shares;
    assert forall x :: x in shares + [s] <==> x in shares || x == s;
    forall h | h !in HostsOf(labels, shares) ensures TasksOn(labels, shares, h) == [] {
      NoTasksElsewhere(labels, shares, h);
    }
  }

  /** One more share: its host gets an entry if need be, and its task goes to the end of the host's list. */
  lemma GroupedPut(labels: Labels, shares: seq<Share>, s: Share)
    ensures var g, g' := Grouped(labels, shares), Grouped(labels, shares + [s]);
            match HostOf(labels, s.metric)
            case None => g' == g
            case Some(h) =>
              var base := if h in g then g else g[h := []];
              match TaskIDOf(labels, s.metric)
              case None => g' == base
              case Some(t) => g' == base[h := base[h] + [Task(s.metric, s.weight, t, h)]]
  {
    hide TasksOn, HostsOf;
    GroupedStep(labels, shares, s);
  }

  lemma {:induction false} NoTasksElsewhere(labels: Labels, shares: seq<Share>, h: string)
    requires h !in HostsOf(labels, shares)
    ensures TasksOn(labels, shares, h) == []
  {
    if shares != [] {
      var n := |shares| - 1;
      assert shares[n] in shares;
      assert forall s :: s in shares[..n] ==> s in shares;
      NoTasksElsewhere(labels, shares[..n], h);
    }
  }

  // ----- the ranking

  /** Input order: the tasks of a host follow the shares from left to right. */
  lemma {:induction false} TasksInInputOrder(labels: Labels, a: seq<Share>, b: seq<Share>, h: string)
    ensures TasksOn(labels, a + b, h) == TasksOn(labels, a, h) + TasksOn(labels, b, h)
  {
    if b == [] {
      assert a + b == a;
    } else {
      var n := |b| - 1;
      assert (a + b)[..|a + b| - 1] == a + b[..n];
      TasksInInputOrder(labels, a, b[..n], h);
    }
  }

  /** A host has a stable ranking unless NaN has company on it, and then the delivered list is the only one. */
  lemma DeliversTheStableRanking(labels: Labels, shares: seq<Share>, h: string, output: seq<Task>)
    requires h in HostsOf(labels, shares)
    ensures h in RankingOf(labels, shares)
    ensures var tasks := TasksOn(labels, shares, h);
            IsStableRanking(tasks, output) <==>
              output == RankingOf(labels, shares)[h] && (|tasks| <= 1 || NaNFree(tasks))
  {
    StableRankingIff(TasksOn(labels, shares, h), output);
  }

  /** Whatever the weights, exactly the tasks of the host are delivered, and the list is non-increasing
      exactly when NaN has no company. */
  lemma DeliversEveryTask(labels: Labels, shares: seq<Share>, h: string)
    ensures h in RankingOf(labels, shares) <==> exists s :: s in shares && HostOf(labels, s.metric) == Some(h)
    ensures h in RankingOf(labels, shares) ==>
              var tasks, ranked := TasksOn(labels, shares, h), RankingOf(labels, shares)[h];
              && multiset(ranked) == multiset(tasks)
              && (NonIncreasing(ranked) <==> |tasks| <= 1 || NaNFree(tasks))
  {
    SortedPermutes(TasksOn(labels, shares, h), MoreWeight);
    BothComparatorsRank();
    SortedNonIncreasingIff(TasksOn(labels, shares, h), MoreWeight);
  }

  ghost predicate FromShare(labels: Labels, s: Share, h: string, task: Task) {
    HostOf(labels, s.metric) == Some(h) && TaskIDOf(labels, s.metric) == Some(task.id)
    && task == Task(s.metric, s.weight, task.id, h)
  }

  ghost predicate FromSome(labels: Labels, shares: seq<Share>, h: string, task: Task) {
    exists s :: s in shares && FromShare(labels, s, h, task)
  }

  lemma {:induction false} TasksComeFromShares(labels: Labels, shares: seq<Share>, h: string, task: Task)
    ensures task in TasksOn(labels, shares, h) <==> FromSome(labels, shares, h, task)
  {
    if shares != [] {
      var n := |shares| - 1;
      assert shares == shares[..n] + [shares[n]];
      TasksComeFromShares(labels, shares[..n], h, task);
      assert FromSome(labels, shares, h, task) <==>
               FromSome(labels, shares[..n], h, task) || FromShare(labels, shares[n], h, task);
    }
  }

  lemma EmptyStreamIsNaN(labels: Labels, streams: seq<SampleStream>, h: string, i: int)
    requires 0 <= i < |streams| && streams[i].values == []
    requires HostOf(labels, streams[i].metric) == Some(h) && TaskIDOf(labels, streams[i].metric).Some?
    ensures !NaNFree(TasksOn(labels, SharesOf(Matrix(streams)), h))
  {
    var shares := SharesOf(Matrix(streams));
    var task := Task(shares[i].metric, NaN, TaskIDOf(labels, streams[i].metric).value, h);
    assert shares[i] in shares && FromShare(labels, shares[i], h, task);
    TasksComeFromShares(labels, shares, h, task);
  }

  /** Only an empty stream can put NaN into a host's tasks. */
  lemma NaNIffEmptyStream(labels: Labels, data: Value, h: string)
    ensures NaNFree(TasksOn(labels, SharesOf(data), h)) <==>
              (data.Matrix? ==> forall i :: 0 <= i < |data.streams| && data.streams[i].values == [] ==>
                 HostOf(labels, data.streams[i].metric) != Some(h) || TaskIDOf(labels, data.streams[i].metric).None?)
  {
    var shares := SharesOf(data);
    var tasks := TasksOn(labels, shares, h);
    if !NaNFree(tasks) {
      var j :| 0 <= j < |tasks| && tasks[j].weight.NaN?;
      TasksComeFromShares(labels, shares, h, tasks[j]);
      var s :| s in shares && FromShare(labels, s, h, tasks[j]);
      var i :| 0 <= i < |shares| && shares[i] == s;
      assert data.Matrix? && data.streams[i].values == [];
    } else if data.Matrix? {
      forall i | 0 <= i < |data.streams| && data.streams[i].values == []
        ensures HostOf(labels, data.streams[i].metric) != Some(h) || TaskIDOf(labels, data.streams[i].metric).None?
      {
        if HostOf(labels, data.streams[i].metric) == Some(h) && TaskIDOf(labels, data.streams[i].metric).Some? {
          EmptyStreamIsNaN(labels, data.streams, h, i);
        }
      }
    }
  }

  /** An empty stream next to another one on the same host: the delivered list is not non-increasing. */
  lemma EmptyStreamHasCompany()
    ensures var data := Matrix([SampleStream(map["id" := "a", "host" := "h"], []),
                                SampleStream(map["id" := "b", "host" := "h"], [SamplePair(0, 1.0)])]);
            var r := RankingOf(Labels("id", "host"), SharesOf(data));
            "h" in r && |r["h"]| == 2 && !NonIncreasing(r["h"])
  {
    var streams := [SampleStream(map["id" := "a", "host" := "h"], []),
                    SampleStream(map["id" := "b", "host" := "h"], [SamplePair(0, 1.0)])];
    hide Sorted, NonIncreasing, NaNFree;
    var labels, shares := Labels("id", "host"), SharesOf(Matrix(streams));
    assert shares[0] in shares && HostOf(labels, shares[0].metric) == Some("h");
    DeliversEveryTask(labels, shares, "h");
    EmptyStreamIsNaN(labels, streams, "h", 0);
    assert shares[..1][..0] == [] && shares == shares[..1] + [shares[1]];
    assert |TasksOn(labels, shares[..1], "h")| == 1;
    assert |TasksOn(labels, shares, "h")| == 2;
    SortedLength(TasksOn(labels, shares, "h"), MoreWeight);
  }

  // ----- averages

  lemma {:induction false} SumBounds(values: seq<SamplePair>, lo: real, hi: real)
    requires forall i :: 0 <= i < |values| ==> lo <= values[i].value <= hi
    ensures lo * |values| as real <= SumOf(values) <= hi * |values| as real
  {
    if values != [] {
      var n := |values| - 1;
      SumBounds(values[..n], lo, hi);
      assert |values| as real == n as real + 1.0;
      assert lo * |values| as real == lo * n as real + lo;
      assert hi * |values| as real == hi * n as real + hi;
    }
  }

  lemma QuotientBetween(x: real, lo: real, hi: real, n: real)
    requires n > 0.0 && lo * n <= x <= hi * n
    ensures lo <= x / n <= hi
  {
  }

  /** The average of a non-empty stream lies between its least and its greatest value. */
  lemma AverageBetween(values: seq<SamplePair>, lo: real, hi: real)
    requires values != [] && forall i :: 0 <= i < |values| ==> lo <= values[i].value <= hi
    ensures Average(values).Finite? && lo <= Average(values).r <= hi
  {
    SumBounds(values, lo, hi);
    QuotientBetween(SumOf(values), lo, hi, |values| as real);
  }

  /** Constant streams rank exactly like the vector of their constants, ties included. */
  lemma MatrixAgreesWithVector(labels: Labels, streams: seq<SampleStream>, samples: seq<Sample>)
    requires |streams| == |samples|
    requires forall i :: 0 <= i < |streams| ==>
               && streams[i].metric == samples[i].metric && streams[i].values != []
               && forall j :: 0 <= j < |streams[i].values| ==> streams[i].values[j].value == samples[i].value
    ensures SharesOf(Matrix(streams)) == SharesOf(Vector(samples))
    ensures RankingOf(labels, SharesOf(Matrix(streams))) == RankingOf(labels, SharesOf(Vector(samples)))
  {
    forall i | 0 <= i < |streams| ensures SharesOf(Matrix(streams))[i] == SharesOf(Vector(samples))[i] {
      AverageBetween(streams[i].values, samples[i].value, samples[i].value);
    }
  }

  // ----- the delivery, read off the data

  ghost function ValuesTotal(values: seq<SamplePair>): real {
    if values == [] then 0.0 else values[0].value + ValuesTotal(values[1..])
  }

  /** The weight of a stream: times the number of values it is their sum; an empty stream weighs NaN. */
  ghost predicate IsAverage(w: Float, values: seq<SamplePair>) {
    if values == [] then w == NaN
    else w.Finite? && w.r * |values| as real == ValuesTotal(values)
  }

  /** One weight for each stream or sample of the data. */
  ghost predicate WeightsFor(data: Value, metrics: seq<Metric>, weights: seq<Float>) {
    && |metrics| == |weights|
    && match data
       case Vector(v) =>
         && |weights| == |v|
         && forall i :: 0 <= i < |v| ==> metrics[i] == v[i].metric && weights[i] == Finite(v[i].value)
       case Matrix(m) =>
         && |weights| == |m|
         && forall i :: 0 <= i < |m| ==> metrics[i] == m[i].metric && IsAverage(weights[i], m[i].values)
       case _ => weights == []
  }

  /** The tasks of a host, in input order: one for each metric that carries both labels. */
  ghost function Labelled(labels: Labels, metrics: seq<Metric>, weights: seq<Float>, h: string): seq<Task>
    requires |metrics| == |weights|
  {
    if metrics == [] then []
    else
      var m := metrics[0];
      (if labels.hostname in m && m[labels.hostname] == h && labels.taskID in m
       then [Task(m, weights[0], m[labels.taskID], h)] else [])
      + Labelled(labels, metrics[1..], weights[1..], h)
  }

  /** No number is followed by a greater one. */
  ghost predicate InOrder(s: seq<Task>) {
    forall i, j :: 0 <= i < j < |s| ==> s[i].weight.Finite? && s[j].weight.Finite? ==> s[i].weight.r >= s[j].weight.r
  }

  /** r is the ranking of the weighted metrics: a host for each host label, for each host its tasks, each once, with
      every group of ties in input order, and heaviest first if all weights are numbers. */
  ghost predicate RanksWeights(labels: Labels, metrics: seq<Metric>, weights: seq<Float>, r: RankedTasks)
    requires |metrics| == |weights|
  {
    && (forall h :: h in r <==>
          exists i :: 0 <= i < |metrics| && labels.hostname in metrics[i] && metrics[i][labels.hostname] == h)
    && (forall h :: h in r ==> multiset(r[h]) == multiset(Labelled(labels, metrics, weights, h)))
    && (forall h, w :: h in r ==> WithWeight(r[h], w) == WithWeight(Labelled(labels, metrics, weights, h), w))
    && (forall h :: h in r && (forall n :: 0 <= n < |r[h]| ==> r[h][n].weight.Finite?) ==> InOrder(r[h]))
  }

  ghost predicate RanksData(labels: Labels, data: Value, r: RankedTasks) {
    exists metrics, weights :: WeightsFor(data, metrics, weights) && RanksWeights(labels, metrics, weights, r)
  }

  lemma {:induction false} ValuesTotalPush(values: seq<SamplePair>, x: SamplePair)
    ensures ValuesTotal(values + [x]) == ValuesTotal(values) + x.value
  {
    if values == [] {
      assert ([] + [x])[1..] == [];
    } else {
      assert (values + [x])[1..] == values[1..] + [x];
      ValuesTotalPush(values[1..], x);
    }
  }

  lemma {:induction false} SumIsTotal(values: seq<SamplePair>)
    ensures SumOf(values) == ValuesTotal(values)
  {
    if values != [] {
      var n := |values| - 1;
      assert values == values[..n] + [values[n]];
      SumIsTotal(values[..n]);
      ValuesTotalPush(values[..n], values[n]);
    }
  }

  /** The average is the one value that times the number of values makes their sum, NaN if there are none. */
  lemma AverageMeaning(values: seq<SamplePair>, w: Float)
    ensures w == Average(values) <==> IsAverage(w, values)
  {
    SumIsTotal(values);
    if values != [] {
      QuotientTimes(SumOf(values), |values| as real);
      if IsAverage(w, values) {
        QuotientUnique(w.r, SumOf(values), |values| as real);
      }
    }
  }

  function MetricsOf(shares: seq<Share>): seq<Metric> {
    seq(|shares|, i requires 0 <= i < |shares| => shares[i].metric)
  }

  function WeightsOf(shares: seq<Share>): seq<Float> {
    seq(|shares|, i requires 0 <= i < |shares| => shares[i].weight)
  }

  lemma SharesWeigh(data: Value)
    ensures WeightsFor(data, MetricsOf(SharesOf(data)), WeightsOf(SharesOf(data)))
  {
    if data.Matrix? {
      forall i | 0 <= i < |data.streams| ensures IsAverage(Average(data.streams[i].values), data.streams[i].values) {
        AverageMeaning(data.streams[i].values, Average(data.streams[i].values));
      }
    }
  }

  lemma {:induction false} LabelledPush(labels: Labels, metrics: seq<Metric>, weights: seq<Float>, m: Metric, w: Float,
                                        h: string)
    requires |metrics| == |weights|
    ensures Labelled(labels, metrics + [m], weights + [w], h)
            == Labelled(labels, metrics, weights, h) + Labelled(labels, [m], [w], h)
  {
    if metrics == [] {
      assert metrics + [m] == [m] && weights + [w] == [w];
    } else {
      assert (metrics + [m])[1..] == metrics[1..] + [m] && (weights + [w])[1..] == weights[1..] + [w];
      LabelledPush(labels, metrics[1..], weights[1..], m, w, h);
    }
  }

  lemma {:induction false} TasksAreLabelled(labels: Labels, shares: seq<Share>, h: string)
    ensures TasksOn(labels, shares, h) == Labelled(labels, MetricsOf(shares), WeightsOf(shares), h)
  {
    if shares != [] {
      var n := |shares| - 1;
      var s := shares[n];
      TasksAreLabelled(labels, shares[..n], h);
      assert MetricsOf(shares) == MetricsOf(shares[..n]) + [s.metric];
      assert WeightsOf(shares) == WeightsOf(shares[..n]) + [s.weight];
      LabelledPush(labels, MetricsOf(shares[..n]), WeightsOf(shares[..n]), s.metric, s.weight, h);
      assert [s.metric][1..] == [] && [s.weight][1..] == [];
    }
  }

  lemma RankedHostMeaning(labels: Labels, shares: seq<Share>, h: string)
    ensures h in HostsOf(labels, shares) <==>
              var metrics := MetricsOf(shares);
              exists i :: 0 <= i < |metrics| && labels.hostname in metrics[i] && metrics[i][labels.hostname] == h
  {
    var metrics := MetricsOf(shares);
    if h in HostsOf(labels, shares) {
      var s :| s in shares && HostOf(labels, s.metric) == Some(h);
      var i :| 0 <= i < |shares| && shares[i] == s;
      assert metrics[i] == s.metric;
    }
    if i :| 0 <= i < |metrics| && labels.hostname in metrics[i] && metrics[i][labels.hostname] == h {
      assert shares[i] in shares && HostOf(labels, shares[i].metric) == Some(h);
    }
  }

  lemma SortedInNumbers(s: seq<Task>, i: int, j: int)
    requires NaNFree(s) && 0 <= i < j < |s|
    ensures var r := Sorted(s, MoreWeight);
            |r| == |s| && (r[i].weight.Finite? && r[j].weight.Finite? ==> r[i].weight.r >= r[j].weight.r)
  {
    BothComparatorsRank();
    SortedLength(s, MoreWeight);
    SortedNonIncreasing(s, MoreWeight);
    assert GreaterEq(Sorted(s, MoreWeight)[i].weight, Sorted(s, MoreWeight)[j].weight);
  }

  lemma RankingMeaningOn(labels: Labels, shares: seq<Share>, h: string)
    requires h in RankingOf(labels, shares)
    ensures var s, tasks := RankingOf(labels, shares)[h], Labelled(labels, MetricsOf(shares), WeightsOf(shares), h);
            && multiset(s) == multiset(tasks)
            && (forall w :: WithWeight(s, w) == WithWeight(tasks, w))
            && (NaNFree(s) ==> InOrder(s))
  {
    hide Sorted, WithWeight, Labelled, NaNFree;
    TasksAreLabelled(labels, shares, h);
    var t := TasksOn(labels, shares, h);
    var s := Sorted(t, MoreWeight);
    forall w ensures WithWeight(s, w) == WithWeight(t, w) {
      SortedStable(t, w);
    }
    SortedPermutes(t, MoreWeight);
    PermutationNaNFree(t, s);
    SortedLength(t, MoreWeight);
    forall i, j | NaNFree(s) && 0 <= i < j < |s| && s[i].weight.Finite? && s[j].weight.Finite?
      ensures s[i].weight.r >= s[j].weight.r
    {
      SortedInNumbers(t, i, j);
    }
  }

  /** What the receiver gets is the ranking of the data. */
  lemma RankingMeaning(labels: Labels, data: Value)
    ensures RanksData(labels, data, RankingOf(labels, SharesOf(data)))
  {
    hide SharesOf, WithWeight, Labelled, NaNFree, MetricsOf, WeightsOf, WeightsFor, HostsOf, TasksOn;
    var shares := SharesOf(data);
    var r := RankingOf(labels, shares);
    SharesWeigh(data);
    var metrics := MetricsOf(shares);
    forall h
      ensures h in r <==>
                exists i :: 0 <= i < |metrics| && labels.hostname in metrics[i] && metrics[i][labels.hostname] == h
    {
      RankedHostMeaning(labels, shares, h);
    }
    forall h | h in r
      ensures forall w :: WithWeight(r[h], w)
                          == WithWeight(Labelled(labels, MetricsOf(shares), WeightsOf(shares), h), w)
      ensures multiset(r[h]) == multiset(Labelled(labels, MetricsOf(shares), WeightsOf(shares), h))
      ensures (forall n :: 0 <= n < |r[h]| ==> r[h][n].weight.Finite?) ==> InOrder(r[h])
    {
      RankingMeaningOn(labels, shares, h);
      FiniteNaNFree(r[h]);
    }
    MetricsWeights(shares);
    assert RanksWeights(labels, MetricsOf(shares), WeightsOf(shares), r);
  }

  lemma FiniteNaNFree(s: seq<Task>)
    ensures (forall n :: 0 <= n < |s| ==> s[n].weight.Finite?) ==> NaNFree(s)
  {
  }

  /** A task is listed for a host exactly if some metric carries both labels, with its weight. */
  lemma {:induction false} LabelledMembers(labels: Labels, metrics: seq<Metric>, weights: seq<Float>, h: string,
                                           x: Task)
    requires |metrics| == |weights|
    ensures x in Labelled(labels, metrics, weights, h) <==>
              exists i :: 0 <= i < |metrics| && IsTaskOf(labels, metrics[i], weights[i], h, x)
  {
    if metrics != [] {
      LabelledMembers(labels, metrics[1..], weights[1..], h, x);
      if i :| 0 <= i < |metrics| && IsTaskOf(labels, metrics[i], weights[i], h, x) {
        if i > 0 {
          assert metrics[1..][i - 1] == metrics[i] && weights[1..][i - 1] == weights[i];
        }
      }
      if i :| 0 <= i < |metrics| - 1 && IsTaskOf(labels, metrics[1..][i], weights[1..][i], h, x) {
        assert IsTaskOf(labels, metrics[i + 1], weights[i + 1], h, x);
      }
    }
  }

  /** x is the task that the metric names on the host. */
  ghost predicate IsTaskOf(labels: Labels, m: Metric, w: Float, h: string, x: Task) {
    && labels.hostname in m && m[labels.hostname] == h && labels.taskID in m
    && x == Task(m, w, m[labels.taskID], h)
  }

  /** The delivered tasks of a host: for a vector, one for each sample with both labels, weighted by its value; for
      a matrix, one for each stream with both labels, weighted by its average. */
  lemma RankedMembers(labels: Labels, data: Value, r: RankedTasks, h: string, x: Task)
    requires RanksData(labels, data, r) && h in r
    ensures data.Vector? ==>
              (x in r[h] <==> exists i :: 0 <= i < |data.samples|
                                && IsTaskOf(labels, data.samples[i].metric, Finite(data.samples[i].value), h, x))
    ensures data.Matrix? ==>
              (x in r[h] <==> exists i :: 0 <= i < |data.streams|
                                && IsAverage(x.weight, data.streams[i].values)
                                && IsTaskOf(labels, data.streams[i].metric, x.weight, h, x))
  {
    hide Labelled, WithWeight, InOrder, IsAverage;
    var metrics, weights :| WeightsFor(data, metrics, weights) && RanksWeights(labels, metrics, weights, r);
    LabelledMembers(labels, metrics, weights, h, x);
    assert x in r[h] <==> x in multiset(r[h]);
    assert x in Labelled(labels, metrics, weights, h) <==> x in multiset(Labelled(labels, metrics, weights, h));
    if data.Matrix? {
      forall i | 0 <= i < |data.streams| && IsAverage(x.weight, data.streams[i].values) ensures weights[i] == x.weight {
        AverageMeaning(data.streams[i].values, x.weight);
        AverageMeaning(data.streams[i].values, weights[i]);
      }
    }
  }

  lemma MetricsWeights(shares: seq<Share>)
    ensures |MetricsOf(shares)| == |WeightsOf(shares)| == |shares|
  {
  }
}
