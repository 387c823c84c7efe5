/** What is stored and delivered, read off the fields of the samples: which labels a sample carries, the values
    added up, the first timestamp met, the arithmetic of a weight. */
module CpuUtilMeaning {
  import opened Floats
  import opened Entities
  import opened NestedMaps
  import opened CpuUtilHistory
  import opened CpuUtilSteps
  import opened CpuUtilTheorems
  import opened CpuUtilStrategy

  // ----- samples

  ghost predicate NamesHost(labels: Labels, metric: Metric, h: string) {
    labels.hostname in metric && metric[labels.hostname] == h
  }

  ghost predicate Names(labels: Labels, metric: Metric, k: Key) {
    NamesHost(labels, metric, k.host) && labels.taskID in metric && metric[labels.taskID] == k.task
  }

  ghost predicate MentionsHost(b: Batch, h: string) {
    exists i :: 0 <= i < |b.samples| && NamesHost(b.labels, b.samples[i].metric, h)
  }

  ghost predicate Mentions(b: Batch, k: Key) {
    exists i :: 0 <= i < |b.samples| && Names(b.labels, b.samples[i].metric, k)
  }

  /** Sample i is the first one of the task in the snapshot. */
  ghost predicate IsFirst(b: Batch, k: Key, i: int) {
    && 0 <= i < |b.samples| && Names(b.labels, b.samples[i].metric, k)
    && forall j :: 0 <= j < i ==> !Names(b.labels, b.samples[j].metric, k)
  }

  /** The values of the task's samples, added up. */
  ghost function TotalOf(labels: Labels, samples: seq<Sample>, k: Key): real {
    if samples == [] then 0.0
    else (if Names(labels, samples[0].metric, k) then samples[0].value else 0.0) + TotalOf(labels, samples[1..], k)
  }

  lemma NamesIsKeyOf(labels: Labels, metric: Metric, k: Key)
    ensures Names(labels, metric, k) <==> KeyOf(labels, metric) == Some(k)
  {
  }

  lemma MentionsIff(b: Batch, k: Key)
    ensures Mentions(b, k) <==> k in KeysOf(b)
  {
    if Mentions(b, k) {
      var i :| 0 <= i < |b.samples| && Names(b.labels, b.samples[i].metric, k);
      assert b.samples[i] in b.samples;
    }
    if k in KeysOf(b) {
      var s :| s in b.samples && KeyOf(b.labels, s.metric) == Some(k);
      var i :| 0 <= i < |b.samples| && b.samples[i] == s;
      assert Names(b.labels, b.samples[i].metric, k);
    }
  }

  lemma MentionsHostIff(b: Batch, h: string)
    ensures MentionsHost(b, h) <==> h in HostsOf(b)
  {
    if MentionsHost(b, h) {
      var i :| 0 <= i < |b.samples| && NamesHost(b.labels, b.samples[i].metric, h);
      assert b.samples[i] in b.samples;
    }
    if h in HostsOf(b) {
      var s :| s in b.samples && HostOf(b.labels, s.metric) == Some(h);
      var i :| 0 <= i < |b.samples| && b.samples[i] == s;
      assert NamesHost(b.labels, b.samples[i].metric, h);
    }
  }

  lemma {:induction false} TotalPush(labels: Labels, samples: seq<Sample>, s: Sample, k: Key)
    ensures TotalOf(labels, samples + [s], k)
            == TotalOf(labels, samples, k) + (if Names(labels, s.metric, k) then s.value else 0.0)
  {
    if samples == [] {
      assert ([] + [s])[1..] == [];
    } else {
      assert (samples + [s])[1..] == samples[1..] + [s];
      TotalPush(labels, samples[1..], s, k);
    }
  }

  lemma {:induction false} SelectTotal(b: Batch, k: Key)
    ensures Sum(Select(b, k)) == TotalOf(b.labels, b.samples, k)
    decreases |b.samples|
  {
    hide Sum, TotalOf, Names;
    if b.samples == [] {
      EmptyTotals(b.labels, k);
    } else {
      var n := |b.samples| - 1;
      var init, s := Batch(b.labels, b.samples[..n]), b.samples[n];
      SelectTotal(init, k);
      assert b.samples == init.samples + [s];
      TotalPush(b.labels, init.samples, s, k);
      SumPush(Select(init, k), s);
      NamesIsKeyOf(b.labels, s.metric, k);
      assert Select(init, k) + [] == Select(init, k);
    }
  }

  lemma EmptyTotals(labels: Labels, k: Key)
    ensures Sum([]) == 0.0 == TotalOf(labels, [], k)
  {
  }

  lemma {:induction false} SelectFirst(b: Batch, k: Key, first: int)
    requires IsFirst(b, k, first)
    ensures Select(b, k) != [] && Select(b, k)[0] == b.samples[first]
    decreases |b.samples|
  {
    hide Names, NamesHost, KeyOf;
    var n := |b.samples| - 1;
    var init := Batch(b.labels, b.samples[..n]);
    if first < n {
      assert IsFirst(init, k, first);
      SelectFirst(init, k, first);
    } else {
      MentionsIff(init, k);
      SelectNonEmpty(init, k);
      NamesIsKeyOf(b.labels, b.samples[n].metric, k);
    }
  }

  /** The data point of a task in a snapshot: all its values added up, the timestamp of its first sample. */
  ghost function MeantPoint(b: Batch, k: Key, first: int): DataPoint
    requires IsFirst(b, k, first)
  {
    DataPoint(TotalOf(b.labels, b.samples, k), b.samples[first].timestamp)
  }

  lemma PointMeaning(b: Batch, k: Key, first: int)
    requires IsFirst(b, k, first)
    ensures k in KeysOf(b) && PointOf(b, k) == MeantPoint(b, k, first)
    ensures FirstMetricIn(b, k) == b.samples[first].metric
  {
    SelectTotal(b, k);
    SelectFirst(b, k, first);
    assert Mentions(b, k);
    MentionsIff(b, k);
  }

  // ----- positions in the history

  ghost predicate EarliestMention(history: seq<Batch>, k: Key, j: int) {
    0 <= j < |history| && Mentions(history[j], k) && forall l :: 0 <= l < j ==> !Mentions(history[l], k)
  }

  ghost predicate LatestMention(history: seq<Batch>, k: Key, j: int) {
    0 <= j < |history| && Mentions(history[j], k) && forall l :: j < l < |history| ==> !Mentions(history[l], k)
  }

  ghost predicate Mentioned(history: seq<Batch>, k: Key) {
    exists j :: 0 <= j < |history| && Mentions(history[j], k)
  }

  lemma PositionsMeaning(history: seq<Batch>, k: Key)
    ensures forall j :: EarliestMention(history, k, j) <==> IsEarliest(history, k, j)
    ensures forall j :: LatestMention(history, k, j) <==> IsLatest(history, k, j)
    ensures Mentioned(history, k) <==> k in KeysSeen(history)
  {
    forall j | 0 <= j < |history| ensures Mentions(history[j], k) <==> k in KeysOf(history[j]) {
      MentionsIff(history[j], k);
    }
    if Mentioned(history, k) {
      var j :| 0 <= j < |history| && Mentions(history[j], k);
      assert history[j] in history;
    }
    if k in KeysSeen(history) {
      var b :| b in history && k in KeysOf(b);
      var j :| 0 <= j < |history| && history[j] == b;
    }
  }

  lemma {:induction false} FirstExists(b: Batch, k: Key, n: nat) returns (i: int)
    requires n < |b.samples| && Names(b.labels, b.samples[n].metric, k)
    ensures IsFirst(b, k, i)
  {
    i := 0;
    while !Names(b.labels, b.samples[i].metric, k)
      invariant 0 <= i <= n
      invariant forall j :: 0 <= j < i ==> !Names(b.labels, b.samples[j].metric, k)
      decreases n - i
    {
      i := i + 1;
    }
  }

  /** Whatever is mentioned has the positions that the statements below speak of. */
  lemma PositionsExist(history: seq<Batch>, k: Key)
    ensures Mentioned(history, k) ==>
              (exists f :: EarliestMention(history, k, f)) && (exists j :: LatestMention(history, k, j))
    ensures forall b :: Mentions(b, k) ==> exists i :: IsFirst(b, k, i)
  {
    if Mentioned(history, k) {
      var f :| 0 <= f < |history| && Mentions(history[f], k);
      var j := f;
      while exists l :: 0 <= l < f && Mentions(history[l], k)
        invariant 0 <= f < |history| && Mentions(history[f], k)
        decreases f
      {
        var l :| 0 <= l < f && Mentions(history[l], k);
        f := l;
      }
      assert EarliestMention(history, k, f);
      while exists l :: j < l < |history| && Mentions(history[l], k)
        invariant 0 <= j < |history| && Mentions(history[j], k)
        decreases |history| - j
      {
        var l :| j < l < |history| && Mentions(history[l], k);
        j := l;
      }
      assert LatestMention(history, k, j);
    }
    forall b | Mentions(b, k) ensures exists i :: IsFirst(b, k, i) {
      var n :| 0 <= n < |b.samples| && Names(b.labels, b.samples[n].metric, k);
      var i := FirstExists(b, k, n);
    }
  }

  // ----- weights

  /** w is what `round` and the division make of the growth from p to q, in percent of the elapsed time. */
  ghost predicate IsWeight(w: Float, p: DataPoint, q: DataPoint) {
    var growth, millis := q.total - p.total, q.timestamp - p.timestamp;
    if millis != 0 then w.Finite? && IsRounded(100000.0 * growth / millis as real, w.r)
    else if growth > 0.0 then w == PosInf
    else if growth < 0.0 then w == NegInf
    else w == NaN
  }

  lemma UtilIsQuotient(g: real, m: int)
    requires m != 0
    ensures 100.0 * (g / (m as real / 1000.0)) == 100000.0 * g / m as real
  {
    var y := m as real / 1000.0;
    QuotientTimes(g, y);
    QuotientTimes(100000.0 * g, m as real);
    assert 100.0 * (g / y) * m as real == 100000.0 * g;
    QuotientUnique(100.0 * (g / y), 100000.0 * g, m as real);
  }

  lemma WeightMeaning(p: DataPoint, q: DataPoint)
    ensures IsWeight(Round(CpuUtil(p, q)), p, q)
  {
    hide RoundReal, IsRounded;
    var growth, millis := q.total - p.total, q.timestamp - p.timestamp;
    if millis != 0 {
      UtilIsQuotient(growth, millis);
      var u := 100000.0 * growth / millis as real;
      assert CpuUtil(p, q) == Finite(u);
      RoundCharacterised(u, RoundReal(u));
    }
  }

  /** A concrete case: 1 cpu-second in 3 s is weighted 33.33. */
  lemma ThirdOfACpu(w: Float)
    ensures IsWeight(w, DataPoint(0.0, 0), DataPoint(1.0, 3000)) <==> w == Finite(33.33)
  {
    assert 33.33 == Hundredths(3333);
    RoundCharacterised(100000.0 / 3000.0, 33.33);
    if w.Finite? {
      RoundCharacterised(100000.0 / 3000.0, w.r);
    }
  }

  // ----- what is stored

  /** The record of a task: metric of its first sample ever, both names, the weight between its two latest
      snapshots (0 if there is one only), sum and first timestamp of the latest. */
  lemma EntryMeaning(history: seq<Batch>, k: Key, f: int, i: int, j: int, ff: int, fi: int, fj: int)
    requires EarliestMention(history, k, f) && LatestMention(history, k, j)
    requires if f == j then i == j else LatestMention(history[..j], k, i)
    requires IsFirst(history[f], k, ff) && IsFirst(history[i], k, fi) && IsFirst(history[j], k, fj)
    ensures k in StateOf(history).entries
    ensures var e := StateOf(history).entries[k];
            && e.task == Task(history[f].samples[ff].metric, e.task.weight, k.task, k.host)
            && e.point == Some(MeantPoint(history[j], k, fj))
            && (if f == j then e.task.weight == Finite(0.0)
                else IsWeight(e.task.weight, MeantPoint(history[i], k, fi), MeantPoint(history[j], k, fj)))
  {
    hide IsWeight, Mentions, MeantPoint, PointOf, FirstMetricIn, IsFirst, KeysOf, StateOf;
    PositionsMeaning(history, k);
    PositionsMeaning(history[..j], k);
    PointMeaning(history[f], k, ff);
    PointMeaning(history[i], k, fi);
    PointMeaning(history[j], k, fj);
    StoredEntry(history, k, f, i, j);
    WeightMeaning(PointOf(history[i], k), PointOf(history[j], k));
  }

  /** The heap of a strategy between calls: hosts and tasks that some sample since Init named, with records
      that carry the prescribed values in their fields. */
  lemma HeapMeaning(s: TaskRankCpuUtilStrategy, h: string, k: Key)
    requires s.Valid()
    ensures h in s.previousTotalCpuUsage <==> exists j :: 0 <= j < |s.history| && MentionsHost(s.history[j], h)
    ensures Has(s.previousTotalCpuUsage, k) <==> Mentioned(s.history, k)
    ensures Has(s.previousTotalCpuUsage, k) ==>
              var i, e := s.previousTotalCpuUsage[k.host][k.task], StateOf(s.history).entries[k];
              && i.task.metric == e.task.metric && i.task.weight == e.task.weight
              && i.task.id == e.task.id && i.task.hostname == e.task.hostname
              && i.dataPoint != null && e.point.Some?
              && i.dataPoint.totalCumulativeCpuUsage == e.point.value.total
              && i.dataPoint.timestamp == e.point.value.timestamp
  {
    hide EntryOf, IsLog, KeysOf, HostsOf, Mentions, MentionsHost;
    PositionsMeaning(s.history, k);
    ShapeHas(s.previousTotalCpuUsage, s.contents.hosts, s.contents.entries, k);
    forall j | 0 <= j < |s.history| ensures MentionsHost(s.history[j], h) <==> h in HostsOf(s.history[j]) {
      MentionsHostIff(s.history[j], h);
    }
    if h in HostsSeen(s.history) {
      var b :| b in s.history && h in HostsOf(b);
      var j :| 0 <= j < |s.history| && s.history[j] == b;
      assert MentionsHost(s.history[j], h);
    }
    if Has(s.previousTotalCpuUsage, k) {
      assert Stores(At(s.previousTotalCpuUsage, k), k, s.contents.entries[k], s.Repr);
      StoredComplete(s.history, k);
    }
  }

  // ----- what is delivered

  /** A task is delivered for a host exactly if the snapshot and some earlier one name it there. */
  lemma DeliveredTasks(history: seq<Batch>, b: Batch, r: RankedTasks, k: Key)
    requires IsRanking(history, b, r)
    ensures (k.host in r && exists n :: 0 <= n < |r[k.host]| && r[k.host][n].id == k.task)
            <==> Mentions(b, k) && Mentioned(history, k)
  {
    hide IsRanking, Mentions, KeysOf, KeysSeen;
    MentionsIff(b, k);
    PositionsMeaning(history, k);
    DeliveredAt(history, b, r, k);
  }

  lemma DeliveredAt(history: seq<Batch>, b: Batch, r: RankedTasks, k: Key)
    requires IsRanking(history, b, r)
    ensures (k.host in r && exists n :: 0 <= n < |r[k.host]| && r[k.host][n].id == k.task)
            <==> k in RankedKeys(history, b)
  {
    if k in RankedKeys(history, b) {
      assert k.host in RankedHosts(history, b);
      RankingMembers(history, b, r, k.host);
      assert TaskOf(history + [b], k) in r[k.host];
    } else if k.host in r {
      forall n | 0 <= n < |r[k.host]| ensures r[k.host][n].id != k.task {
        MemberHasKey(history, b, r, k.host, n);
      }
    }
  }

  /** A delivered task: metric of its first sample ever, both names, and the weight between the latest earlier
      snapshot with the task and this one. */
  lemma DeliveredTask(history: seq<Batch>, b: Batch, r: RankedTasks, h: string, n: int,
                      f: int, i: int, ff: int, fi: int, fb: int)
    requires IsRanking(history, b, r) && h in r && 0 <= n < |r[h]|
    requires var k := Key(h, r[h][n].id);
             && EarliestMention(history, k, f) && LatestMention(history, k, i)
             && IsFirst(history[f], k, ff) && IsFirst(history[i], k, fi) && IsFirst(b, k, fb)
    ensures var x, k := r[h][n], Key(h, r[h][n].id);
            && x.metric == history[f].samples[ff].metric && x.hostname == h
            && IsWeight(x.weight, MeantPoint(history[i], k, fi), MeantPoint(b, k, fb))
  {
    hide IsRanking, IsWeight, Mentions, MeantPoint, PointOf, FirstMetricIn, IsFirst, KeysOf, KeysSeen;
    var k := Key(h, r[h][n].id);
    MemberHasKey(history, b, r, h, n);
    PositionsMeaning(history, k);
    PointMeaning(history[f], k, ff);
    PointMeaning(history[i], k, fi);
    PointMeaning(b, k, fb);
    EarliestMetric(history, k, f);
    FirstMetricStep(history, b, k);
    WeightInterval(history, b, k, i);
    WeightMeaning(PointOf(history[i], k), PointOf(b, k));
  }

  /** The order of a delivered list, in numbers: unless some weight in it is NaN, none is below the next. */
  lemma DeliveredOrder(history: seq<Batch>, b: Batch, r: RankedTasks, h: string, i: int, j: int)
    requires IsRanking(history, b, r) && h in r && 0 <= i < j < |r[h]|
    requires forall n :: 0 <= n < |r[h]| ==> !r[h][n].weight.NaN?
    ensures var v, w := r[h][i].weight, r[h][j].weight;
            && (v.Finite? && w.Finite? ==> v.r >= w.r)
            && (v.NegInf? ==> w.NegInf?) && (w.PosInf? ==> v.PosInf?)
  {
    assert GreaterEq(r[h][i].weight, r[h][j].weight);
  }
}
