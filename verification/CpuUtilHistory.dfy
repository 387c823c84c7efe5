/** What the cpuutil strategy must know and report, recomputed from the whole history of snapshots
    since Init. Nothing here is incremental. */
module CpuUtilHistory {
  import opened Floats
  import opened Entities
  import opened NestedMaps
  import opened Ranking

  /** One Execute: its vector and the dedicated labels in force at the time. */
  datatype Batch = Batch(labels: Labels, samples: seq<Sample>)

  datatype DataPoint = DataPoint(total: real, timestamp: int)

  /** What is stored for a task; point is None only while the snapshot that introduces it is processed. */
  datatype Entry = Entry(task: Task, point: Option<DataPoint>)

  datatype State = State(hosts: set<string>, entries: map<Key, Entry>)

  function KeyOf(labels: Labels, metric: Metric): Option<Key> {
    match (HostOf(labels, metric), TaskIDOf(labels, metric))
    case (Some(h), Some(t)) => Some(Key(h, t))
    case _ => None
  }

  // ----- one snapshot

  /** The samples of one task, one per cpu. */
  function Select(b: Batch, k: Key): seq<Sample>
    decreases |b.samples|
  {
    if b.samples == [] then []
    else
      var n := |b.samples| - 1;
      var s := b.samples[n];
      Select(Batch(b.labels, b.samples[..n]), k) + (if KeyOf(b.labels, s.metric) == Some(k) then [s] else [])
  }

  function Sum(v: seq<Sample>): real {
    if v == [] then 0.0 else Sum(v[..|v| - 1]) + v[|v| - 1].value
  }

  /** All cpus summed, timestamp of the first sample. */
  function PointOf(b: Batch, k: Key): DataPoint {
    var v := Select(b, k);
    if v == [] then DataPoint(0.0, 0) else DataPoint(Sum(v), v[0].timestamp)
  }

  function HostsOf(b: Batch): set<string> {
    set s | s in b.samples && HostOf(b.labels, s.metric).Some? :: HostOf(b.labels, s.metric).value
  }

  function KeysOf(b: Batch): set<Key> {
    set s | s in b.samples && KeyOf(b.labels, s.metric).Some? :: KeyOf(b.labels, s.metric).value
  }

  lemma {:induction false} SelectNonEmpty(b: Batch, k: Key)
    ensures k in KeysOf(b) <==> Select(b, k) != []
    decreases |b.samples|
  {
    if b.samples != [] {
      var n := |b.samples| - 1;
      var init := Batch(b.labels, b.samples[..n]);
      assert b.samples == init.samples + [b.samples[n]];
      SelectNonEmpty(init, k);
      assert k in KeysOf(b) <==> k in KeysOf(init) || KeyOf(b.labels, b.samples[n].metric) == Some(k);
    }
  }

  // ----- the whole history

  /** The data points of a task, one for each snapshot that contains it, oldest first. */
  function Appearances(history: seq<Batch>, k: Key): seq<DataPoint> {
    if history == [] then []
    else
      var n := |history| - 1;
      Appearances(history[..n], k) + (if k in KeysOf(history[n]) then [PointOf(history[n], k)] else [])
  }

  function FirstMetricIn(b: Batch, k: Key): Metric {
    var v := Select(b, k);
    if v == [] then map[] else v[0].metric
  }

  /** The metric of the first sample ever seen for a task. */
  function FirstMetric(history: seq<Batch>, k: Key): Metric {
    if history == [] then map[]
    else
      var n := |history| - 1;
      if Appearances(history[..n], k) != [] then FirstMetric(history[..n], k)
      else FirstMetricIn(history[n], k)
  }

  function HostsSeen(history: seq<Batch>): set<string> {
    set b, h | b in history && h in HostsOf(b) :: h
  }

  function KeysSeen(history: seq<Batch>): set<Key> {
    set b, k | b in history && k in KeysOf(b) :: k
  }

  /** Utilisation in percent between two data points; timestamps are in milliseconds. */
  function CpuUtil(prev: DataPoint, now: DataPoint): Float {
    match Divide(now.total - prev.total, (now.timestamp - prev.timestamp) as real / 1000.0)
    case Finite(r) => Finite(100.0 * r)
    case f => f
  }

  /** The weight between the two latest appearances; 0 for a task seen once. */
  function WeightOf(points: seq<DataPoint>): Float {
    var n := |points|;
    if n < 2 then Finite(0.0) else Round(CpuUtil(points[n - 2], points[n - 1]))
  }

  function TaskOf(history: seq<Batch>, k: Key): Task {
    Task(FirstMetric(history, k), WeightOf(Appearances(history, k)), k.task, k.host)
  }

  function EntryOf(history: seq<Batch>, k: Key): Entry {
    var points := Appearances(history, k);
    Entry(TaskOf(history, k), if points == [] then None else Some(points[|points| - 1]))
  }

  function StateOf(history: seq<Batch>): State {
    State(HostsSeen(history), map k | k in KeysSeen(history) :: EntryOf(history, k))
  }

  lemma SeenStep(history: seq<Batch>, b: Batch)
    ensures HostsSeen(history + [b]) == HostsSeen(history) + HostsOf(b)
    ensures KeysSeen(history + [b]) == KeysSeen(history) + KeysOf(b)
  {
  }

  lemma AppearancesStep(history: seq<Batch>, b: Batch, k: Key)
    ensures Appearances(history + [b], k)
            == Appearances(history, k) + (if k in KeysOf(b) then [PointOf(b, k)] else [])
  {
  }

  lemma FirstMetricStep(history: seq<Batch>, b: Batch, k: Key)
    ensures FirstMetric(history + [b], k)
            == if Appearances(history, k) != [] then FirstMetric(history, k)
               else FirstMetricIn(b, k)
  {
  }

  lemma {:induction false} SeenIffAppeared(history: seq<Batch>, k: Key)
    ensures k in KeysSeen(history) <==> Appearances(history, k) != []
  {
    if history != [] {
      var n := |history| - 1;
      assert history == history[..n] + [history[n]];
      SeenIffAppeared(history[..n], k);
      SeenStep(history[..n], history[n]);
    }
  }

  // ----- what a run reports

  /** The tasks of a snapshot that some earlier snapshot contained. */
  function RankedKeys(history: seq<Batch>, b: Batch): set<Key> {
    KeysOf(b) * KeysSeen(history)
  }

  function RankedHosts(history: seq<Batch>, b: Batch): set<string> {
    set k | k in RankedKeys(history, b) :: k.host
  }

  /** The tasks to be delivered for a host, weighted between their two latest appearances. */
  function RankedOn(history: seq<Batch>, b: Batch, h: string): set<Task> {
    set k | k in RankedKeys(history, b) && k.host == h :: TaskOf(history + [b], k)
  }

  /** r is a correct outcome of processing b after history; an empty r stands for no delivery. */
  ghost predicate IsRanking(history: seq<Batch>, b: Batch, r: RankedTasks) {
    && r.Keys == RankedHosts(history, b)
    && forall h :: h in r ==>
      && multiset(r[h]) == multiset(RankedOn(history, b, h))
      && (NaNFree(r[h]) ==> NonIncreasing(r[h]))
  }

  /** Every run since Init had a correct outcome. */
  ghost predicate IsLog(history: seq<Batch>, results: seq<RankedTasks>) {
    && |history| == |results|
    && forall j :: 0 <= j < |history| ==> IsRanking(history[..j], history[j], results[j])
  }

  lemma LogStep(history: seq<Batch>, results: seq<RankedTasks>, b: Batch, r: RankedTasks)
    requires IsLog(history, results) && IsRanking(history, b, r)
    ensures IsLog(history + [b], results + [r])
  {
    var h2, r2 := history + [b], results + [r];
    forall j | 0 <= j < |h2| ensures IsRanking(h2[..j], h2[j], r2[j]) {
      if j < |history| {
        assert h2[..j] == history[..j];
        assert IsRanking(history[..j], history[j], results[j]);
      } else {
        assert h2[..j] == history;
      }
    }
  }
}
