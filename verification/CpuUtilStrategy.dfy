/** The cpuutil strategy as it runs: nested maps of mutable records that survive from call to call,
    updated in place through pointers. */
module CpuUtilStrategy {
  import opened Floats
  import opened Entities
  import opened StableSort
  import opened NestedMaps
  import opened Ranking
  import opened LabelMatchers
  import TimeRange
  import opened CpuUtilHistory
  import opened CpuUtilSteps
  import opened CpuUtilTheorems

  class TaskRecord {
    const metric: Metric
    var weight: Float
    const id: string
    const hostname: string

    constructor (metric: Metric, id: string, hostname: string)
      ensures Copy() == Task(metric, Finite(0.0), id, hostname)
    {
      this.metric, this.weight, this.id, this.hostname := metric, Finite(0.0), id, hostname;
    }

    function Copy(): Task
      reads this
    {
      Task(metric, weight, id, hostname)
    }
  }

  class CpuUsageDataPoint {
    ghost const owner: Key
    var totalCumulativeCpuUsage: real
    var timestamp: int

    constructor (ghost owner: Key, total: real, timestamp: int)
      ensures this.owner == owner && Point() == DataPoint(total, timestamp)
    {
      this.owner := owner;
      this.totalCumulativeCpuUsage, this.timestamp := total, timestamp;
    }

    function Point(): DataPoint
      reads this
    {
      DataPoint(totalCumulativeCpuUsage, timestamp)
    }
  }

  class TaskCpuUsageInfo {
    ghost const owner: Key
    const task: TaskRecord
    var dataPoint: CpuUsageDataPoint?

    constructor (ghost owner: Key, task: TaskRecord)
      ensures this.owner == owner && this.task == task && dataPoint == null
    {
      this.owner, this.task, this.dataPoint := owner, task, null;
    }
  }

  type Usage = NestedMap<TaskCpuUsageInfo>

  type Points = NestedMap<CpuUsageDataPoint>

  /** The record of one task: objects of its own that carry its two map keys and the stored value. */
  ghost predicate Stores(i: TaskCpuUsageInfo, k: Key, e: Entry, objects: set<object>)
    reads objects
  {
    && i in objects && i.owner == k
    && i.task in objects && i.task.id == k.task && i.task.hostname == k.host
    && i.task.Copy() == e.task
    && (e.point.None? <==> i.dataPoint == null)
    && (e.point.Some? ==> i.dataPoint in objects && i.dataPoint.owner == k && i.dataPoint.Point() == e.point.value)
  }

  ghost predicate AllStored(usage: Usage, entries: map<Key, Entry>, objects: set<object>)
    reads objects
  {
    forall k :: k in entries ==> Has(usage, k) && Stores(At(usage, k), k, entries[k], objects)
  }

  ghost predicate OthersStored(usage: Usage, entries: map<Key, Entry>, k: Key, objects: set<object>)
    reads objects
  {
    forall j :: j in entries && j != k ==> Has(usage, j) && Stores(At(usage, j), j, entries[j], objects)
  }

  /** The objects that make up a record. */
  ghost function PartsOf(i: TaskCpuUsageInfo): set<object?>
    reads i
  {
    {i, i.task, i.dataPoint}
  }

  /** No object belongs to two keys: without the parts of one record the others are still complete. */
  lemma RecordsApart(usage: Usage, entries: map<Key, Entry>, k: Key, objects: set<object>, others: set<object>)
    requires AllStored(usage, entries, objects) && k in entries && Has(usage, k)
    requires others == set o | o in objects && o !in PartsOf(At(usage, k))
    ensures OthersStored(usage, entries, k, others)
    ensures Stores(At(usage, k), k, entries[k], objects)
    ensures forall o :: o in PartsOf(At(usage, k)) && o != null ==> o in objects
  {
  }

  lemma AllStoredReplace(usage: Usage, entries: map<Key, Entry>, objects: set<object>,
                         k: Key, e: Entry, objects': set<object>)
    requires OthersStored(usage, entries, k, objects) && Has(usage, k)
    requires objects <= objects' && Stores(At(usage, k), k, e, objects')
    ensures AllStored(usage, entries[k := e], objects')
  {
  }

  lemma FreshStored(i: TaskCpuUsageInfo, k: Key, e: Entry, objects: set<object>)
    requires i in objects && i.task in objects && i.owner == k && i.dataPoint == null
    requires i.task.id == k.task && i.task.hostname == k.host && e == Entry(i.task.Copy(), None)
    ensures Stores(i, k, e, objects)
  {
  }

  lemma AllStoredPut(usage: Usage, entries: map<Key, Entry>, objects: set<object>,
                     k: Key, i: TaskCpuUsageInfo, e: Entry, objects': set<object>)
    requires AllStored(usage, entries, objects) && k.host in usage
    requires Stores(i, k, e, objects')
    ensures AllStored(Put(usage, k, i), entries[k := e], objects + objects')
  {
  }

  ghost predicate Records(p: CpuUsageDataPoint, k: Key, point: DataPoint, objects: set<object>)
    reads objects
  {
    p in objects && p.owner == k && p.Point() == point
  }

  ghost predicate AllRecorded(now: Points, points: map<Key, DataPoint>, objects: set<object>)
    reads objects
  {
    forall k :: k in points ==> Has(now, k) && Records(At(now, k), k, points[k], objects)
  }

  /** now holds, host by host, one record of its own for each entry of totals. */
  ghost predicate Tallies(now: Points, totals: Totals, objects: set<object>)
    reads objects
  {
    SameShape(now, totals.hosts, totals.points) && AllRecorded(now, totals.points, objects)
  }

  lemma EmptyTallies(objects: set<object>)
    ensures Tallies(map[], Totals({}, map[]), objects)
  {
  }

  lemma TalliesHosts(now: Points, totals: Totals, objects: set<object>)
    requires Tallies(now, totals, objects)
    ensures now.Keys == totals.hosts
    ensures forall k :: k in totals.points ==> k.host in now
  {
  }

  lemma TalliesHost(now: Points, totals: Totals, objects: set<object>, h: string)
    requires Tallies(now, totals, objects)
    ensures Tallies(AddHost(now, h), Totals(totals.hosts + {h}, totals.points), objects) && h in AddHost(now, h)
  {
  }

  /** Adds one sample to the totals of this call. */
  method Tally(now: Points, k: Key, sample: Sample, ghost totals: Totals, ghost objects: set<object>)
    returns (now': Points, ghost objects': set<object>)
    requires Tallies(now, totals, objects) && k.host in now
    modifies objects
    ensures var p := if k in totals.points
                     then DataPoint(totals.points[k].total + sample.value, totals.points[k].timestamp)
                     else DataPoint(sample.value, sample.timestamp);
            Tallies(now', Totals(totals.hosts, totals.points[k := p]), objects')
    ensures objects <= objects' && fresh(objects' - objects)
  {
    now', objects' := now, objects;
    if k.task !in now[k.host] {
      assert !Has(now, k);
      hide SameShape, Put;
      var point := new CpuUsageDataPoint(k, sample.value, sample.timestamp);
      PutShape(now, totals.hosts, totals.points, k, point, point.Point());
      now' := Put(now, k, point);
      objects' := objects + {point};
    } else {
      assert Has(now, k);
      var point := now[k.host][k.task];
      point.totalCumulativeCpuUsage := point.totalCumulativeCpuUsage + sample.value;
    }
  }

  /** Ranks one active task if it has a data point already, then saves the current one. */
  method Visit(prevRecorded: TaskCpuUsageInfo, active: CpuUsageDataPoint,
               ghost k: Key, ghost e: Entry, ghost objects: set<object>)
    returns (ranked: Option<Task>, ghost objects': set<object>)
    requires Stores(prevRecorded, k, e, objects) && active !in objects
    modifies prevRecorded, prevRecorded.task, prevRecorded.dataPoint
    ensures Stores(prevRecorded, k, Updated(e, active.Point()), objects')
    ensures objects <= objects' && fresh(objects' - objects) && active !in objects'
    ensures ranked == if e.point.Some? then Some(Updated(e, active.Point()).task) else None
  {
    ranked, objects' := None, objects;
    if prevRecorded.dataPoint == null {
      prevRecorded.dataPoint := new CpuUsageDataPoint(k, 0.0, 0);
      objects' := objects + {prevRecorded.dataPoint};
    } else {
      prevRecorded.task.weight := Round(CpuUtil(prevRecorded.dataPoint.Point(), active.Point()));
      ranked := Some(prevRecorded.task.Copy());
    }
    prevRecorded.dataPoint.totalCumulativeCpuUsage := active.totalCumulativeCpuUsage;
    prevRecorded.dataPoint.timestamp := active.timestamp;
  }

  class TaskRankCpuUtilStrategy {
    const receiver: TaskRanksReceiver
    var labels: seq<LabelMatcher>
    var dedicatedLabelNameTaskID: string
    var dedicatedLabelNameTaskHostname: string
    var previousTotalCpuUsage: Usage
    var rangeTimeUnit: int
    var rangeQty: nat

    // the value of previousTotalCpuUsage, and the objects it is built from
    ghost var contents: State
    ghost var Repr: set<object>
    // the snapshots since Init and what was made of each
    ghost var history: seq<Batch>
    ghost var results: seq<RankedTasks>

    function DedicatedLabels(): Labels
      reads this
    {
      Labels(dedicatedLabelNameTaskID, dedicatedLabelNameTaskHostname)
    }

    /** Holds at every moment, also half-way through a call. */
    ghost predicate Consistent()
      reads `previousTotalCpuUsage, `contents, `Repr, Repr
    {
      && this !in Repr && receiver !in Repr
      && SameShape(previousTotalCpuUsage, contents.hosts, contents.entries)
      && AllStored(previousTotalCpuUsage, contents.entries, Repr)
    }

    /** Holds between calls: the stored state is the one the history prescribes. */
    ghost predicate Valid()
      reads `previousTotalCpuUsage, `contents, `Repr, `history, `results, Repr
    {
      Consistent() && contents == StateOf(history) && IsLog(history, results)
    }

    constructor (receiver: TaskRanksReceiver)
      ensures Valid() && fresh(Repr) && history == [] && this.receiver == receiver
      ensures labels == [] && rangeTimeUnit == TimeRange.NONE && rangeQty == 0
    {
      this.receiver := receiver;
      labels, dedicatedLabelNameTaskID, dedicatedLabelNameTaskHostname := [], "", "";
      rangeTimeUnit, rangeQty := TimeRange.NONE, 0;
      previousTotalCpuUsage := map[];
      contents, history, results := State({}, map[]), [], [];
      Repr := {};
    }

    /** Forgets everything seen so far; what was delivered stays delivered. */
    method Init()
      requires Valid()
      modifies this
      ensures Valid() && fresh(Repr - old(Repr))
      ensures history == [] && contents == State({}, map[])
      ensures rangeTimeUnit == TimeRange.NONE && rangeQty == 0
      ensures labels == old(labels) && DedicatedLabels() == old(DedicatedLabels())
      ensures receiver.received == old(receiver.received)
    {
      rangeTimeUnit, rangeQty := TimeRange.NONE, 0;
      previousTotalCpuUsage := map[];
      contents, history, results := State({}, map[]), [], [];
      Repr := {};
    }

    method SetLabelMatchers(labelMatchers: seq<LabelMatcher>) returns (error: Option<ConfigError>)
      requires Valid()
      modifies `labels, `dedicatedLabelNameTaskID, `dedicatedLabelNameTaskHostname
      ensures Valid() && Repr == old(Repr)
      ensures error == Refusal(labelMatchers)
      ensures labels == if error.None? then labelMatchers else old(labels)
      ensures DedicatedLabels() == Adopted(labelMatchers, old(DedicatedLabels()))
      ensures error.None? ==>
                forall i, j :: IsLast(labelMatchers, TASK_ID, i) && IsLast(labelMatchers, TASK_HOSTNAME, j) ==>
                  && dedicatedLabelNameTaskID == labelMatchers[i].name
                  && dedicatedLabelNameTaskHostname == labelMatchers[j].name
      ensures contents == old(contents) && history == old(history) && results == old(results)
      ensures rangeTimeUnit == old(rangeTimeUnit) && rangeQty == old(rangeQty)
    {
      hide Adopted, IsLast, SameShape, AllStored, StateOf, IsLog;
      var names, e := ScanLabelMatchers(labelMatchers, DedicatedLabels());
      dedicatedLabelNameTaskID, dedicatedLabelNameTaskHostname := names.taskID, names.hostname;
      if e.None? {
        labels := labelMatchers;
        AdoptedWhenAccepted(labelMatchers, old(DedicatedLabels()));
      }
      error := e;
    }

    /** First time metrics are fetched from a host. */
    method IntroduceHost(hostname: string)
      requires Consistent()
      modifies `previousTotalCpuUsage, `contents
      ensures Consistent() && hostname in previousTotalCpuUsage
      ensures contents == State(old(contents).hosts + {hostname}, old(contents).entries)
    {
      hide SameShape, AddHost;
      AddHostShape(previousTotalCpuUsage, contents.hosts, contents.entries, hostname);
      previousTotalCpuUsage := AddHost(previousTotalCpuUsage, hostname);
      contents := State(contents.hosts + {hostname}, contents.entries);
    }

    /** First time metrics are fetched for a task: stores a record without a data point. */
    method IntroduceTask(k: Key, metric: Metric)
      requires Consistent() && k.host in previousTotalCpuUsage
      modifies `previousTotalCpuUsage, `contents, `Repr
      ensures Consistent() && old(Repr) <= Repr && fresh(Repr - old(Repr))
      ensures contents == State(old(contents).hosts,
                                if k in old(contents).entries then old(contents).entries
                                else old(contents).entries[k := Entry(Task(metric, Finite(0.0), k.task, k.host), None)])
    {
      hide SameShape, AllStored, Put, Stores;
      ShapeHas(previousTotalCpuUsage, contents.hosts, contents.entries, k);
      if k.task !in previousTotalCpuUsage[k.host] {
        var task := new TaskRecord(metric, k.task, k.host);
        var info := new TaskCpuUsageInfo(k, task);
        ghost var e := Entry(task.Copy(), None);
        FreshStored(info, k, e, {task, info});
        PutShape(previousTotalCpuUsage, contents.hosts, contents.entries, k, info, e);
        AllStoredPut(previousTotalCpuUsage, contents.entries, Repr, k, info, e, {task, info});
        previousTotalCpuUsage := Put(previousTotalCpuUsage, k, info);
        contents := State(contents.hosts, contents.entries[k := e]);
        Repr := Repr + {task, info};
      }
    }

    /** Parses one sample into the stored state and the totals of this call. */
    method Observe(sample: Sample, now: Points, ghost totals: Totals, ghost objects: set<object>)
      returns (now': Points, ghost objects': set<object>)
      requires Consistent() && Tallies(now, totals, objects) && objects !! Repr && this !in objects
      modifies `previousTotalCpuUsage, `contents, `Repr, objects
      ensures Consistent() && old(Repr) <= Repr && fresh(Repr - old(Repr))
      ensures contents == Register(DedicatedLabels(), old(contents), sample)
      ensures Tallies(now', Accumulate(DedicatedLabels(), totals, sample), objects')
      ensures objects' !! Repr && objects <= objects' && fresh(objects' - objects)
    {
      hide AddHost, SameShape, AllStored, AllRecorded;
      now', objects' := now, objects;
      if dedicatedLabelNameTaskHostname in sample.metric {
        var hostname := sample.metric[dedicatedLabelNameTaskHostname];
        IntroduceHost(hostname);
        TalliesHost(now, totals, objects, hostname);
        now' := AddHost(now, hostname);
        if dedicatedLabelNameTaskID in sample.metric {
          var k := Key(hostname, sample.metric[dedicatedLabelNameTaskID]);
          IntroduceTask(k, sample.metric);
          now', objects' := Tally(now', k, sample, Totals(totals.hosts + {hostname}, totals.points), objects);
        }
      }
    }

    /** Visits one active task of a host in the ranking loop. */
    method Rank(k: Key, active: CpuUsageDataPoint) returns (ranked: Option<Task>)
      requires Consistent() && k in contents.entries && active !in Repr
      modifies `contents, `Repr, Repr
      ensures Consistent() && old(Repr) <= Repr && fresh(Repr - old(Repr))
      ensures contents == State(old(contents).hosts,
                                old(contents).entries[k := Updated(old(contents).entries[k], active.Point())])
      ensures ranked == if old(contents).entries[k].point.Some? then Some(contents.entries[k].task) else None
    {
      hide Updated, SameShape, AllStored, OthersStored, Stores;
      ShapeHas(previousTotalCpuUsage, contents.hosts, contents.entries, k);
      var prevRecorded := previousTotalCpuUsage[k.host][k.task];
      ghost var e := Updated(contents.entries[k], active.Point());
      ghost var others: set<object> := set o | o in Repr && o !in PartsOf(prevRecorded);
      RecordsApart(previousTotalCpuUsage, contents.entries, k, Repr, others);
      ReplaceShape(previousTotalCpuUsage, contents.hosts, contents.entries, k, e);
      ghost var objects;
      ranked, objects := Visit(prevRecorded, active, k, contents.entries[k], Repr);
      AllStoredReplace(previousTotalCpuUsage, contents.entries, others, k, e, objects);
      contents := State(contents.hosts, contents.entries[k := e]);
      Repr := objects;
    }

    /** The first loop of Execute: parses a vector. */
    method Parse(vector: seq<Sample>) returns (now: Points, ghost objects: set<object>)
      requires Valid()
      modifies `previousTotalCpuUsage, `contents, `Repr
      ensures var b := Batch(DedicatedLabels(), vector);
              Consistent() && contents == Parsed(history, b) && Tallies(now, TotalsOf(b), objects)
      ensures old(Repr) <= Repr && fresh(Repr - old(Repr)) && objects !! Repr && fresh(objects)
    {
      hide SameShape, AllStored, AllRecorded, Parsed, TotalsOf, Register, Accumulate, StateOf, IsLog;
      ghost var l := DedicatedLabels();
      ParsedStart(history, l);
      now, objects := map[], {};
      EmptyTallies(objects);
      var i := 0;
      while i < |vector|
        invariant 0 <= i <= |vector|
        invariant Consistent() && contents == Parsed(history, Batch(l, vector[..i]))
        invariant Tallies(now, TotalsOf(Batch(l, vector[..i])), objects)
        invariant old(Repr) <= Repr && fresh(Repr - old(Repr)) && objects !! Repr && fresh(objects)
      {
        ghost var b, b' := Batch(l, vector[..i]), Batch(l, vector[..i + 1]);
        assert b'.samples == b.samples + [vector[i]];
        RegisterStep(history, b, vector[i], b');
        AccumulateStep(b, vector[i], b');
        now, objects := Observe(vector[i], now, TotalsOf(b), objects);
        i := i + 1;
      }
      assert vector[..i] == vector;
    }

    /** The inner ranking loop: visits the active tasks of a host in any order, then sorts those it ranked. */
    method RankHost(hostname: string, now: Points, ghost totals: Totals, ghost objects: set<object>)
      returns (ranked: seq<Task>, ghost visited: seq<Task>)
      requires Consistent() && Tallies(now, totals, objects) && objects !! Repr
      requires hostname in now && Keyed(contents.entries)
      requires forall k :: k in totals.points ==> k in contents.entries
      modifies `contents, `Repr, Repr
      ensures Consistent() && old(Repr) <= Repr && fresh(Repr - old(Repr)) && objects !! Repr
      ensures contents == State(old(contents).hosts,
                                UpdateOn(old(contents).entries, totals.points, OnHost(totals.points, hostname)))
      ensures ranked == Sorted(visited, AtLeastWeight)
      ensures multiset(ranked) == multiset(visited)
              == multiset(AppendedOn(old(contents).entries, totals.points, OnHost(totals.points, hostname)))
      ensures NaNFree(ranked) ==> NonIncreasing(ranked)
    {
      hide SameShape, AllStored, UpdateOn, AppendedOn, Updated, Keyed;
      ghost var entries, points := contents.entries, totals.points;
      ranked := [];
      var active := now[hostname];
      var remaining := active.Keys;
      ghost var done := {};
      UpdateNone(entries, points);
      while remaining != {}
        invariant remaining <= active.Keys
        invariant done == set k | k in points && k.host == hostname && k.task !in remaining
        invariant Consistent() && old(Repr) <= Repr && fresh(Repr - old(Repr)) && objects !! Repr
        invariant Tallies(now, totals, objects)
        invariant contents == State(old(contents).hosts, UpdateOn(entries, points, done))
        invariant multiset(ranked) == multiset(AppendedOn(entries, points, done))
        decreases remaining
      {
        var taskID :| taskID in remaining;
        var k := Key(hostname, taskID);
        ShapeHas(now, totals.hosts, points, k);
        UpdateOneMore(entries, points, done, k);
        AppendOneMore(entries, points, done, k);
        var r := Rank(k, active[taskID]);
        if r.Some? {
          ranked := ranked + [r.value];
        }
        remaining := remaining - {taskID};
        done := done + {k};
      }
      assert done == OnHost(points, hostname);
      visited := ranked;
      ranked := SortSlice(ranked, AtLeastWeight);
      SortedPermutes(visited, AtLeastWeight);
      BothComparatorsRank();
      SortedNonIncreasingIff(visited, AtLeastWeight);
      PermutationNaNFree(visited, ranked);
    }

    /** The outer ranking loop: hosts in any order. */
    method RankAll(now: Points, ghost totals: Totals, ghost objects: set<object>) returns (rankedTasks: RankedTasks)
      requires Consistent() && Tallies(now, totals, objects) && objects !! Repr && this !in objects
      requires Keyed(contents.entries) && forall k :: k in totals.points ==> k in contents.entries
      modifies `contents, `Repr, Repr
      ensures Consistent() && old(Repr) <= Repr && fresh(Repr - old(Repr))
      ensures contents == State(old(contents).hosts, UpdateOn(old(contents).entries, totals.points, totals.points.Keys))
      ensures Complete(rankedTasks, old(contents).entries, totals.points, totals.hosts)
    {
      hide SameShape, AllStored, UpdateOn, AppendedOn, Keyed, AllRecorded, NaNFree, NonIncreasing, Complete;
      ghost var entries, points := contents.entries, totals.points;
      rankedTasks := map[];
      var remaining := now.Keys;
      ghost var done := {};
      UpdateNone(entries, points);
      CompleteNone(entries, points);
      TalliesHosts(now, totals, objects);
      assert now.Keys - remaining == {};
      while remaining != {}
        invariant remaining <= now.Keys
        invariant done == set k | k in points && k.host !in remaining
        invariant Consistent() && old(Repr) <= Repr && fresh(Repr - old(Repr)) && objects !! Repr
        invariant Tallies(now, totals, objects)
        invariant contents == State(old(contents).hosts, UpdateOn(entries, points, done))
        invariant Complete(rankedTasks, entries, points, now.Keys - remaining)
        decreases remaining
      {
        var hostname :| hostname in remaining;
        UpdateMore(entries, points, done, OnHost(points, hostname));
        ghost var before := rankedTasks;
        var ranked, _ := RankHost(hostname, now, totals, objects);
        if ranked != [] {
          rankedTasks := rankedTasks[hostname := ranked];
        }
        CompleteHost(before, entries, points, now.Keys - remaining, hostname, ranked, rankedTasks);
        assert now.Keys - (remaining - {hostname}) == (now.Keys - remaining) + {hostname};
        remaining := remaining - {hostname};
        done := done + OnHost(points, hostname);
      }
      assert done == points.Keys && now.Keys - remaining == totals.hosts;
    }

    /** Processes one snapshot. */
    method Execute(data: Value)
      requires Valid()
      modifies `previousTotalCpuUsage, `contents, `history, `results, `Repr, Repr, receiver
      ensures Valid() && old(Repr) <= Repr && fresh(Repr - old(Repr))
      ensures var b := Batch(Labels(dedicatedLabelNameTaskID, dedicatedLabelNameTaskHostname),
                             if data.Vector? then data.samples else []);
              && history == old(history) + [b]
              && |results| == |old(results)| + 1 && results[..|old(results)|] == old(results)
              && IsRanking(old(history), b, results[|old(results)|])
      ensures var r := results[|old(results)|];
              receiver.received == old(receiver.received) + (if r == map[] then [] else [r])
    {
      hide SameShape, AllStored, AllRecorded, StateOf, IsRanking, IsLog, Parsed, TotalsOf, UpdateOn, Complete, Keyed;
      var vector: seq<Sample> := [];
      match data {
        case Vector(samples) => vector := samples;
        case _ => // invalid value type
      }
      ghost var b := Batch(DedicatedLabels(), vector);
      var now;
      ghost var objects;
      now, objects := Parse(vector);
      ParsedKeyed(history, b);
      ParsedCovers(history, b);
      var rankedTasks := RankAll(now, TotalsOf(b), objects);
      UpdateAllIsStateOf(history, b);
      CompleteIsRanking(history, b, rankedTasks);
      LogStep(history, results, b, rankedTasks);
      history, results := history + [b], results + [rankedTasks];
      if |rankedTasks| > 0 {
        receiver.Receive(rankedTasks);
      }
    }
  }

  /** Between calls every stored record is complete, names its own two map keys, and shares no object
      with the record of another task. */
  lemma NoSharing(s: TaskRankCpuUtilStrategy, k: Key, j: Key)
    requires s.Valid() && Has(s.previousTotalCpuUsage, k) && Has(s.previousTotalCpuUsage, j)
    ensures var i := At(s.previousTotalCpuUsage, k);
            i.dataPoint != null && i.task.id == k.task && i.task.hostname == k.host
    ensures k != j ==> PartsOf(At(s.previousTotalCpuUsage, k)) !! PartsOf(At(s.previousTotalCpuUsage, j))
  {
    hide StateOf, IsLog;
    StoredComplete(s.history, k);
    StoredComplete(s.history, j);
    assert Stores(At(s.previousTotalCpuUsage, k), k, s.contents.entries[k], s.Repr);
    assert Stores(At(s.previousTotalCpuUsage, j), j, s.contents.entries[j], s.Repr);
  }
}
