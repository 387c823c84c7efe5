/** The cpushares strategy as it runs: it files every sample or stream under its host, sorts each host's list
    in place and delivers the result. */
module CpuSharesStrategy {
  import opened Floats
  import opened Entities
  import opened StableSort
  import opened Ranking
  import opened LabelMatchers
  import TimeRange
  import opened CpuShares

  /** Accumulates the sum value by value. */
  method AvgCpuShare(values: seq<SamplePair>) returns (avg: Float)
    ensures avg == Average(values)
  {
    var sum := 0.0;
    var i := 0;
    while i < |values|
      invariant 0 <= i <= |values|
      invariant sum == SumOf(values[..i])
    {
      assert values[..i + 1][..i] == values[..i];
      sum := sum + values[i].value;
      i := i + 1;
    }
    assert values[..i] == values;
    avg := Divide(sum, |values| as real);
  }

  /** Sorts the hosts' lists one by one, in any order. */
  method SortGroups(grouped: RankedTasks) returns (tasks: RankedTasks)
    ensures tasks == SortedGroups(grouped)
  {
    tasks := grouped;
    var remaining := tasks.Keys;
    while remaining != {}
      invariant remaining <= tasks.Keys == grouped.Keys
      invariant forall h :: h in grouped ==>
                  tasks[h] == if h in remaining then grouped[h] else Sorted(grouped[h], MoreWeight)
      decreases remaining
    {
      var hostname :| hostname in remaining;
      var sorted := SortSlice(tasks[hostname], MoreWeight);
      tasks := tasks[hostname := sorted];
      remaining := remaining - {hostname};
    }
  }

  class TaskRankCpuSharesStrategy {
    const receiver: TaskRanksReceiver
    var labels: seq<LabelMatcher>
    var dedicatedLabelNameTaskID: string
    var dedicatedLabelNameTaskHostname: string
    var rangeTimeUnit: int
    var rangeQty: nat

    function DedicatedLabels(): Labels
      reads this
    {
      Labels(dedicatedLabelNameTaskID, dedicatedLabelNameTaskHostname)
    }

    constructor (receiver: TaskRanksReceiver)
      ensures this.receiver == receiver && labels == [] && rangeTimeUnit == TimeRange.NONE && rangeQty == 0
    {
      this.receiver := receiver;
      labels, dedicatedLabelNameTaskID, dedicatedLabelNameTaskHostname := [], "", "";
      rangeTimeUnit, rangeQty := TimeRange.NONE, 0;
    }

    method SetLabelMatchers(labelMatchers: seq<LabelMatcher>) returns (error: Option<ConfigError>)
      modifies `labels, `dedicatedLabelNameTaskID, `dedicatedLabelNameTaskHostname
      ensures error == if labelMatchers == [] then Some(NoLabelMatchers) else Refusal(labelMatchers)
      ensures labels == if error.None? then labelMatchers else old(labels)
      ensures DedicatedLabels() == Adopted(labelMatchers, old(DedicatedLabels()))
      ensures error.None? ==>
                forall i, j :: IsLast(labelMatchers, TASK_ID, i) && IsLast(labelMatchers, TASK_HOSTNAME, j) ==>
                  && dedicatedLabelNameTaskID == labelMatchers[i].name
                  && dedicatedLabelNameTaskHostname == labelMatchers[j].name
    {
      if |labelMatchers| == 0 {
        return Some(NoLabelMatchers);
      }
      var names, e := ScanLabelMatchers(labelMatchers, DedicatedLabels());
      dedicatedLabelNameTaskID, dedicatedLabelNameTaskHostname := names.taskID, names.hostname;
      if e.None? {
        labels := labelMatchers;
        AdoptedWhenAccepted(labelMatchers, old(DedicatedLabels()));
      }
      error := e;
    }

    method SetRange(timeUnit: int, qty: nat)
      modifies `rangeTimeUnit, `rangeQty
      ensures rangeTimeUnit == timeUnit && rangeQty == qty
    {
      rangeTimeUnit, rangeQty := timeUnit, qty;
    }

    /** The closure of Execute: files one share under its host. */
    method AddEntryForTask(tasks: RankedTasks, share: Share, ghost shares: seq<Share>) returns (tasks': RankedTasks)
      requires tasks == Grouped(DedicatedLabels(), shares)
      ensures tasks' == Grouped(DedicatedLabels(), shares + [share])
    {
      hide Grouped;
      GroupedPut(DedicatedLabels(), shares, share);
      tasks' := tasks;
      if dedicatedLabelNameTaskHostname in share.metric {
        var hostname := share.metric[dedicatedLabelNameTaskHostname];
        if hostname !in tasks' {
          tasks' := tasks'[hostname := []];
        }
        if dedicatedLabelNameTaskID in share.metric {
          var taskID := share.metric[dedicatedLabelNameTaskID];
          tasks' := tasks'[hostname := tasks'[hostname] + [Task(share.metric, share.weight, taskID, hostname)]];
        }
      }
    }

    /** The first half of Execute: files every stream or sample. */
    method Group(data: Value) returns (tasks: RankedTasks)
      ensures tasks == Grouped(DedicatedLabels(), SharesOf(data))
    {
      hide Grouped;
      ghost var l, shares := DedicatedLabels(), SharesOf(data);
      tasks := map[];
      GroupedNone(l);
      match data {
        case Matrix(matrix) =>
          for i := 0 to |matrix|
            invariant tasks == Grouped(l, shares[..i])
          {
            assert shares[..i + 1] == shares[..i] + [shares[i]];
            var avg := AvgCpuShare(matrix[i].values);
            tasks := AddEntryForTask(tasks, Share(matrix[i].metric, avg), shares[..i]);
          }
          assert shares[..|matrix|] == shares;
        case Vector(vector) =>
          for i := 0 to |vector|
            invariant tasks == Grouped(l, shares[..i])
          {
            assert shares[..i + 1] == shares[..i] + [shares[i]];
            tasks := AddEntryForTask(tasks, Share(vector[i].metric, Finite(vector[i].value)), shares[..i]);
          }
          assert shares[..|vector|] == shares;
        case _ =>
      }
    }

    /** Ranks the data and delivers the result, even if it is empty. */
    method Execute(data: Value)
      modifies receiver
      ensures receiver.received == old(receiver.received) + [RankingOf(DedicatedLabels(), SharesOf(data))]
      ensures RanksData(Labels(dedicatedLabelNameTaskID, dedicatedLabelNameTaskHostname), data,
                        receiver.received[|old(receiver.received)|])
    {
      hide Grouped, SortedGroups, SharesOf, RanksData;
      ghost var ranking := RankingOf(DedicatedLabels(), SharesOf(data));
      var grouped := Group(data);
      var tasks := SortGroups(grouped);
      assert tasks == ranking && receiver as object != this;
      RankingMeaning(DedicatedLabels(), data);
      receiver.Receive(tasks);
    }
  }
}
