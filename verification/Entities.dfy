/** The data that flows through the ranker: Prometheus values, tasks and delivered rankings. */
module Entities {
  import opened Floats

  datatype Option<+T> = None | Some(value: T)

  type Metric = map<string, string>

  datatype Sample = Sample(metric: Metric, value: real, timestamp: int)

  datatype SamplePair = SamplePair(timestamp: int, value: real)

  datatype SampleStream = SampleStream(metric: Metric, values: seq<SamplePair>)

  /** The Prometheus value types; scalars and strings carry nothing a strategy reads. */
  datatype Value = Vector(samples: seq<Sample>) | Matrix(streams: seq<SampleStream>) | ScalarValue | StringValue

  datatype Task = Task(metric: Metric, weight: Float, id: string, hostname: string)

  type RankedTasks = map<string, seq<Task>>

  /** Names of the labels that hold the task identifier and the host name. */
  datatype Labels = Labels(taskID: string, hostname: string)

  function HostOf(labels: Labels, metric: Metric): Option<string> {
    if labels.hostname in metric then Some(metric[labels.hostname]) else None
  }

  function TaskIDOf(labels: Labels, metric: Metric): Option<string> {
    if labels.taskID in metric then Some(metric[labels.taskID]) else None
  }

  /** The callback object to which rankings are delivered; it records what it was given. */
  class TaskRanksReceiver {
    var received: seq<RankedTasks>

    constructor ()
      ensures received == []
    {
      received := [];
    }

    method Receive(rankedTasks: RankedTasks)
      modifies this
      ensures received == old(received) + [rankedTasks]
    {
      received := received + [rankedTasks];
    }
  }
}
