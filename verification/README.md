# Task ranker: a verified model

The task ranker fetches Prometheus samples of running tasks, ranks the tasks of every host and hands the
ranking to a receiver. This project models, in Dafny 4.11, the four parts whose correctness is not visible
from one body, and proves what holds of them over all inputs, all runs or all interleavings.

* **cpuutil** (`CpuUtilStrategy.dfy`). The strategy object with its nested maps of records that survive from
  call to call and are updated through pointers. Its invariant `Valid` says that the stored records are the ones
  prescribed by the whole history of snapshots since `Init` (`CpuUtilHistory.dfy`, where nothing is incremental)
  and that every run so far had a correct outcome. `CpuUtilSteps.dfy` proves that the incremental steps
  reach the prescribed state for every iteration order of the maps. `CpuUtilTheorems.dfy`,
  `CpuUtilConservation.dfy` and `CpuUtilLocality.dfy` derive the consequences: what is stored and delivered, order
  despite rounding, conservation of cpu-seconds over whole runs, independence of sample order and of other hosts.
  `CpuUtilMeaning.dfy` states what is stored and delivered in terms of the samples' own labels, values and
  timestamps, with the arithmetic of a weight written out.
* **cpushares** (`CpuSharesStrategy.dfy` for the strategy object, `CpuShares.dfy` for what it delivers). Grouping,
  averaging and the stable sort; each host's list is shown to be the only stable ranking of its samples, and the
  delivery is characterised by the metrics and values of the data alone.
* **Queries** (`LabelMatchers.dfy`, `Builder.dfy`, `QueryText.dfy`). Configuration of the labels, the builder that
  prints a query, and a reader that inverts it. Printing and reading are inverse to each other, the queries
  whose fields can be read back are characterised exactly, and the text equals a layout written independently.
* **Stopping** (`StopProtocol.dfy`). Any number of goroutines that close, query or await the signal channel, and runs
  that consult it, one step at a time, including the steps of `sync.Once`.

`Floats.dfy` holds float64 values as real numbers plus the three outcomes of a division by zero, so that both
strategies are defined on all data. `StableSort.dfy` and `Ranking.dfy` hold the in-place sort and what it does
under the two comparators (`>` for cpushares, the reflexive `>=` for cpuutil).

## Where code and documentation differ

* Both strategies are documented to rank in non-increasing order (strategies/taskRankCpuUtilStrategy.go:30-31,
  strategies/taskRankCpuSharesStrategy.go:29-30). The code delivers that except when NaN has company in a host's list. For cpuutil
  this happens exactly if the snapshot repeats both sum and timestamp of a ranked task and the host has another ranked
  task (`NonIncreasingIffNoStale`, with `TwoStaleTasks` as a concrete case); for cpushares, exactly if a labelled
  stream is empty and the host has another task (`DeliversEveryTask` with `NaNIffEmptyStream`,
  `EmptyStreamHasCompany` as a concrete case).
* strategies/taskRankCpuUtilStrategy.go:33-34 describes the weight as the utilisation of the past scrape interval. The code
  uses the two latest appearances of the task, however far apart; the weight covers the time since the previous snapshot
  exactly if that snapshot contained the task (`WeightInterval`, with `WeightSpansGap` as a concrete case).
* Accepting label matchers does not check their operators, but printing a matcher without a valid operator panics.
  `BuildQuery` returns `None` there, exactly when some operator is invalid; `AcceptedQueryMayLackText` shows that accepted
  lists can be affected.

## Model

| member | source | states |
|---|---|---|
| CpuUtilStrategy.TaskRankCpuUtilStrategy.Execute | strategies/taskRankCpuUtilStrategy.go:100-214 | From any valid state and any data: the history grows by a snapshot with the labels in force and the vector's samples (none for data that is no vector), the stored records become those of the longer history, the outcome is a correct ranking of the snapshot, and the receiver is called once with it, or not at all if it is empty; earlier deliveries stay |
| CpuUtilStrategy.TaskRankCpuUtilStrategy.Init | strategies/taskRankCpuUtilStrategy.go:84-88 | Forgets all stored records and keeps labels and past deliveries |
| CpuUtilStrategy.TaskRankCpuUtilStrategy.Parse | strategies/taskRankCpuUtilStrategy.go:123-173 | After the first loop known tasks are untouched, new ones stored without a data point, and the totals are the per-task sums of the vector |
| CpuUtilStrategy.TaskRankCpuUtilStrategy.Observe | strategies/taskRankCpuUtilStrategy.go:123-172 | One sample through both nested maps: host entries, a record for a new task, and the sum of its cpus |
| CpuUtilStrategy.Tally | strategies/taskRankCpuUtilStrategy.go:153-162 | The first sample of a task in a call fixes the timestamp, later ones only add to the sum, in place |
| CpuUtilStrategy.Visit | strategies/taskRankCpuUtilStrategy.go:181-196 | A record without data point is not ranked; one with a data point gets the rounded utilisation and is copied; either way the current point is saved in it |
| CpuUtilStrategy.TaskRankCpuUtilStrategy.RankHost | strategies/taskRankCpuUtilStrategy.go:179-203 | For every order of the inner map: all active tasks of the host updated, the ranked ones delivered exactly once each as the sort arranges the order of visits, heaviest first unless NaN is among them |
| CpuUtilStrategy.TaskRankCpuUtilStrategy.RankAll | strategies/taskRankCpuUtilStrategy.go:177-204 | For every order of the outer map: all active tasks updated once, a list for exactly the hosts with a ranked task |
| CpuUtilStrategy.TaskRankCpuUtilStrategy.SetLabelMatchers | strategies/taskRankCpuUtilStrategy.go:247-272 | Accepts exactly the acceptable lists, names the reason otherwise, leaves the stored list on error and the stored records always; after acceptance the task label is the last task-ID matcher's and the host label the last hostname matcher's |
| CpuUtilStrategy.NoSharing | strategies/taskRankCpuUtilStrategy.go:138-150 | Between calls every record has a data point, names its two map keys, and shares no object with another record |
| CpuUtilSteps.NoPointIffFirstSeen | strategies/taskRankCpuUtilStrategy.go:178-184 | During a call every active task has a stored record, and its data point is nil exactly if no earlier snapshot contained the task |
| CpuUtilSteps.PointStep | strategies/taskRankCpuUtilStrategy.go:153-162 | One more sample of a task adds its value to the point and keeps the timestamp, or starts a point with both; samples of other tasks leave it alone |
| CpuUtilSteps.RegisterStep | strategies/taskRankCpuUtilStrategy.go:125-151 | Registering a sample turns the state prescribed for the samples so far into the one for one more sample |
| CpuUtilSteps.AccumulateStep | strategies/taskRankCpuUtilStrategy.go:131-162 | Accumulating a sample turns the sums and first timestamps of the samples so far into those of one more sample |
| CpuUtilSteps.UpdateAllIsStateOf | strategies/taskRankCpuUtilStrategy.go:178-197 | Visiting all active tasks after parsing yields the state recomputed from the extended history |
| CpuUtilSteps.AppendedIsRankedOn | strategies/taskRankCpuUtilStrategy.go:185-193 | What the loop appends for a host is the set of tasks of the snapshot seen in an earlier one, weighted between their two latest appearances |
| CpuUtilTheorems.StoredEntry | strategies/taskRankCpuUtilStrategy.go:138-150 | A stored record holds sum and first timestamp of the latest snapshot with the task, the metric of its very first sample, and the rounded utilisation between its two latest snapshots |
| CpuUtilTheorems.StateGrows | strategies/taskRankCpuUtilStrategy.go:175-197 | No record is ever dropped before Init, and one that a snapshot does not mention keeps its value |
| CpuUtilTheorems.NoSamples | strategies/taskRankCpuUtilStrategy.go:109-115 | Data other than a vector, or an empty vector, changes nothing stored and allows no delivery |
| CpuUtilTheorems.DeliveredWeight | strategies/taskRankCpuUtilStrategy.go:178-198 | A ranking shows a task if and only if the snapshot and an earlier one contain it, with exactly the rounded utilisation between the two latest |
| CpuUtilTheorems.ExactReporting | strategies/taskRankCpuUtilStrategy.go:206-213 | Nothing is delivered if and only if no task of the snapshot was seen before; no list is empty; no list names a task twice |
| CpuUtilTheorems.WeightInterval | strategies/taskRankCpuUtilStrategy.go:185-196 | The weight covers the time since the latest snapshot with the task, which is the previous snapshot if and only if that one contains the task |
| CpuUtilTheorems.WeightSpansGap | strategies/taskRankCpuUtilStrategy.go:33-34 | A concrete history with a gap: the weight is the utilisation over both intervals |
| CpuUtilTheorems.IterationOrderIrrelevant | strategies/taskRankCpuUtilStrategy.go:178-204 | Any two outcomes of one snapshot have the same hosts and the same tasks per host; where none or all of a host's ranked tasks repeat their stored sum and timestamp, also the same sequence of weights, so that only ties are permuted |
| CpuUtilTheorems.VisitOrderIrrelevantIff | strategies/taskRankCpuUtilStrategy.go:179-203 | The delivered weights are the same for every order of visits if and only if none or all of the host's ranked tasks repeat their stored sum and timestamp |
| CpuUtilTheorems.VisitOrderMatters | strategies/taskRankCpuUtilStrategy.go:179-203 | A concrete snapshot with one such task of two: the two orders of visits deliver different weights |
| CpuUtilTheorems.NonIncreasingIffNoStale | strategies/taskRankCpuUtilStrategy.go:199-203 | A delivered list is non-increasing if and only if the host has one ranked task or no ranked task repeats its stored sum and timestamp |
| CpuUtilTheorems.RankingExists | strategies/taskRankCpuUtilStrategy.go:177-204 | Every snapshot has a correct outcome after every history, so no statement about outcomes is empty |
| CpuUtilTheorems.RepeatedPairUnordered | strategies/taskRankCpuUtilStrategy.go:185-203 | Processing a snapshot a second time leaves every host with two tasks unordered |
| CpuUtilTheorems.TwoStaleTasks | strategies/taskRankCpuUtilStrategy.go:30-31 | A concrete snapshot that has outcomes, all of which break the documented order |
| CpuUtilTheorems.RankingReflectsExactUtil | strategies/taskRankCpuUtilStrategy.go:185-203 | In any delivered list, a task that weighs at least as much as another exceeds its exact utilisation minus 0.01 points (compares at least as high if one is infinite), and is strictly above it if it weighs more; in an ordered list each task weighs at least as much as those behind it |
| CpuUtilTheorems.ConsumptionOrdersWeights | strategies/taskRankCpuUtilStrategy.go:230-239 | Between common timestamps the weights follow the cpu-seconds consumed, also if no time has passed |
| CpuUtilMeaning.PointMeaning | strategies/taskRankCpuUtilStrategy.go:153-162 | A task's point is the sum of the values of all samples with its two labels and the timestamp of the first of them |
| CpuUtilMeaning.PositionsExist | strategies/taskRankCpuUtilStrategy.go:123-162 | Every task that was named has an earliest and a latest snapshot, and in each snapshot with it a first sample, so the statements below are never empty |
| CpuUtilMeaning.WeightMeaning | strategies/taskRankCpuUtilStrategy.go:216-239 | A weight is 100000 times the growth over the elapsed milliseconds, with two decimals, nearest, ties away from zero; an infinity or NaN by the sign of the growth if no time has passed |
| CpuUtilMeaning.ThirdOfACpu | strategies/taskRankCpuUtilStrategy.go:216-239 | One cpu-second in three seconds weighs 33.33 and nothing else |
| CpuUtilMeaning.EntryMeaning | strategies/taskRankCpuUtilStrategy.go:138-196 | A record carries the metric of the task's first sample ever, its two names, the sum and first timestamp of its latest snapshot, and the weight between its two latest (0 if there is one only) |
| CpuUtilMeaning.HeapMeaning | strategies/taskRankCpuUtilStrategy.go:125-151 | Between calls a host is a key if and only if some sample so far carries it as host label, with or without a task label; a task if and only if some sample carries both; the objects' fields hold the prescribed values |
| CpuUtilMeaning.DeliveredTasks | strategies/taskRankCpuUtilStrategy.go:178-193 | A task is delivered for a host if and only if a sample of the snapshot and one of an earlier snapshot carry both labels |
| CpuUtilMeaning.DeliveredTask | strategies/taskRankCpuUtilStrategy.go:185-192 | A delivered task carries the metric of its first sample ever, its host, and the weight between the values and timestamps of the latest earlier snapshot with it and of this one |
| CpuUtilMeaning.DeliveredOrder | strategies/taskRankCpuUtilStrategy.go:199-203 | In a delivered list without NaN no number is followed by a greater one and infinities stand at their end |
| CpuUtilConservation.ExactSecondsTelescope | strategies/taskRankCpuUtilStrategy.go:230-239 | For all timestamps, exact utilisation times elapsed time sums up to the growth of the counter from first to latest appearance, less what grew over steps without elapsed time |
| CpuUtilConservation.Conservation | strategies/taskRankCpuUtilStrategy.go:185-239 | Over any run the delivered weights of a task reproduce that growth, less what grew in no time, within 0.00005 of the seconds between appearances, gaps included |
| CpuUtilConservation.ConservationIncreasing | strategies/taskRankCpuUtilStrategy.go:185-239 | With increasing timestamps they reproduce the whole growth within 0.00005 of the seconds from first to latest appearance |
| CpuUtilConservation.WeightWithinCpus | strategies/taskRankCpuUtilStrategy.go:216-239 | A task that consumes at most c cpu-seconds a second is weighted in [0, 100 c] |
| CpuUtilLocality.SampleOrderIrrelevantIff | strategies/taskRankCpuUtilStrategy.go:153-162 | The data point of a task is the same for every order of the samples if and only if the task's samples share one timestamp |
| CpuUtilLocality.SampleOrderState | strategies/taskRankCpuUtilStrategy.go:123-162 | Permuting a snapshot changes no stored sum, no timestamp or weight of a task whose samples share a timestamp, and the metric only of tasks it introduces |
| CpuUtilLocality.SampleOrderRanking | strategies/taskRankCpuUtilStrategy.go:123-204 | Permuting a snapshot in which each ranked task has one timestamp allows exactly the same deliveries |
| CpuUtilLocality.HostLocality | strategies/taskRankCpuUtilStrategy.go:123-204 | Whether a host is stored, its records, and which lists may be delivered for it are determined by the samples with its label alone |
| CpuUtilLocality.SplitState | strategies/taskRankCpuUtilStrategy.go:123-197 | Two host-disjoint snapshots leave the same state in two calls as concatenated in one |
| CpuUtilLocality.SplitRanking | strategies/taskRankCpuUtilStrategy.go:177-213 | The outcomes of the single call are exactly the unions of outcomes of the two calls |
| Floats.RoundNear | strategies/taskRankCpuUtilStrategy.go:220-225 | `round` stays within 0.005 of its argument |
| Floats.RoundCharacterised | strategies/taskRankCpuUtilStrategy.go:216-225 | A number is what `round` gives for an argument if and only if it has two decimals, lies within 0.005, and in a tie is the one away from zero |
| Floats.RoundMonotone | strategies/taskRankCpuUtilStrategy.go:220-225 | `round` never inverts an order |
| Floats.RoundOdd | strategies/taskRankCpuUtilStrategy.go:220-225 | `round` treats negative values symmetrically |
| Floats.RoundIdempotent | strategies/taskRankCpuUtilStrategy.go:220-225 | Rounded values are fixed points |
| Floats.RoundedOrderBoundsExact | strategies/taskRankCpuUtilStrategy.go:220-225 | Rounded values in order come from arguments that are not out of order by 0.01 or more |
| StableSort.SliceStable | strategies/taskRankCpuSharesStrategy.go:120-122 | The in-place sort leaves the array sorted by insertion under the given `less` |
| Ranking.SortedPermutes | strategies/taskRankCpuUtilStrategy.go:200-203 | Sorting loses and duplicates nothing, whatever the comparator does |
| Ranking.SortedNonIncreasingIff | strategies/taskRankCpuUtilStrategy.go:200-203 | With either comparator, `>=` included, the result is non-increasing if and only if NaN has no company |
| Ranking.SortedStable | strategies/taskRankCpuSharesStrategy.go:120-122 | With the strict comparator the tasks of equal weight keep their order |
| Ranking.StableRankingUnique | strategies/taskRankCpuSharesStrategy.go:118-123 | Two non-increasing lists that agree on every group of ties are equal |
| Ranking.StableRankingIff | strategies/taskRankCpuSharesStrategy.go:118-123 | A stable ranking of a list exists unless NaN has company in it, and is then the sorted list |
| Ranking.ArrangementIrrelevantIff | strategies/taskRankCpuUtilStrategy.go:200-203 | Under the reflexive comparator the sorted weights are the same for every arrangement of the input if and only if no element or every element is NaN |
| Ranking.RankingsShareWeights | strategies/taskRankCpuUtilStrategy.go:199-203 | Two non-increasing arrangements of the same tasks show the same weights in the same places |
| CpuSharesStrategy.TaskRankCpuSharesStrategy.Execute | strategies/taskRankCpuSharesStrategy.go:59-131 | The receiver gets one ranking of the data, also if it is empty. Read off the data: a host for every host label, for each host one task per sample or stream with both labels, weighted by the sample's value or the stream's average, each group of ties in input order, and heaviest first if all weights are numbers |
| CpuSharesStrategy.TaskRankCpuSharesStrategy.AddEntryForTask | strategies/taskRankCpuSharesStrategy.go:81-104 | Filing one share keeps the groups those of the shares filed so far: a host entry for the host label, a task at the end for both labels |
| CpuSharesStrategy.TaskRankCpuSharesStrategy.SetLabelMatchers | strategies/taskRankCpuSharesStrategy.go:148-176 | Accepts exactly the lists that cpuutil accepts, with the same labels in force afterwards; the empty list has its own reason |
| CpuSharesStrategy.AvgCpuShare | strategies/taskRankCpuSharesStrategy.go:133-140 | The loop computes the mean of the stream, NaN for an empty one |
| CpuShares.AverageMeaning | strategies/taskRankCpuSharesStrategy.go:133-140 | A weight is the average of a stream if and only if, times the number of values, it is their sum, or it is NaN and the stream is empty |
| CpuShares.RankingMeaning | strategies/taskRankCpuSharesStrategy.go:59-131 | What is delivered is the ranking of the data in the sense of `Execute` |
| CpuShares.RankedMembers | strategies/taskRankCpuSharesStrategy.go:81-116 | A host's list contains a task if and only if some sample with both labels has its metric and value, or some stream with both labels its metric and average |
| CpuShares.TasksAreLabelled | strategies/taskRankCpuSharesStrategy.go:81-104 | The tasks filed under a host are those of the metrics with both labels, in input order |
| CpuShares.AverageBetween | strategies/taskRankCpuSharesStrategy.go:133-140 | The average of a non-empty stream lies between its extremes |
| CpuShares.DeliversTheStableRanking | strategies/taskRankCpuSharesStrategy.go:118-130 | A list is a stable ranking of a host's tasks if and only if it is the delivered one and NaN has no company on the host |
| CpuShares.DeliversEveryTask | strategies/taskRankCpuSharesStrategy.go:80-123 | A host is a key if and only if some share names it; its list is a permutation of its tasks, and non-increasing if and only if NaN has no company |
| CpuShares.TasksComeFromShares | strategies/taskRankCpuSharesStrategy.go:89-97 | A host's tasks are exactly those of the shares that carry both labels |
| CpuShares.TasksInInputOrder | strategies/taskRankCpuSharesStrategy.go:106-116 | A host's tasks follow the input from left to right |
| CpuShares.NaNIffEmptyStream | strategies/taskRankCpuSharesStrategy.go:134-140 | A host has a NaN weight if and only if one of its labelled streams is empty |
| CpuShares.EmptyStreamHasCompany | strategies/taskRankCpuSharesStrategy.go:29-30 | A concrete matrix for which the documented order fails |
| CpuShares.MatrixAgreesWithVector | strategies/taskRankCpuSharesStrategy.go:106-116 | Constant streams give the ranking of the vector of their constants, ties included |
| LabelMatchers.ScanLabelMatchers | strategies/taskRankCpuUtilStrategy.go:250-268 | The loop gives the reason for refusal (invalid type before missing task ID before missing hostname, each exactly when it applies) and the names taken over up to the first invalid type |
| LabelMatchers.AdoptedMeaning | strategies/taskRankCpuUtilStrategy.go:249-272 | The last task-ID matcher before the first invalid type names the task label, the last hostname matcher there the host label; a type that does not occur leaves its name alone |
| LabelMatchers.AdoptedWhenAccepted | strategies/taskRankCpuUtilStrategy.go:249-272 | After acceptance the two names are those of the last matchers of the two types in the whole list |
| LabelMatchers.LastLabelIsLast | strategies/taskRankCpuUtilStrategy.go:255-261 | The label found for a type is that of the last matcher of this type |
| LabelMatchers.AcceptedIffFixesNames | strategies/taskRankCpuUtilStrategy.go:249-272 | A list is accepted if and only if it is read to its end and determines both names whatever they were before |
| Builder.NewBuilder | query/builder.go:35-43 | The options take effect in order |
| Builder.MatchersConcatenate | query/builder.go:68-74 | Matchers given in several options are concatenated in order |
| Builder.Builder.BuildQuery | query/builder.go:45-58 | There is a text if and only if all operators are among the four; it is the layout of the builder's own metric, matchers and range, and reads back as exactly these if and only if they avoid the delimiters |
| Builder.MatcherText | query/label.go:80-98 | One filter: name, operator and quoted value, or the panic of an operator without name |
| Builder.SetStrategy | datafetcher/prometheus/dataFetcher.go:76-83 | The fetcher's builder has exactly the strategy's metric, matchers, unit and duration in its fields |
| Builder.LookedUpLabelsArePrinted | datafetcher/prometheus/dataFetcher.go:77-83 | After acceptance the task label that Execute looks up is the name of the last task-ID matcher, the host label that of the last hostname matcher; both name filters of the query, and a plain query shows them to its reader |
| Builder.AcceptedQueryMayLackText | query/label.go:95-98 | Some acceptable list has no text |
| QueryText.ReadText | query/builder.go:45-58 | The reader recovers metric, filters in order and range from the text of every unambiguous query |
| QueryText.TextRead | query/builder.go:45-58 | Every text the reader accepts is the text of the unambiguous query it returns |
| QueryText.ReadableIffUnambiguous | query/builder.go:45-58 | A query is read back from its text if and only if its metric, labels and values avoid the delimiters |
| QueryText.TextInjective | query/builder.go:45-58 | Two queries that avoid the delimiters have equal texts if and only if they agree on metric, on name, operator and value of every matcher in order, and on the range unless neither has a valid unit |
| QueryText.ReadsBackIffPlain | query/builder.go:45-58 | A query's text reads back as its metric, its matchers' names, operators and values and its range if and only if the fields avoid the delimiters |
| QueryText.TextIsLayout | query/builder.go:45-58 | The text is metric, braced filters joined by commas, and the bracketed range for the six valid units |
| QueryText.ExpectedTexts | query/builder_test.go:93-103 | Two filters with and without a range print as the repository's unit tests expect, for all names and values |
| QueryText.QuotesAreAmbiguous | query/label.go:86 | With a quote in a value, one matcher prints like two |
| QueryText.ReadOperatorText | query/label.go:44-49 | The four operators are told apart although they are prefixes of each other |
| QueryText.DecimalReads | query/builder.go:55 | The decimal range is read back as the number printed |
| QueryText.ReadRangeText | query/timeRange.go:35-43 | A range is printed if and only if its unit is valid, and is read back with it |
| StopProtocol.ReachableInv | util/signalChannel.go:38-60 | In every reachable state: mutual exclusion in Once, no close by a goroutine that finds the channel closed, done implies closed |
| StopProtocol.CloseOnce | util/signalChannel.go:38-45 | The channel is closed at most once and without panic; a returned Close, an ended wait or a positive answer implies closed |
| StopProtocol.ClosedForever | util/signalChannel.go:47-60 | Closedness is never undone |
| StopProtocol.NoLostClose | ranker.go:185-188 | After some Close has returned every query answers true and every run that checks ends without fetching |
| StopProtocol.NoLostWaiter | util/signalChannel.go:57-60 | After some Close has returned every waiter can step, and its wait ends |
| StopProtocol.CloseProgresses | util/signalChannel.go:42-44 | A goroutine inside Close can step, or the holder of the mutex can |
| StopProtocol.QuiescenceAfterStop | ranker.go:185-204 | After the close only runs already past their check fetch or execute, so at most that many Execute calls start |
| StopProtocol.StepsLeadOn | ranker.go:185-197 | Every step advances its goroutine, so a call ends after at most six of its steps |
| StopProtocol.OpenRunsProceed | ranker.go:185-197 | A run that checks an open channel goes on to fetch, a fetch is recorded, and a fetched run may execute the strategy or end without |
| StopProtocol.RunsCanStep | ranker.go:185-197 | Runs and queries are never blocked |

## Left out

- Prometheus HTTP access, the client API and its timeouts: the fetched value is an arbitrary input.
- Cron parsing, timing and the schedule check in `New`: no property here needs a schedule.
- CpuUtilConservation.ConservationIncreasing: assumes that the timestamps of the task increase, as the schedule rule in the repository's own README.md:77-78 is meant to ensure; `Conservation` covers all timestamps.
- CpuUtilLocality.SampleOrderRanking: assumes that the samples of each ranked task in a snapshot share a timestamp, as those of an instant query do; `SampleOrderIrrelevantIff` shows what that is needed for.
- Float rounding, overflow and non-finite inputs: sums and averages are exact reals; only division by zero yields non-finite values. Timestamps are unbounded integers, so wrap-around of 64-bit milliseconds is not captured.
- StableSort.SliceStable: does not model the block-and-merge scheme of Go's sort; it is the insertion sort Go uses within a block. Nothing is claimed about the order of ties in cpuutil, whose comparator is reflexive and whose input order is that of a map, nor about the arrangement of lists with NaN beyond permutation and not being ordered.
- Growth of slices: a host's list is a sequence while it grows and an array while it is sorted.
- CpuUtilStrategy.TaskRankCpuUtilStrategy.Execute: does not model overlapping calls on one strategy, for which the code takes no lock. Loops and steps that the original writes in one body are methods of their own, and the receiver is given on construction.
- The class form of `SignalChannel` and `TaskRanker`: they are modelled as steps of a transition system, since their properties are about interleaving. `Stop` is its call of `Close`; stopping the cron runner and the logger is not part of this model, and new runs may start at any time.
- The registration of operator, type and unit names in package-level slices: their final contents are constants.
- Nil matchers, and agreement of dedicated names with the stored list after a refused configuration: the names may then have changed already, as `Adopted` says.
- Acceptance of the text by a Prometheus server, and escaping of values.
- The logger, log topics, `RankedTasks.String`, the strategy factory, option constructors of `strategies` and the ranker, getters, Docker files and the sample task.
