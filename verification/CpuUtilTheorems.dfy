/** What follows from the history for the state a strategy keeps and the rankings it delivers. */
module CpuUtilTheorems {
  import opened Floats
  import opened Entities
  import opened NestedMaps
  import opened StableSort
  import opened Ranking
  import opened CpuUtilHistory
  import opened CpuUtilSteps

  // ----- the stored entry, by position in the history

  ghost predicate IsLatest(history: seq<Batch>, k: Key, j: int) {
    && 0 <= j < |history| && k in KeysOf(history[j])
    && forall l :: j < l < |history| ==> k !in KeysOf(history[l])
  }

  ghost predicate IsEarliest(history: seq<Batch>, k: Key, j: int) {
    && 0 <= j < |history| && k in KeysOf(history[j])
    && forall l :: 0 <= l < j ==> k !in KeysOf(history[l])
  }

  lemma {:induction false} LatestAppearance(history: seq<Batch>, k: Key, j: int)
    requires IsLatest(history, k, j)
    ensures Appearances(history, k) == Appearances(history[..j], k) + [PointOf(history[j], k)]
  {
    var n := |history| - 1;
    if j < n {
      assert IsLatest(history[..n], k, j);
      LatestAppearance(history[..n], k, j);
      assert history[..n][..j] == history[..j];
    }
  }

  lemma {:induction false} NoAppearance(history: seq<Batch>, k: Key)
    requires forall l :: 0 <= l < |history| ==> k !in KeysOf(history[l])
    ensures Appearances(history, k) == []
  {
    if history != [] {
      NoAppearance(history[..|history| - 1], k);
    }
  }

  lemma {:induction false} EarliestMetric(history: seq<Batch>, k: Key, f: int)
    requires IsEarliest(history, k, f)
    ensures Appearances(history, k) != []
    ensures FirstMetric(history, k) == FirstMetricIn(history[f], k)
  {
    var n := |history| - 1;
    if f < n {
      assert IsEarliest(history[..n], k, f);
      EarliestMetric(history[..n], k, f);
    } else {
      NoAppearance(history[..n], k);
    }
  }

  lemma NothingBeforeEarliest(history: seq<Batch>, k: Key, f: int)
    requires IsEarliest(history, k, f)
    ensures Appearances(history[..f], k) == []
  {
    NoAppearance(history[..f], k);
  }

  /** The entry holds the point of the latest snapshot j with the task, the metric of the earliest one f,
      and the rounded utilisation between j and the latest snapshot i before it. */
  lemma StoredEntry(history: seq<Batch>, k: Key, f: int, i: int, j: int)
    requires IsLatest(history, k, j) && IsEarliest(history, k, f)
    requires if f == j then i == j else IsLatest(history[..j], k, i)
    ensures k in StateOf(history).entries
    ensures StateOf(history).entries[k]
            == Entry(Task(FirstMetricIn(history[f], k),
                          if f == j then Finite(0.0)
                          else Round(CpuUtil(PointOf(history[i], k), PointOf(history[j], k))),
                          k.task, k.host),
                     Some(PointOf(history[j], k)))
  {
    hide Appearances, FirstMetric, FirstMetricIn, PointOf, KeysOf, IsEarliest;
    SeenIffAppeared(history, k);
    EarliestMetric(history, k, f);
    LatestAppearance(history, k, j);
    if f == j {
      NothingBeforeEarliest(history, k, f);
    } else {
      LatestAppearance(history[..j], k, i);
    }
  }

  /** Between calls no entry lacks a data point, and each names its own keys. */
  lemma StoredComplete(history: seq<Batch>, k: Key)
    requires k in StateOf(history).entries
    ensures var e := StateOf(history).entries[k];
            e.point.Some? && e.task.id == k.task && e.task.hostname == k.host
    ensures k.host in StateOf(history).hosts
  {
    SeenIffAppeared(history, k);
    var b :| b in history && k in KeysOf(b);
    KeyHasHost(b, k);
  }

  /** Nothing stored is dropped, and what a snapshot does not mention keeps its value. */
  lemma StateGrows(history: seq<Batch>, b: Batch, k: Key)
    requires k in StateOf(history).entries
    ensures k in StateOf(history + [b]).entries
    ensures k !in KeysOf(b) ==> StateOf(history + [b]).entries[k] == StateOf(history).entries[k]
    ensures StateOf(history).hosts <= StateOf(history + [b]).hosts
  {
    SeenStep(history, b);
    if k !in KeysOf(b) {
      UntouchedIsEntryOf(history, b, k);
    }
  }

  /** Anything but a vector with samples leaves the state alone and reports nothing. */
  lemma NoSamples(history: seq<Batch>, labels: Labels, data: Value, r: RankedTasks)
    requires data.Vector? ==> data.samples == []
    ensures var b := Batch(labels, if data.Vector? then data.samples else []);
            StateOf(history + [b]) == StateOf(history) && (IsRanking(history, b, r) <==> r == map[])
  {
    hide Appearances, EntryOf, TaskOf;
    var b := Batch(labels, []);
    SeenStep(history, b);
    forall k | k in KeysSeen(history) ensures EntryOf(history + [b], k) == EntryOf(history, k) {
      UntouchedIsEntryOf(history, b, k);
    }
  }

  // ----- what is delivered

  lemma RankedPoints(history: seq<Batch>, b: Batch, k: Key)
    requires k in RankedKeys(history, b)
    ensures Appearances(history, k) != []
    ensures WeightOf(Appearances(history + [b], k))
            == Round(CpuUtil(Appearances(history, k)[|Appearances(history, k)| - 1], PointOf(b, k)))
  {
    SeenIffAppeared(history, k);
    AppearancesStep(history, b, k);
  }

  lemma ListMembers<T>(s: seq<T>, x: set<T>)
    requires multiset(s) == multiset(x)
    ensures |s| == |x| && forall y :: y in s <==> y in x
  {
    assert |multiset(s)| == |s| && |multiset(x)| == |x|;
    forall y ensures y in s <==> y in x {
      assert y in s <==> y in multiset(s);
      assert y in x <==> y in multiset(x);
    }
  }

  lemma RankingMembers(history: seq<Batch>, b: Batch, r: RankedTasks, h: string)
    requires IsRanking(history, b, r) && h in r
    ensures |r[h]| == |RankedOn(history, b, h)|
    ensures forall x :: x in r[h] <==> x in RankedOn(history, b, h)
  {
    ListMembers(r[h], RankedOn(history, b, h));
  }

  function FindWeight(s: seq<Task>, id: string): Option<Float> {
    if s == [] then None
    else if s[0].id == id then Some(s[0].weight)
    else FindWeight(s[1..], id)
  }

  /** The weight a ranking shows for a task. */
  function WeightIn(r: RankedTasks, k: Key): Option<Float> {
    if k.host in r then FindWeight(r[k.host], k.task) else None
  }

  lemma {:induction false} FindWeightOnly(s: seq<Task>, id: string, w: Float)
    requires forall x :: x in s && x.id == id ==> x.weight == w
    ensures FindWeight(s, id) == if exists x :: x in s && x.id == id then Some(w) else None
  {
    if s != [] {
      assert s[0] in s;
      assert forall x :: x in s <==> x == s[0] || x in s[1..];
      FindWeightOnly(s[1..], id, w);
    }
  }

  /** A run reports exactly the tasks of its snapshot that an earlier snapshot contained, each once,
      with the rounded utilisation between the two latest appearances. */
  lemma DeliveredWeight(history: seq<Batch>, b: Batch, r: RankedTasks, k: Key)
    requires IsRanking(history, b, r)
    ensures WeightIn(r, k) ==
            if k in RankedKeys(history, b) then Some(WeightOf(Appearances(history + [b], k))) else None
  {
    if k.host in r {
      RankingMembers(history, b, r, k.host);
      var w := WeightOf(Appearances(history + [b], k));
      if k in RankedKeys(history, b) {
        assert TaskOf(history + [b], k) in r[k.host];
      }
      forall x | x in r[k.host] && x.id == k.task ensures x == TaskOf(history + [b], k) && k in RankedKeys(history, b) {
        var j :| j in RankedKeys(history, b) && j.host == k.host && TaskOf(history + [b], j) == x;
        assert j == k;
      }
      FindWeightOnly(r[k.host], k.task, w);
    }
  }

  /** Nothing is delivered exactly when no task was seen before; no host gets an empty list or names a task twice. */
  lemma ExactReporting(history: seq<Batch>, b: Batch, r: RankedTasks)
    requires IsRanking(history, b, r)
    ensures r == map[] <==> RankedKeys(history, b) == {}
    ensures forall h :: h in r ==> r[h] != []
    ensures forall h, i, j :: h in r && 0 <= i < j < |r[h]| ==> r[h][i].id != r[h][j].id
  {
    if k :| k in RankedKeys(history, b) {
      assert k.host in RankedHosts(history, b);
      assert r != map[];
    } else {
      assert RankedHosts(history, b) == {};
    }
    forall h | h in r ensures r[h] != [] {
      RankedHostIff(history, b, h);
      RankingMembers(history, b, r, h);
    }
    forall h, i, j | h in r && 0 <= i < j < |r[h]| ensures r[h][i].id != r[h][j].id {
      OncePerTask(history, b, r, h, i, j);
    }
  }

  lemma SetListsDiffer<T>(s: seq<T>, x: set<T>, i: int, j: int)
    requires multiset(s) == multiset(x) && 0 <= i < j < |s|
    ensures s[i] != s[j]
  {
    assert s == s[..i] + [s[i]] + s[i + 1..j] + [s[j]] + s[j + 1..];
    assert s[i] == s[j] ==> multiset(s)[s[i]] >= 2;
    assert multiset(x)[s[i]] <= 1;
  }

  lemma MemberHasKey(history: seq<Batch>, b: Batch, r: RankedTasks, h: string, i: int)
    requires IsRanking(history, b, r) && h in r && 0 <= i < |r[h]|
    ensures var k := Key(h, r[h][i].id);
            k in RankedKeys(history, b) && r[h][i] == TaskOf(history + [b], k)
  {
    RankingMembers(history, b, r, h);
    assert r[h][i] in r[h];
    var k :| k in RankedKeys(history, b) && k.host == h && TaskOf(history + [b], k) == r[h][i];
    assert k == Key(h, r[h][i].id);
  }

  lemma OncePerTask(history: seq<Batch>, b: Batch, r: RankedTasks, h: string, i: int, j: int)
    requires IsRanking(history, b, r) && h in r && 0 <= i < j < |r[h]|
    ensures r[h][i].id != r[h][j].id
  {
    SetListsDiffer(r[h], RankedOn(history, b, h), i, j);
    MemberHasKey(history, b, r, h, i);
    MemberHasKey(history, b, r, h, j);
  }

  // ----- the interval a weight is about

  /** Seconds between two data points. */
  function Elapsed(p: DataPoint, q: DataPoint): real {
    (q.timestamp - p.timestamp) as real / 1000.0
  }

  /** Seconds between the two latest data points. */
  function LastElapsed(points: seq<DataPoint>): real {
    var n := |points|;
    if n < 2 then 0.0 else Elapsed(points[n - 2], points[n - 1])
  }

  /** The weight of a ranked task covers the time since the latest snapshot i that contained it; that is the
      time since the previous snapshot exactly if the previous snapshot contained it. */
  lemma WeightInterval(history: seq<Batch>, b: Batch, k: Key, i: int)
    requires k in RankedKeys(history, b) && IsLatest(history, k, i)
    ensures TaskOf(history + [b], k).weight == Round(CpuUtil(PointOf(history[i], k), PointOf(b, k)))
    ensures LastElapsed(Appearances(history + [b], k)) == Elapsed(PointOf(history[i], k), PointOf(b, k))
    ensures i == |history| - 1 <==> k in KeysOf(history[|history| - 1])
  {
    AppearancesStep(history, b, k);
    LatestAppearance(history, k, i);
  }

  function SampleAt(value: real, timestamp: int): Batch {
    Batch(Labels("id", "host"), [Sample(map["id" := "a", "host" := "h"], value, timestamp)])
  }

  function GapAt(timestamp: int): Batch {
    Batch(Labels("id", "host"), [Sample(map["id" := "b", "host" := "h"], 0.0, timestamp)])
  }

  /** A concrete case: a task misses the snapshot at 1 s, uses 1 cpu-second until 2 s, and is weighted 50,
      its utilisation over both seconds. */
  lemma WeightSpansGap()
    ensures var history, b, k := [SampleAt(0.0, 0), GapAt(1000)], SampleAt(1.0, 2000), Key("h", "a");
            && k in RankedKeys(history, b) && k !in KeysOf(history[1])
            && TaskOf(history + [b], k).weight == Finite(50.0)
            && LastElapsed(Appearances(history + [b], k)) == 2.0
  {
    hide PointOf, KeysOf, TaskOf, Appearances, LastElapsed, RoundReal;
    var history, b, k := [SampleAt(0.0, 0), GapAt(1000)], SampleAt(1.0, 2000), Key("h", "a");
    OneSampleKeys(SampleAt(0.0, 0), k);
    OneSampleKeys(GapAt(1000), Key("h", "b"));
    OneSampleKeys(b, k);
    assert history[0] in history && IsLatest(history, k, 0);
    WeightInterval(history, b, k, 0);
    RoundFixesHundredths(5000);
  }

  lemma OneSampleKeys(b: Batch, k: Key)
    requires |b.samples| == 1 && KeyOf(b.labels, b.samples[0].metric) == Some(k)
    ensures KeysOf(b) == {k} && PointOf(b, k) == DataPoint(b.samples[0].value, b.samples[0].timestamp)
  {
    var none := Batch(b.labels, []);
    assert b == Batch(b.labels, none.samples + [b.samples[0]]);
    BatchStep(none, b.samples[0], b);
    PointStep(none, b.samples[0], b, k);
  }

  // ----- the order of map iteration

  /** A task whose snapshot repeats both the stored sum and the stored timestamp. */
  predicate Stale(history: seq<Batch>, b: Batch, k: Key) {
    var points := Appearances(history, k);
    points != [] && points[|points| - 1] == PointOf(b, k)
  }

  ghost predicate NoneStale(history: seq<Batch>, b: Batch, h: string) {
    forall k :: k in RankedKeys(history, b) && k.host == h ==> !Stale(history, b, k)
  }

  ghost predicate AllStale(history: seq<Batch>, b: Batch, h: string) {
    forall k :: k in RankedKeys(history, b) && k.host == h ==> Stale(history, b, k)
  }

  lemma NaNIffStale(history: seq<Batch>, b: Batch, k: Key)
    requires k in RankedKeys(history, b)
    ensures TaskOf(history + [b], k).weight.NaN? <==> Stale(history, b, k)
  {
  }

  /** Stale tasks are the ones that weigh NaN, in any list of the tasks ranked on a host. */
  lemma NaNByStaleness(history: seq<Batch>, b: Batch, h: string, s: seq<Task>)
    requires multiset(s) == multiset(RankedOn(history, b, h))
    ensures NaNFree(s) <==> NoneStale(history, b, h)
    ensures AllNaN(s) <==> AllStale(history, b, h)
  {
    hide Stale, TaskOf, RankedKeys;
    ListMembers(s, RankedOn(history, b, h));
    forall k | k in RankedKeys(history, b) && k.host == h
      ensures TaskOf(history + [b], k) in s
      ensures TaskOf(history + [b], k).weight.NaN? <==> Stale(history, b, k)
    {
      NaNIffStale(history, b, k);
    }
    forall i | 0 <= i < |s|
      ensures exists k :: k in RankedKeys(history, b) && k.host == h && TaskOf(history + [b], k) == s[i]
    {
      assert s[i] in s;
    }
  }

  /** However the maps were iterated, two outcomes have the same hosts and the same tasks for each; and unless
      only some of a host's tasks are stale, the same weights in the same places. */
  lemma IterationOrderIrrelevant(history: seq<Batch>, b: Batch, r: RankedTasks, r': RankedTasks)
    requires IsRanking(history, b, r) && IsRanking(history, b, r')
    ensures r.Keys == r'.Keys
    ensures forall h :: h in r ==> multiset(r[h]) == multiset(r'[h])
    ensures forall h :: h in r && (NoneStale(history, b, h) || AllStale(history, b, h)) ==>
              Weights(r[h]) == Weights(r'[h])
  {
    hide NoneStale, AllStale, NaNFree, NonIncreasing, RankedOn;
    forall h | h in r && (NoneStale(history, b, h) || AllStale(history, b, h)) ensures Weights(r[h]) == Weights(r'[h]) {
      assert h in r';
      SameWeightsOn(history, b, h, r[h], r'[h]);
    }
  }

  lemma SameWeightsOn(history: seq<Batch>, b: Batch, h: string, s: seq<Task>, t: seq<Task>)
    requires multiset(s) == multiset(RankedOn(history, b, h)) && (NaNFree(s) ==> NonIncreasing(s))
    requires multiset(t) == multiset(RankedOn(history, b, h)) && (NaNFree(t) ==> NonIncreasing(t))
    requires NoneStale(history, b, h) || AllStale(history, b, h)
    ensures Weights(s) == Weights(t)
  {
    hide NoneStale, AllStale, RankedOn;
    NaNByStaleness(history, b, h, s);
    NaNByStaleness(history, b, h, t);
    PermutationMembers(s, t);
    if NaNFree(s) {
      RankingsShareWeights(s, t);
    }
  }

  /** Exactly when the order in which a host's tasks were visited leaves no trace in the delivered weights. */
  lemma VisitOrderIrrelevantIff(history: seq<Batch>, b: Batch, h: string, visited: seq<Task>)
    requires multiset(visited) == multiset(RankedOn(history, b, h))
    ensures ArrangementIrrelevant(visited) <==> NoneStale(history, b, h) || AllStale(history, b, h)
  {
    NaNByStaleness(history, b, h, visited);
    ArrangementIrrelevantIff(visited);
  }

  /** A concrete case: of two tasks, a repeats its data point and b does not. */
  function BeforeMixed(): Batch {
    Batch(Labels("id", "host"),
          [Sample(map["id" := "a", "host" := "h"], 1.0, 0), Sample(map["id" := "b", "host" := "h"], 1.0, 0)])
  }

  function Mixed(): Batch {
    Batch(Labels("id", "host"),
          [Sample(map["id" := "a", "host" := "h"], 1.0, 0), Sample(map["id" := "b", "host" := "h"], 2.0, 1000)])
  }

  /** Visiting a first and visiting b first deliver different sequences of weights. */
  lemma VisitOrderMatters()
    ensures var history, b := [BeforeMixed()], Mixed();
            var x, y := TaskOf(history + [b], Key("h", "a")), TaskOf(history + [b], Key("h", "b"));
            && RankedOn(history, b, "h") == {x, y}
            && multiset([x, y]) == multiset([y, x]) == multiset(RankedOn(history, b, "h"))
            && Weights(Sorted([x, y], AtLeastWeight)) != Weights(Sorted([y, x], AtLeastWeight))
  {
    hide Weights, Sorted, TaskOf, Stale, PointOf;
    var history, b := [BeforeMixed()], Mixed();
    var k, l := Key("h", "a"), Key("h", "b");
    TwoSampleKeys(BeforeMixed(), k, l);
    TwoSampleKeys(b, k, l);
    assert [] + [BeforeMixed()] == history;
    SeenStep([], BeforeMixed());
    assert RankedKeys(history, b) == {k, l};
    var x, y := TaskOf(history + [b], k), TaskOf(history + [b], l);
    assert RankedOn(history, b, "h") == {x, y};
    MixedStaleness();
    NaNIffStale(history, b, k);
    NaNIffStale(history, b, l);
    NaNFirst(x, y, []);
    assert [x, y] + [] == [x, y] && [y, x] + [] == [y, x];
  }

  lemma TwoSampleKeys(b: Batch, k: Key, l: Key)
    requires |b.samples| == 2 && k != l
    requires KeyOf(b.labels, b.samples[0].metric) == Some(k) && KeyOf(b.labels, b.samples[1].metric) == Some(l)
    ensures KeysOf(b) == {k, l}
    ensures PointOf(b, k) == DataPoint(b.samples[0].value, b.samples[0].timestamp)
    ensures PointOf(b, l) == DataPoint(b.samples[1].value, b.samples[1].timestamp)
  {
    var one := Batch(b.labels, [b.samples[0]]);
    OneSampleKeys(one, k);
    assert b == Batch(b.labels, one.samples + [b.samples[1]]);
    BatchStep(one, b.samples[1], b);
    PointStep(one, b.samples[1], b, k);
    PointStep(one, b.samples[1], b, l);
  }

  lemma MixedStaleness()
    ensures Stale([BeforeMixed()], Mixed(), Key("h", "a")) && !Stale([BeforeMixed()], Mixed(), Key("h", "b"))
  {
    hide PointOf;
    var history, k, l := [BeforeMixed()], Key("h", "a"), Key("h", "b");
    TwoSampleKeys(BeforeMixed(), k, l);
    TwoSampleKeys(Mixed(), k, l);
    assert [] + [BeforeMixed()] == history;
    AppearancesStep([], BeforeMixed(), k);
    AppearancesStep([], BeforeMixed(), l);
  }

  /** A delivered list fails to be non-increasing exactly when a stale task has company on its host. */
  lemma NonIncreasingIffNoStale(history: seq<Batch>, b: Batch, r: RankedTasks, h: string)
    requires IsRanking(history, b, r) && h in r
    ensures NonIncreasing(r[h]) <==> |RankedOn(history, b, h)| == 1 || NoneStale(history, b, h)
  {
    ExactReporting(history, b, r);
    RankingMembers(history, b, r, h);
    NaNByStaleness(history, b, h, r[h]);
    if |r[h]| > 1 && NonIncreasing(r[h]) {
      NonIncreasingExcludesNaN(r[h]);
    }
  }

  /** Processing the same snapshot a second time makes every task stale: only one-element lists stay ordered. */
  lemma RepeatedSnapshot(history: seq<Batch>, b: Batch, r: RankedTasks, h: string)
    requires IsRanking(history + [b], b, r) && h in r
    ensures NonIncreasing(r[h]) <==> |r[h]| == 1
  {
    hide IsRanking, NonIncreasing, RankedOn, TaskOf;
    NonIncreasingIffNoStale(history + [b], b, r, h);
    RankingMembers(history + [b], b, r, h);
    ExactReporting(history + [b], b, r);
    MemberHasKey(history + [b], b, r, h, 0);
    var k := Key(h, r[h][0].id);
    AppearancesStep(history, b, k);
    assert Stale(history + [b], b, k);
  }

  /** So two tasks of one host in a snapshot that is processed twice are not delivered in order. */
  lemma RepeatedPairUnordered(history: seq<Batch>, b: Batch, r: RankedTasks, k: Key, l: Key)
    requires IsRanking(history + [b], b, r) && k in KeysOf(b) && l in KeysOf(b) && k.host == l.host && k != l
    ensures k.host in r && !NonIncreasing(r[k.host])
  {
    hide IsRanking, RankedOn, TaskOf, NonIncreasing, KeysOf;
    SeenStep(history, b);
    assert k in RankedKeys(history + [b], b) && l in RankedKeys(history + [b], b);
    TwoRanked(history + [b], b, r, k, l);
    RepeatedSnapshot(history, b, r, k.host);
  }

  lemma TwoRanked(history: seq<Batch>, b: Batch, r: RankedTasks, k: Key, l: Key)
    requires IsRanking(history, b, r) && k.host == l.host && k != l
    requires k in RankedKeys(history, b) && l in RankedKeys(history, b)
    ensures k.host in r && |r[k.host]| > 1
  {
    hide RankedKeys, NonIncreasing, FirstMetric, WeightOf;
    assert k.host in RankedHosts(history, b);
    RankingMembers(history, b, r, k.host);
    var x, y := TaskOf(history + [b], k), TaskOf(history + [b], l);
    assert x in r[k.host] && y in r[k.host];
    assert x.id != y.id;
  }

  function TwoTasks(): Batch {
    Batch(Labels("id", "host"),
          [Sample(map["id" := "a", "host" := "h"], 1.0, 0), Sample(map["id" := "b", "host" := "h"], 2.0, 0)])
  }

  lemma {:induction false} SomeOrder(x: set<Task>) returns (s: seq<Task>)
    ensures multiset(s) == multiset(x)
    decreases x
  {
    s := [];
    if y :| y in x {
      var t := SomeOrder(x - {y});
      s := t + [y];
      assert multiset(x) == multiset(x - {y}) + multiset{y};
    }
  }

  /** Every snapshot has a correct outcome after every history. */
  lemma RankingExists(history: seq<Batch>, b: Batch)
    ensures exists r :: IsRanking(history, b, r)
  {
    hide RankedOn, RankedHosts;
    forall h ensures exists s :: IsOrder(s, RankedOn(history, b, h)) {
      var t := SomeOrder(RankedOn(history, b, h));
      var s := Sorted(t, AtLeastWeight);
      SortedPermutes(t, AtLeastWeight);
      PermutationNaNFree(t, s);
      BothComparatorsRank();
      SortedNonIncreasingIff(t, AtLeastWeight);
      assert IsOrder(s, RankedOn(history, b, h));
    }
    var r := map h | h in RankedHosts(history, b) :: ChosenOrder(RankedOn(history, b, h));
    assert IsRanking(history, b, r);
  }

  ghost predicate IsOrder(s: seq<Task>, x: set<Task>) {
    multiset(s) == multiset(x) && (NaNFree(s) ==> NonIncreasing(s))
  }

  ghost function ChosenOrder(x: set<Task>): (s: seq<Task>)
    ensures (exists t :: IsOrder(t, x)) ==> IsOrder(s, x)
  {
    if exists t :: IsOrder(t, x) then var t :| IsOrder(t, x); t else []
  }

  /** A concrete case: the documented order fails when this snapshot is processed twice. */
  lemma TwoStaleTasks()
    ensures exists r :: IsRanking([TwoTasks()], TwoTasks(), r)
    ensures forall r :: IsRanking([TwoTasks()], TwoTasks(), r) ==> "h" in r && !NonIncreasing(r["h"])
  {
    hide IsRanking, NonIncreasing;
    RankingExists([TwoTasks()], TwoTasks());
    forall r | IsRanking([TwoTasks()], TwoTasks(), r) ensures "h" in r && !NonIncreasing(r["h"]) {
      TwoTasksUnordered(r);
    }
  }

  lemma TwoTasksUnordered(r: RankedTasks)
    requires IsRanking([TwoTasks()], TwoTasks(), r)
    ensures "h" in r && !NonIncreasing(r["h"])
  {
    hide IsRanking, NonIncreasing;
    var b := TwoTasks();
    assert b.samples[0] in b.samples && b.samples[1] in b.samples;
    assert KeyOf(b.labels, b.samples[0].metric) == Some(Key("h", "a"));
    assert KeyOf(b.labels, b.samples[1].metric) == Some(Key("h", "b"));
    assert [] + [b] == [b];
    RepeatedPairUnordered([], b, r, Key("h", "a"), Key("h", "b"));
  }

  /** The exact utilisation behind a delivered weight. */
  function ExactUtil(history: seq<Batch>, b: Batch, k: Key): Float {
    var points := Appearances(history, k);
    if points == [] then NaN else CpuUtil(points[|points| - 1], PointOf(b, k))
  }

  /** The order of two exact utilisations, up to less than 0.01 percentage points where both are finite. */
  predicate NearlyAtLeast(u: Float, v: Float) {
    if u.Finite? && v.Finite? then u.r > v.r - 0.01 else GreaterEq(u, v)
  }

  /** A task that weighs at least as much as another, in particular one above it in an ordered list, really
      used at least as much, up to less than 0.01 points; one that weighs more used strictly more. */
  lemma RankingReflectsExactUtil(history: seq<Batch>, b: Batch, r: RankedTasks, h: string, i: int, j: int)
    requires IsRanking(history, b, r) && h in r && 0 <= i < |r[h]| && 0 <= j < |r[h]|
    ensures NonIncreasing(r[h]) && i < j ==> GreaterEq(r[h][i].weight, r[h][j].weight)
    ensures var u, v := ExactUtil(history, b, Key(h, r[h][i].id)), ExactUtil(history, b, Key(h, r[h][j].id));
            && (GreaterEq(r[h][i].weight, r[h][j].weight) ==> NearlyAtLeast(u, v))
            && (Greater(r[h][i].weight, r[h][j].weight) ==> Greater(u, v))
  {
    hide IsRanking, RankedKeys, Appearances, FirstMetric, WeightOf, RoundReal;
    var k, l := Key(h, r[h][i].id), Key(h, r[h][j].id);
    MemberHasKey(history, b, r, h, i);
    MemberHasKey(history, b, r, h, j);
    RankedPoints(history, b, k);
    RankedPoints(history, b, l);
    RoundReflects(ExactUtil(history, b, k), ExactUtil(history, b, l));
  }

  lemma RoundReflects(u: Float, v: Float)
    ensures GreaterEq(Round(u), Round(v)) ==> NearlyAtLeast(u, v)
    ensures Greater(Round(u), Round(v)) ==> Greater(u, v)
  {
    hide RoundReal;
    if u.Finite? && v.Finite? {
      if RoundReal(u.r) >= RoundReal(v.r) {
        RoundedOrderBoundsExact(u.r, v.r);
      }
      if u.r <= v.r {
        RoundMonotone(u.r, v.r);
      }
    }
  }

  lemma PositiveProduct(x: real, y: real)
    requires x > 0.0 && y > 0.0
    ensures x * y > 0.0
  {
  }

  lemma DivideMonotone(x: real, x': real, y: real)
    requires x >= x' && y >= 0.0 && !Divide(x, y).NaN? && !Divide(x', y).NaN?
    ensures GreaterEq(Divide(x, y), Divide(x', y))
  {
    if y > 0.0 {
      QuotientTimes(x, y);
      QuotientTimes(x', y);
      assert (x' / y - x / y) * y == x' - x;
      if x' / y > x / y {
        PositiveProduct(x' / y - x / y, y);
      }
    }
  }

  /** Between common timestamps the weights follow the cpu-seconds consumed, also if no time has passed. */
  lemma ConsumptionOrdersWeights(p: DataPoint, q: DataPoint, p': DataPoint, q': DataPoint)
    requires p.timestamp == p'.timestamp <= q.timestamp == q'.timestamp
    requires q.total - p.total >= q'.total - p'.total
    requires !CpuUtil(p, q).NaN? && !CpuUtil(p', q').NaN?
    ensures GreaterEq(Round(CpuUtil(p, q)), Round(CpuUtil(p', q')))
  {
    DivideMonotone(q.total - p.total, q'.total - p'.total, (q.timestamp - p.timestamp) as real / 1000.0);
    if CpuUtil(p, q).Finite? && CpuUtil(p', q').Finite? {
      RoundMonotone(CpuUtil(p', q').r, CpuUtil(p, q).r);
    }
  }
}
