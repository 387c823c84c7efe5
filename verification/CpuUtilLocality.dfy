/** What a run does not depend on: the order of the samples, and other hosts. */
module CpuUtilLocality {
  import opened Entities
  import opened NestedMaps
  import opened Ranking
  import opened CpuUtilHistory
  import opened CpuUtilSteps

  // ----- the order of the samples

  /** All samples of task k carry the same timestamp, as they do in the result of an instant query. */
  ghost predicate OneTimestamp(b: Batch, k: Key) {
    forall s, s' :: s in b.samples && s' in b.samples
      && KeyOf(b.labels, s.metric) == Some(k) && KeyOf(b.labels, s'.metric) == Some(k)
      ==> s.timestamp == s'.timestamp
  }

  ghost predicate Reorders(b: Batch, b': Batch) {
    b.labels == b'.labels && multiset(b.samples) == multiset(b'.samples)
  }

  lemma {:induction false} SelectMembers(b: Batch, k: Key)
    ensures forall s :: s in Select(b, k) <==> s in b.samples && KeyOf(b.labels, s.metric) == Some(k)
    decreases |b.samples|
  {
    if b.samples != [] {
      var n := |b.samples| - 1;
      var init := Batch(b.labels, b.samples[..n]);
      assert b.samples == init.samples + [b.samples[n]];
      SelectMembers(init, k);
    }
  }

  function Count(v: seq<Sample>, s: Sample): nat {
    multiset(v)[s]
  }

  lemma {:induction false} SelectCounts(b: Batch, k: Key, s: Sample)
    ensures Count(Select(b, k), s) == if KeyOf(b.labels, s.metric) == Some(k) then Count(b.samples, s) else 0
    decreases |b.samples|
  {
    if b.samples != [] {
      var n := |b.samples| - 1;
      assert b.samples == b.samples[..n] + [b.samples[n]];
      SelectCounts(Batch(b.labels, b.samples[..n]), k, s);
    }
  }

  lemma SelectPermutes(b: Batch, b': Batch, k: Key)
    requires Reorders(b, b')
    ensures multiset(Select(b, k)) == multiset(Select(b', k))
  {
    forall s ensures multiset(Select(b, k))[s] == multiset(Select(b', k))[s] {
      SelectCounts(b, k, s);
      SelectCounts(b', k, s);
    }
  }

  lemma {:induction false} SumWithout(v: seq<Sample>, i: nat)
    requires i < |v|
    ensures Sum(v) == Sum(Without(v, i)) + v[i].value
  {
    var n := |v| - 1;
    if i < n {
      SumWithout(v[..n], i);
      assert Without(v, i)[..n - 1] == Without(v[..n], i);
      assert Without(v, i)[n - 1] == v[n];
    } else {
      assert Without(v, i) == v[..n];
    }
  }

  lemma {:induction false} SumPermutes(v: seq<Sample>, v': seq<Sample>)
    requires multiset(v) == multiset(v')
    ensures Sum(v) == Sum(v')
    decreases |v|
  {
    PermutationMembers(v, v');
    if v != [] {
      assert v[0] in v';
      var i :| 0 <= i < |v'| && v'[i] == v[0];
      WithoutSame(v, 0, v', i);
      SumPermutes(Without(v, 0), Without(v', i));
      SumWithout(v, 0);
      SumWithout(v', i);
    }
  }

  /** The sum never depends on the order; the timestamp, that of the first sample, does not if there is one only. */
  lemma PointPermutes(b: Batch, b': Batch, k: Key)
    requires Reorders(b, b')
    ensures PointOf(b, k).total == PointOf(b', k).total
    ensures OneTimestamp(b, k) ==> PointOf(b, k) == PointOf(b', k)
  {
    var v, v' := Select(b, k), Select(b', k);
    SelectPermutes(b, b', k);
    PermutationMembers(v, v');
    SumPermutes(v, v');
    if v != [] {
      SelectMembers(b, k);
      assert v[0] in v && v'[0] in v;
    }
  }

  ghost predicate SampleOrderIrrelevant(b: Batch, k: Key) {
    forall b' :: Reorders(b, b') ==> PointOf(b', k) == PointOf(b, k)
  }

  /** A sample of the task put in front gives the point its timestamp. */
  lemma PointOfFront(b: Batch, k: Key, i: nat) returns (b': Batch)
    requires i < |b.samples| && KeyOf(b.labels, b.samples[i].metric) == Some(k)
    ensures Reorders(b, b') && PointOf(b', k).timestamp == b.samples[i].timestamp
  {
    var front, rest := Batch(b.labels, [b.samples[i]]), Batch(b.labels, Without(b.samples, i));
    b' := Batch(b.labels, front.samples + rest.samples);
    WithoutMultiset(b.samples, i);
    SelectConcat(front, rest, b', k);
    assert front.samples[..0] == [];
    assert Select(front, k) == [b.samples[i]];
  }

  /** Exactly when the point of a task does not depend on the order of the samples. */
  lemma SampleOrderIrrelevantIff(b: Batch, k: Key)
    ensures SampleOrderIrrelevant(b, k) <==> OneTimestamp(b, k)
  {
    hide PointOf;
    if OneTimestamp(b, k) {
      forall b' | Reorders(b, b') ensures PointOf(b', k) == PointOf(b, k) {
        PointPermutes(b, b', k);
      }
    } else {
      var s, s' :| s in b.samples && s' in b.samples
        && KeyOf(b.labels, s.metric) == Some(k) && KeyOf(b.labels, s'.metric) == Some(k) && s.timestamp != s'.timestamp;
      var x := if s.timestamp != PointOf(b, k).timestamp then s else s';
      var i :| 0 <= i < |b.samples| && b.samples[i] == x;
      var b' := PointOfFront(b, k, i);
    }
  }

  lemma SamePermutedKeys(b: Batch, b': Batch)
    requires Reorders(b, b')
    ensures KeysOf(b) == KeysOf(b') && HostsOf(b) == HostsOf(b')
  {
    PermutationMembers(b.samples, b'.samples);
  }

  /** Reordering a snapshot changes no stored sum, and neither timestamp nor weight of a task with one timestamp;
      the metric kept for a task can only differ if this snapshot introduces the task. */
  lemma SampleOrderState(history: seq<Batch>, b: Batch, b': Batch, k: Key)
    requires Reorders(b, b')
    ensures StateOf(history + [b]).hosts == StateOf(history + [b']).hosts
    ensures k in StateOf(history + [b]).entries <==> k in StateOf(history + [b']).entries
    ensures k in StateOf(history + [b]).entries ==>
              var e, e' := StateOf(history + [b]).entries[k], StateOf(history + [b']).entries[k];
              && e.point.Some? && e'.point.Some? && e.point.value.total == e'.point.value.total
              && (k in KeysSeen(history) ==> e.task.metric == e'.task.metric)
              && (OneTimestamp(b, k) ==> e' == e.(task := e.task.(metric := e'.task.metric)))
  {
    hide OneTimestamp, Reorders, EntryOf;
    SamePermutedKeys(b, b');
    SeenStep(history, b);
    SeenStep(history, b');
    if k in KeysSeen(history) + KeysOf(b) {
      SampleOrderEntry(history, b, b', k);
    }
  }

  lemma SampleOrderEntry(history: seq<Batch>, b: Batch, b': Batch, k: Key)
    requires Reorders(b, b') && k in KeysSeen(history) + KeysOf(b)
    ensures var e, e' := EntryOf(history + [b], k), EntryOf(history + [b'], k);
            && e.point.Some? && e'.point.Some? && e.point.value.total == e'.point.value.total
            && (k in KeysSeen(history) ==> e.task.metric == e'.task.metric)
            && (OneTimestamp(b, k) ==> e' == e.(task := e.task.(metric := e'.task.metric)))
  {
    hide OneTimestamp, Reorders, PointOf, FirstMetricIn, KeysOf, KeysSeen;
    SamePermutedKeys(b, b');
    PointPermutes(b, b', k);
    AppearancesStep(history, b, k);
    AppearancesStep(history, b', k);
    FirstMetricStep(history, b, k);
    FirstMetricStep(history, b', k);
    SeenIffAppeared(history, k);
  }

  /** Reordering a snapshot whose ranked tasks have one timestamp each allows exactly the same deliveries. */
  lemma SampleOrderRanking(history: seq<Batch>, b: Batch, b': Batch, r: RankedTasks)
    requires Reorders(b, b') && forall k :: k in RankedKeys(history, b) ==> OneTimestamp(b, k)
    ensures IsRanking(history, b, r) <==> IsRanking(history, b', r)
  {
    hide OneTimestamp, Reorders;
    SamePermutedKeys(b, b');
    forall k | k in RankedKeys(history, b) ensures TaskOf(history + [b], k) == TaskOf(history + [b'], k) {
      SampleOrderState(history, b, b', k);
      SeenStep(history, b);
      SeenStep(history, b');
    }
    forall h ensures RankedOn(history, b, h) == RankedOn(history, b', h) {
    }
  }

  // ----- other hosts

  /** IsRanking, one host at a time. */
  ghost predicate IsRankingOn(history: seq<Batch>, b: Batch, r: RankedTasks, h: string) {
    && (h in r <==> h in HostsOf(b) && RankedOn(history, b, h) != {})
    && (h in r ==> multiset(r[h]) == multiset(RankedOn(history, b, h)) && (NaNFree(r[h]) ==> NonIncreasing(r[h])))
  }

  lemma IsRankingByHost(history: seq<Batch>, b: Batch, r: RankedTasks)
    ensures IsRanking(history, b, r) <==> forall h :: IsRankingOn(history, b, r, h)
  {
    hide RankedOn, HostsOf, RankedHosts, NaNFree, NonIncreasing;
    forall h ensures h in RankedHosts(history, b) <==> h in HostsOf(b) && RankedOn(history, b, h) != {} {
      RankedHostIff(history, b, h);
    }
    if forall h :: IsRankingOn(history, b, r, h) {
      forall h ensures h in r.Keys <==> h in RankedHosts(history, b) {
        assert IsRankingOn(history, b, r, h);
      }
      forall h | h in r
        ensures multiset(r[h]) == multiset(RankedOn(history, b, h)) && (NaNFree(r[h]) ==> NonIncreasing(r[h]))
      {
        assert IsRankingOn(history, b, r, h);
      }
    }
  }

  /** The samples that carry host h. */
  function OnlyHost(b: Batch, h: string): Batch
    decreases |b.samples|
  {
    if b.samples == [] then b
    else
      var n := |b.samples| - 1;
      var init := OnlyHost(Batch(b.labels, b.samples[..n]), h);
      if HostOf(b.labels, b.samples[n].metric) == Some(h) then Batch(b.labels, init.samples + [b.samples[n]]) else init
  }

  function OnlyHostAll(history: seq<Batch>, h: string): seq<Batch> {
    seq(|history|, i requires 0 <= i < |history| => OnlyHost(history[i], h))
  }

  lemma {:induction false} OnlyHostSelect(b: Batch, k: Key)
    ensures OnlyHost(b, k.host).labels == b.labels
    ensures Select(OnlyHost(b, k.host), k) == Select(b, k)
    decreases |b.samples|
  {
    if b.samples != [] {
      var n := |b.samples| - 1;
      var init := Batch(b.labels, b.samples[..n]);
      OnlyHostSelect(init, k);
      var o := OnlyHost(init, k.host);
      assert (o.samples + [b.samples[n]])[..|o.samples|] == o.samples;
      assert KeyOf(b.labels, b.samples[n].metric) == Some(k) ==> HostOf(b.labels, b.samples[n].metric) == Some(k.host);
    }
  }

  lemma OnlyHostPoint(b: Batch, k: Key)
    ensures k in KeysOf(OnlyHost(b, k.host)) <==> k in KeysOf(b)
    ensures PointOf(OnlyHost(b, k.host), k) == PointOf(b, k)
    ensures FirstMetricIn(OnlyHost(b, k.host), k) == FirstMetricIn(b, k)
  {
    OnlyHostSelect(b, k);
    SelectNonEmpty(b, k);
    SelectNonEmpty(OnlyHost(b, k.host), k);
  }

  lemma {:induction false} OnlyHostHistory(history: seq<Batch>, k: Key)
    ensures Appearances(OnlyHostAll(history, k.host), k) == Appearances(history, k)
    ensures FirstMetric(OnlyHostAll(history, k.host), k) == FirstMetric(history, k)
  {
    if history != [] {
      var n := |history| - 1;
      OnlyHostHistory(history[..n], k);
      assert OnlyHostAll(history, k.host)[..n] == OnlyHostAll(history[..n], k.host);
      OnlyHostPoint(history[n], k);
    }
  }

  lemma {:induction false} OnlyHostHost(b: Batch, h: string)
    ensures h in HostsOf(OnlyHost(b, h)) <==> h in HostsOf(b)
    decreases |b.samples|
  {
    if b.samples != [] {
      var n := |b.samples| - 1;
      var init := Batch(b.labels, b.samples[..n]);
      assert b.samples == init.samples + [b.samples[n]];
      OnlyHostSelect(init, Key(h, ""));
      OnlyHostHost(init, h);
      BatchStep(init, b.samples[n], b);
      var o := OnlyHost(init, h);
      BatchStep(o, b.samples[n], Batch(o.labels, o.samples + [b.samples[n]]));
    }
  }

  lemma {:induction false} OnlyHostSeen(history: seq<Batch>, h: string)
    ensures h in HostsSeen(OnlyHostAll(history, h)) <==> h in HostsSeen(history)
  {
    if history != [] {
      var n := |history| - 1;
      OnlyHostSeen(history[..n], h);
      OnlyHostHost(history[n], h);
      assert history == history[..n] + [history[n]];
      assert OnlyHostAll(history, h) == OnlyHostAll(history[..n], h) + [OnlyHost(history[n], h)];
      SeenStep(history[..n], history[n]);
      SeenStep(OnlyHostAll(history[..n], h), OnlyHost(history[n], h));
    }
  }

  lemma OnlyHostKey(history: seq<Batch>, b: Batch, k: Key)
    ensures var local, only := OnlyHostAll(history, k.host), OnlyHost(b, k.host);
            && (k in KeysSeen(local) <==> k in KeysSeen(history))
            && (k in KeysOf(only) <==> k in KeysOf(b))
            && EntryOf(local, k) == EntryOf(history, k)
            && TaskOf(local + [only], k) == TaskOf(history + [b], k)
  {
    var h := k.host;
    OnlyHostHistory(history, k);
    OnlyHostHistory(history + [b], k);
    assert OnlyHostAll(history + [b], h) == OnlyHostAll(history, h) + [OnlyHost(b, h)];
    SeenIffAppeared(OnlyHostAll(history, h), k);
    SeenIffAppeared(history, k);
    OnlyHostPoint(b, k);
  }

  /** What is stored and delivered for a host depends only on the samples that carry its label. */
  lemma HostLocality(history: seq<Batch>, b: Batch, h: string, r: RankedTasks)
    ensures h in StateOf(OnlyHostAll(history, h)).hosts <==> h in StateOf(history).hosts
    ensures forall k: Key :: k.host == h ==>
              && (k in StateOf(OnlyHostAll(history, h)).entries <==> k in StateOf(history).entries)
              && EntryOf(OnlyHostAll(history, h), k) == EntryOf(history, k)
    ensures IsRankingOn(OnlyHostAll(history, h), OnlyHost(b, h), r, h) <==> IsRankingOn(history, b, r, h)
  {
    hide EntryOf, TaskOf, HostsOf, KeysOf, HostsSeen, KeysSeen, NaNFree, NonIncreasing;
    OnlyHostSeen(history, h);
    OnlyHostHost(b, h);
    var local, only := OnlyHostAll(history, h), OnlyHost(b, h);
    forall k: Key | k.host == h
      ensures k in KeysSeen(local) <==> k in KeysSeen(history)
      ensures k in KeysOf(only) <==> k in KeysOf(b)
      ensures EntryOf(local, k) == EntryOf(history, k)
      ensures TaskOf(local + [only], k) == TaskOf(history + [b], k)
    {
      OnlyHostKey(history, b, k);
    }
    assert RankedOn(local, only, h) == RankedOn(history, b, h);
  }

  // ----- splitting a snapshot by hosts

  lemma {:induction false} SelectConcat(b: Batch, c: Batch, d: Batch, k: Key)
    requires b.labels == c.labels && d == Batch(b.labels, b.samples + c.samples)
    ensures Select(d, k) == Select(b, k) + Select(c, k)
    decreases |c.samples|
  {
    if c.samples == [] {
      assert d == b;
    } else {
      var n := |c.samples| - 1;
      var init := Batch(c.labels, c.samples[..n]);
      assert d.samples[..|d.samples| - 1] == b.samples + init.samples;
      SelectConcat(b, init, Batch(b.labels, b.samples + init.samples), k);
    }
  }

  /** Two snapshots without a common host, and the snapshot made of both. */
  ghost predicate Splits(b: Batch, c: Batch, d: Batch) {
    && b.labels == c.labels && d == Batch(b.labels, b.samples + c.samples)
    && HostsOf(b) !! HostsOf(c)
  }

  lemma SplitKeys(b: Batch, c: Batch, d: Batch)
    requires Splits(b, c, d)
    ensures HostsOf(d) == HostsOf(b) + HostsOf(c) && KeysOf(d) == KeysOf(b) + KeysOf(c)
    ensures forall k :: k in KeysOf(b) ==> k.host in HostsOf(b)
    ensures forall k :: k in KeysOf(c) ==> k.host in HostsOf(c)
  {
  }

  lemma SplitPoint(b: Batch, c: Batch, d: Batch, k: Key)
    requires Splits(b, c, d)
    ensures k in KeysOf(b) ==> PointOf(d, k) == PointOf(b, k) && FirstMetricIn(d, k) == FirstMetricIn(b, k)
    ensures k in KeysOf(c) ==> PointOf(d, k) == PointOf(c, k) && FirstMetricIn(d, k) == FirstMetricIn(c, k)
  {
    SplitKeys(b, c, d);
    SelectConcat(b, c, d, k);
    SelectNonEmpty(b, k);
    SelectNonEmpty(c, k);
    if k in KeysOf(b) {
      assert Select(d, k) == Select(b, k);
    } else {
      assert Select(d, k) == Select(c, k);
    }
  }

  lemma SplitEntry(history: seq<Batch>, b: Batch, c: Batch, d: Batch, k: Key)
    requires Splits(b, c, d)
    ensures EntryOf(history + [d], k) == EntryOf(history + [b] + [c], k)
    ensures k in KeysOf(b) ==> TaskOf(history + [d], k) == TaskOf(history + [b], k)
  {
    hide KeysOf, PointOf, FirstMetricIn, HostsOf;
    SplitKeys(b, c, d);
    SplitPoint(b, c, d, k);
    AppearancesStep(history, d, k);
    AppearancesStep(history, b, k);
    AppearancesStep(history + [b], c, k);
    FirstMetricStep(history, d, k);
    FirstMetricStep(history, b, k);
    FirstMetricStep(history + [b], c, k);
    NoSampleNoMetric(b, k);
    if k !in KeysOf(c) {
      assert Appearances(history + [b] + [c], k) == Appearances(history + [d], k);
    }
    if k !in KeysOf(b) {
      assert Appearances(history + [b], k) == Appearances(history, k);
    }
    NoSampleNoMetric(c, k);
    NoSampleNoMetric(d, k);
  }

  lemma NoSampleNoMetric(b: Batch, k: Key)
    ensures k !in KeysOf(b) ==> FirstMetricIn(b, k) == map[]
  {
    SelectNonEmpty(b, k);
  }

  /** Processing host-disjoint snapshots one after the other leaves the same state as processing them at once. */
  lemma SplitState(history: seq<Batch>, b: Batch, c: Batch, d: Batch)
    requires Splits(b, c, d)
    ensures StateOf(history + [d]) == StateOf(history + [b] + [c])
  {
    SplitKeys(b, c, d);
    SeenStep(history, d);
    SeenStep(history, b);
    SeenStep(history + [b], c);
    var m, n := StateOf(history + [d]).entries, StateOf(history + [b] + [c]).entries;
    forall k ensures AgreeAt(m, n, k) {
      SplitEntry(history, b, c, d, k);
    }
    MapsEqual(m, n);
  }

  function On(r: RankedTasks, hosts: set<string>): RankedTasks {
    map h | h in r && h in hosts :: r[h]
  }

  lemma SplitRankedOn(history: seq<Batch>, b: Batch, c: Batch, d: Batch, h: string)
    requires Splits(b, c, d)
    ensures h in HostsOf(b) ==> RankedOn(history, d, h) == RankedOn(history, b, h)
    ensures h in HostsOf(c) ==> RankedOn(history, d, h) == RankedOn(history + [b], c, h)
  {
    SplitKeys(b, c, d);
    SeenStep(history, b);
    forall k | k in KeysOf(d)
      ensures k in KeysOf(b) ==> TaskOf(history + [d], k) == TaskOf(history + [b], k)
      ensures k in KeysOf(c) ==> TaskOf(history + [d], k) == TaskOf(history + [b] + [c], k)
    {
      SplitEntry(history, b, c, d, k);
    }
  }

  lemma SplitRankingOn(history: seq<Batch>, b: Batch, c: Batch, d: Batch, r: RankedTasks, h: string)
    requires Splits(b, c, d)
    ensures IsRankingOn(history, d, r, h) <==>
              && (h in r ==> h in HostsOf(b) + HostsOf(c))
              && IsRankingOn(history, b, On(r, HostsOf(b)), h)
              && IsRankingOn(history + [b], c, On(r, HostsOf(c)), h)
  {
    hide RankedOn, NaNFree, NonIncreasing;
    SplitKeys(b, c, d);
    SplitRankedOn(history, b, c, d, h);
  }

  /** And the deliveries of the two calls together are exactly the deliveries the single call may make. */
  lemma SplitRanking(history: seq<Batch>, b: Batch, c: Batch, d: Batch, r: RankedTasks)
    requires Splits(b, c, d)
    ensures IsRanking(history, d, r) <==>
              && r.Keys <= HostsOf(b) + HostsOf(c)
              && IsRanking(history, b, On(r, HostsOf(b)))
              && IsRanking(history + [b], c, On(r, HostsOf(c)))
  {
    hide IsRanking, IsRankingOn, HostsOf;
    IsRankingByHost(history, d, r);
    IsRankingByHost(history, b, On(r, HostsOf(b)));
    IsRankingByHost(history + [b], c, On(r, HostsOf(c)));
    forall h
      ensures IsRankingOn(history, d, r, h) <==>
                && (h in r ==> h in HostsOf(b) + HostsOf(c))
                && IsRankingOn(history, b, On(r, HostsOf(b)), h)
                && IsRankingOn(history + [b], c, On(r, HostsOf(c)), h)
    {
      SplitRankingOn(history, b, c, d, r, h);
    }
    assert r.Keys <= HostsOf(b) + HostsOf(c) <==> forall h :: h in r ==> h in HostsOf(b) + HostsOf(c);
  }
}
