/** The steps of one Execute on abstract state, and the proof that together they turn the state of a
    history into the state of the history extended by one snapshot. */
module CpuUtilSteps {
  import opened Floats
  import opened Entities
  import opened NestedMaps
  import opened Ranking
  import opened CpuUtilHistory

  datatype Totals = Totals(hosts: set<string>, points: map<Key, DataPoint>)

  // ----- parsing: one sample

  function Register(labels: Labels, st: State, s: Sample): State {
    match HostOf(labels, s.metric)
    case None => st
    case Some(h) =>
      match TaskIDOf(labels, s.metric)
      case None => State(st.hosts + {h}, st.entries)
      case Some(t) =>
        var k := Key(h, t);
        State(st.hosts + {h},
              if k in st.entries then st.entries
              else st.entries[k := Entry(Task(s.metric, Finite(0.0), t, h), None)])
  }

  function Accumulate(labels: Labels, now: Totals, s: Sample): Totals {
    match HostOf(labels, s.metric)
    case None => now
    case Some(h) =>
      match TaskIDOf(labels, s.metric)
      case None => Totals(now.hosts + {h}, now.points)
      case Some(t) =>
        var k := Key(h, t);
        var p := if k in now.points then DataPoint(now.points[k].total + s.value, now.points[k].timestamp)
                 else DataPoint(s.value, s.timestamp);
        Totals(now.hosts + {h}, now.points[k := p])
  }

  /** The state after the samples of b are parsed: known tasks untouched, new ones without a point. */
  function Parsed(history: seq<Batch>, b: Batch): State {
    State(HostsSeen(history) + HostsOf(b),
          map k | k in KeysSeen(history) + KeysOf(b) ::
            if k in KeysSeen(history) then EntryOf(history, k)
            else Entry(Task(FirstMetric(history + [b], k), Finite(0.0), k.task, k.host), None))
  }

  function TotalsOf(b: Batch): Totals {
    Totals(HostsOf(b), map k | k in KeysOf(b) :: PointOf(b, k))
  }

  lemma ParsedStart(history: seq<Batch>, labels: Labels)
    ensures Parsed(history, Batch(labels, [])) == StateOf(history)
    ensures TotalsOf(Batch(labels, [])) == Totals({}, map[])
  {
  }

  /** How the summaries of a snapshot grow with one more sample. */
  lemma BatchStep(b: Batch, s: Sample, b': Batch)
    requires b' == Batch(b.labels, b.samples + [s])
    ensures HostsOf(b') == HostsOf(b)
            + (if HostOf(b.labels, s.metric).Some? then {HostOf(b.labels, s.metric).value} else {})
    ensures KeysOf(b') == KeysOf(b)
            + (if KeyOf(b.labels, s.metric).Some? then {KeyOf(b.labels, s.metric).value} else {})
    ensures forall k :: Select(b', k) == Select(b, k) + (if KeyOf(b.labels, s.metric) == Some(k) then [s] else [])
  {
  }

  lemma SumPush(v: seq<Sample>, s: Sample)
    ensures Sum(v + [s]) == Sum(v) + s.value && Sum([]) == 0.0
  {
  }

  lemma PointStep(b: Batch, s: Sample, b': Batch, k: Key)
    requires b' == Batch(b.labels, b.samples + [s])
    ensures KeyOf(b.labels, s.metric) != Some(k) ==> PointOf(b', k) == PointOf(b, k)
    ensures KeyOf(b.labels, s.metric) == Some(k) ==>
              PointOf(b', k) == if k in KeysOf(b) then DataPoint(PointOf(b, k).total + s.value, PointOf(b, k).timestamp)
                                else DataPoint(s.value, s.timestamp)
  {
    hide Select, Sum, KeysOf;
    BatchStep(b, s, b');
    SelectNonEmpty(b, k);
    SumPush(Select(b, k), s);
    assert Select(b, k) + [] == Select(b, k) && (Select(b, k) == [] ==> Select(b, k) + [s] == [s]);
  }

  ghost predicate AgreeAt<K, V>(m: map<K, V>, n: map<K, V>, k: K) {
    (k in m <==> k in n) && (k in m ==> m[k] == n[k])
  }

  lemma MapsEqual<K, V>(m: map<K, V>, n: map<K, V>)
    requires forall k :: AgreeAt(m, n, k)
    ensures m == n
  {
    assert forall k :: k in m ==> AgreeAt(m, n, k);
    assert forall k :: k in n ==> AgreeAt(m, n, k);
  }

  lemma AccumulateStep(b: Batch, s: Sample, b': Batch)
    requires b' == Batch(b.labels, b.samples + [s])
    ensures Accumulate(b.labels, TotalsOf(b), s) == TotalsOf(b')
  {
    hide PointOf, Select;
    BatchStep(b, s, b');
    var m, n := Accumulate(b.labels, TotalsOf(b), s).points, TotalsOf(b').points;
    forall k ensures AgreeAt(m, n, k) {
      PointStep(b, s, b', k);
    }
    MapsEqual(m, n);
  }

  lemma NewMetricStep(history: seq<Batch>, b: Batch, s: Sample, b': Batch, k: Key)
    requires b' == Batch(b.labels, b.samples + [s])
    requires k !in KeysSeen(history)
    ensures k in KeysOf(b) ==> FirstMetric(history + [b'], k) == FirstMetric(history + [b], k)
    ensures k !in KeysOf(b) && KeyOf(b.labels, s.metric) == Some(k) ==> FirstMetric(history + [b'], k) == s.metric
  {
    SeenIffAppeared(history, k);
    FirstMetricStep(history, b, k);
    FirstMetricStep(history, b', k);
    BatchStep(b, s, b');
    SelectNonEmpty(b, k);
  }

  lemma RegisterStep(history: seq<Batch>, b: Batch, s: Sample, b': Batch)
    requires b' == Batch(b.labels, b.samples + [s])
    ensures Register(b.labels, Parsed(history, b), s) == Parsed(history, b')
  {
    hide PointOf, Select, Appearances, FirstMetric, HostsSeen, EntryOf;
    BatchStep(b, s, b');
    var m, n := Register(b.labels, Parsed(history, b), s).entries, Parsed(history, b').entries;
    forall k ensures AgreeAt(m, n, k) {
      if k !in KeysSeen(history) {
        NewMetricStep(history, b, s, b', k);
      }
    }
    MapsEqual(m, n);
  }

  // ----- ranking: one task

  /** The stored entry of an active task after the ranking loop has visited it. */
  function Updated(e: Entry, p: DataPoint): Entry {
    match e.point
    case None => Entry(e.task, Some(p))
    case Some(prev) => Entry(e.task.(weight := Round(CpuUtil(prev, p))), Some(p))
  }

  /** The entries after the ranking loop has visited the keys in done. */
  function UpdateOn(entries: map<Key, Entry>, points: map<Key, DataPoint>, done: set<Key>): map<Key, Entry> {
    map k | k in entries :: if k in done && k in points then Updated(entries[k], points[k]) else entries[k]
  }

  /** The tasks the ranking loop has appended while visiting the keys in done. */
  function AppendedOn(entries: map<Key, Entry>, points: map<Key, DataPoint>, done: set<Key>): set<Task> {
    set k | k in done && k in entries && k in points && entries[k].point.Some? :: Updated(entries[k], points[k]).task
  }

  ghost predicate Keyed(entries: map<Key, Entry>) {
    forall k :: k in entries ==> entries[k].task.id == k.task && entries[k].task.hostname == k.host
  }

  lemma UpdateNone(entries: map<Key, Entry>, points: map<Key, DataPoint>)
    ensures UpdateOn(entries, points, {}) == entries
    ensures AppendedOn(entries, points, {}) == {}
  {
  }

  lemma UpdateOneMore(entries: map<Key, Entry>, points: map<Key, DataPoint>, done: set<Key>, k: Key)
    requires k in entries && k in points && k !in done
    ensures k in UpdateOn(entries, points, done) && UpdateOn(entries, points, done)[k] == entries[k]
    ensures UpdateOn(entries, points, done + {k})
            == UpdateOn(entries, points, done)[k := Updated(entries[k], points[k])]
  {
  }

  lemma AppendOneMore(entries: map<Key, Entry>, points: map<Key, DataPoint>, done: set<Key>, k: Key)
    requires Keyed(entries) && k in entries && k in points && k !in done
    ensures var task := Updated(entries[k], points[k]).task;
            if entries[k].point.Some?
            then AppendedOn(entries, points, done + {k}) == AppendedOn(entries, points, done) + {task}
              && task !in AppendedOn(entries, points, done)
            else AppendedOn(entries, points, done + {k}) == AppendedOn(entries, points, done)
  {
  }

  lemma ParsedKeyed(history: seq<Batch>, b: Batch)
    ensures Keyed(Parsed(history, b).entries)
  {
  }

  lemma ParsedCovers(history: seq<Batch>, b: Batch)
    ensures TotalsOf(b).hosts == HostsOf(b) && TotalsOf(b).points.Keys == KeysOf(b)
    ensures forall k :: k in TotalsOf(b).points ==> k in Parsed(history, b).entries
  {
  }

  /** A task seen before gets exactly the entry the longer history prescribes, and so does a new one. */
  lemma UpdatedIsEntryOf(history: seq<Batch>, b: Batch, k: Key)
    requires k in KeysOf(b)
    ensures Updated(Parsed(history, b).entries[k], PointOf(b, k)) == EntryOf(history + [b], k)
  {
    SeenIffAppeared(history, k);
    AppearancesStep(history, b, k);
    FirstMetricStep(history, b, k);
  }

  lemma UntouchedIsEntryOf(history: seq<Batch>, b: Batch, k: Key)
    requires k in KeysSeen(history) && k !in KeysOf(b)
    ensures EntryOf(history, k) == EntryOf(history + [b], k)
  {
    SeenIffAppeared(history, k);
    AppearancesStep(history, b, k);
    FirstMetricStep(history, b, k);
    assert Appearances(history, k) + [] == Appearances(history, k);
  }

  /** After all active tasks are visited the state is the one the extended history prescribes. */
  lemma UpdateAllIsStateOf(history: seq<Batch>, b: Batch)
    ensures State(Parsed(history, b).hosts, UpdateOn(Parsed(history, b).entries, TotalsOf(b).points, KeysOf(b)))
            == StateOf(history + [b])
  {
    SeenStep(history, b);
    var m := UpdateOn(Parsed(history, b).entries, TotalsOf(b).points, KeysOf(b));
    var n := StateOf(history + [b]).entries;
    forall k ensures AgreeAt(m, n, k) {
      if k in KeysOf(b) {
        UpdatedIsEntryOf(history, b, k);
      } else if k in KeysSeen(history) {
        UntouchedIsEntryOf(history, b, k);
      }
    }
    MapsEqual(m, n);
  }

  /** While a snapshot is processed every active task has a stored entry, and the entry lacks a data point
      exactly when this snapshot is the first to contain the task. */
  lemma NoPointIffFirstSeen(history: seq<Batch>, b: Batch, k: Key)
    requires k in TotalsOf(b).points
    ensures k in Parsed(history, b).entries
    ensures Parsed(history, b).entries[k].point.None? <==> forall c :: c in history ==> k !in KeysOf(c)
  {
    SeenIffAppeared(history, k);
  }

  /** What was appended for a host is what the run has to report for it. */
  lemma AppendedIsRankedOn(history: seq<Batch>, b: Batch, h: string)
    ensures AppendedOn(Parsed(history, b).entries, TotalsOf(b).points, OnHost(TotalsOf(b).points, h))
            == RankedOn(history, b, h)
  {
    var entries, points := Parsed(history, b).entries, TotalsOf(b).points;
    var done := OnHost(points, h);
    forall k | k in KeysOf(b)
      ensures entries[k].point.Some? <==> k in KeysSeen(history)
      ensures Updated(entries[k], points[k]).task == TaskOf(history + [b], k)
    {
      NoPointIffFirstSeen(history, b, k);
      UpdatedIsEntryOf(history, b, k);
    }
    var appended, ranked := AppendedOn(entries, points, done), RankedOn(history, b, h);
    forall task | task in appended ensures task in ranked {
      var k :| k in done && k in entries && k in points && entries[k].point.Some?
            && Updated(entries[k], points[k]).task == task;
      assert k in RankedKeys(history, b);
    }
    forall task | task in ranked ensures task in appended {
      var k :| k in RankedKeys(history, b) && k.host == h && TaskOf(history + [b], k) == task;
      assert k in done && k in entries && k in points;
    }
  }

  // ----- ranking: host by host

  function OnHost(points: map<Key, DataPoint>, h: string): set<Key> {
    set k | k in points && k.host == h
  }

  lemma UpdateMore(entries: map<Key, Entry>, points: map<Key, DataPoint>, done: set<Key>, more: set<Key>)
    requires done !! more
    ensures UpdateOn(UpdateOn(entries, points, done), points, more) == UpdateOn(entries, points, done + more)
    ensures AppendedOn(UpdateOn(entries, points, done), points, more) == AppendedOn(entries, points, more)
    ensures Keyed(entries) ==> Keyed(UpdateOn(entries, points, done))
    ensures UpdateOn(entries, points, done).Keys == entries.Keys
  {
  }

  /** The rankings are complete for the given hosts: a host has a list exactly when a task was appended
      for it, and the list holds what was appended, heaviest first. */
  ghost predicate Complete(r: RankedTasks, entries: map<Key, Entry>, points: map<Key, DataPoint>, hosts: set<string>) {
    && (forall h :: h in r <==> h in hosts && AppendedOn(entries, points, OnHost(points, h)) != {})
    && (forall h :: h in r ==>
          && multiset(r[h]) == multiset(AppendedOn(entries, points, OnHost(points, h)))
          && (NaNFree(r[h]) ==> NonIncreasing(r[h])))
  }

  lemma CompleteNone(entries: map<Key, Entry>, points: map<Key, DataPoint>)
    ensures Complete(map[], entries, points, {})
  {
  }

  lemma CompleteHost(r: RankedTasks, entries: map<Key, Entry>, points: map<Key, DataPoint>, hosts: set<string>,
                     h: string, ranked: seq<Task>, r': RankedTasks)
    requires Complete(r, entries, points, hosts) && h !in hosts
    requires multiset(ranked) == multiset(AppendedOn(entries, points, OnHost(points, h)))
    requires NaNFree(ranked) ==> NonIncreasing(ranked)
    requires r' == if ranked == [] then r else r[h := ranked]
    ensures Complete(r', entries, points, hosts + {h})
  {
    var appended := AppendedOn(entries, points, OnHost(points, h));
    assert ranked == [] <==> appended == {} by {
      assert |multiset(ranked)| == |ranked| && |multiset(appended)| == |appended|;
    }
  }

  lemma CompleteIsRanking(history: seq<Batch>, b: Batch, r: RankedTasks)
    requires Complete(r, Parsed(history, b).entries, TotalsOf(b).points, HostsOf(b))
    ensures IsRanking(history, b, r)
  {
    hide AppendedOn, RankedOn, RankedHosts, Parsed, TotalsOf, OnHost, HostsOf;
    var entries, points := Parsed(history, b).entries, TotalsOf(b).points;
    forall h ensures AppendedOn(entries, points, OnHost(points, h)) == RankedOn(history, b, h) {
      AppendedIsRankedOn(history, b, h);
    }
    forall h ensures h in r <==> h in RankedHosts(history, b) {
      RankedHostIff(history, b, h);
    }
  }

  lemma RankedHostIff(history: seq<Batch>, b: Batch, h: string)
    ensures h in RankedHosts(history, b) <==> h in HostsOf(b) && RankedOn(history, b, h) != {}
  {
    if h in RankedHosts(history, b) {
      var k :| k in RankedKeys(history, b) && k.host == h;
      assert TaskOf(history + [b], k) in RankedOn(history, b, h);
      KeyHasHost(b, k);
    }
  }

  lemma KeyHasHost(b: Batch, k: Key)
    requires k in KeysOf(b)
    ensures k.host in HostsOf(b)
  {
  }
}
