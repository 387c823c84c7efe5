/** The stop protocol: any number of goroutines that close, query or await the signal channel, and runs of
    the ranker that consult it, interleaved step by step. */
module StopProtocol {
  import opened Entities

  /** Where a goroutine is. sync.Once.Do is its fast check, its mutex, the second check, the call of the
      function, the store of its done flag, and the unlock. */
  datatype PC =
    // SignalChannel.Close, called by Stop
    | CloseFast | CloseLock | CloseCheck | CloseChannel | CloseMark | CloseUnlock | CloseReturned
    // SignalChannel.IsClosed on its own, and its answer
    | Asking | Answered(closed: bool)
    // SignalChannel.WaitTillClosed
    | Waiting | Woken
    // TaskRanker.Run: its check, the fetch, the decision what to do with the result, the end
    | RunCheck | RunFetch | RunFetched | RunDone

  /** closes counts calls of the built-in close; a second one panics. fetched and executed hold the runs
      that began to fetch and to execute the strategy. */
  datatype System = System(
    threads: map<nat, PC>,
    closed: bool, closes: nat, panicked: bool,
    done: bool, mutex: Option<nat>,
    fetched: set<nat>, executed: set<nat>)

  predicate IsEntry(pc: PC) {
    pc == CloseFast || pc == Asking || pc == Waiting || pc == RunCheck
  }

  ghost predicate Initial(s: System) {
    s == System(map[], false, 0, false, false, None, {}, {})
  }

  function At(s: System, t: nat, pc: PC): System {
    s.(threads := s.threads[t := pc])
  }

  /** A goroutine starts; every run and every call is a goroutine of its own. */
  ghost predicate Spawn(s: System, s': System, t: nat, pc: PC) {
    t !in s.threads && IsEntry(pc) && s' == At(s, t, pc)
  }

  /** Goroutine t takes its next step. */
  ghost predicate Step(s: System, s': System, t: nat) {
    t in s.threads &&
    match s.threads[t]
    case CloseFast => s' == At(s, t, if s.done then CloseReturned else CloseLock)
    case CloseLock => s.mutex.None? && s' == At(s, t, CloseCheck).(mutex := Some(t))
    case CloseCheck => s' == At(s, t, if s.done then CloseUnlock else CloseChannel)
    case CloseChannel =>
      s' == At(s, t, CloseMark).(closed := true, closes := s.closes + 1, panicked := s.panicked || s.closed)
    case CloseMark => s' == At(s, t, CloseUnlock).(done := true)
    case CloseUnlock => s' == At(s, t, CloseReturned).(mutex := None)
    case Asking => s' == At(s, t, Answered(s.closed))
    case Waiting => s.closed && s' == At(s, t, Woken)
    case RunCheck => s' == At(s, t, if s.closed then RunDone else RunFetch)
    case RunFetch => s' == At(s, t, RunFetched).(fetched := s.fetched + {t})
    // the fetch failed, or its result is handed to the strategy
    case RunFetched => s' == At(s, t, RunDone) || s' == At(s, t, RunDone).(executed := s.executed + {t})
    case _ => false
  }

  ghost predicate Next(s: System, s': System) {
    (exists t, pc :: Spawn(s, s', t, pc)) || (exists t :: Step(s, s', t))
  }

  ghost predicate IsRun(run: seq<System>) {
    && run != [] && Initial(run[0])
    && forall i :: 0 <= i < |run| - 1 ==> Next(run[i], run[i + 1])
  }

  // ----- the invariant

  predicate InOnce(pc: PC) {
    pc == CloseCheck || pc == CloseChannel || pc == CloseMark || pc == CloseUnlock
  }

  ghost predicate ThreadOk(s: System, t: nat)
    requires t in s.threads
  {
    var pc := s.threads[t];
    && (InOnce(pc) <==> s.mutex == Some(t))
    && (pc == CloseChannel ==> !s.closed)
    && (pc == CloseMark ==> s.closed)
    && (pc == CloseUnlock ==> s.done)
    && (pc == CloseReturned || pc == Woken || pc == Answered(true) ==> s.closed)
    && (pc == RunFetched ==> t in s.fetched)
    && (t in s.fetched ==> pc == RunFetched || pc == RunDone)
    && (t in s.executed ==> pc == RunDone)
  }

  ghost predicate Inv(s: System) {
    && s.closes == (if s.closed then 1 else 0) && !s.panicked
    && (s.done ==> s.closed)
    && (s.closed ==> s.done || exists t :: t in s.threads && s.threads[t] == CloseMark)
    && (s.mutex.Some? ==> s.mutex.value in s.threads)
    && (forall t :: t in s.threads ==> ThreadOk(s, t))
    && s.executed <= s.fetched && (forall t :: t in s.fetched ==> t in s.threads)
  }

  lemma SpawnKeepsInv(s: System, s': System, t: nat, pc: PC)
    requires Inv(s) && Spawn(s, s', t, pc)
    ensures Inv(s')
  {
    assert forall u :: u in s.threads ==> s'.threads[u] == s.threads[u];
    forall u | u in s'.threads ensures ThreadOk(s', u) {
      assert u != t ==> ThreadOk(s, u);
    }
  }

  lemma StepMovesOne(s: System, s': System, t: nat)
    requires Step(s, s', t)
    ensures s'.threads.Keys == s.threads.Keys && forall u :: u in s.threads && u != t ==> s'.threads[u] == s.threads[u]
  {
  }

  lemma StepRecords(s: System, s': System, t: nat)
    requires Step(s, s', t)
    ensures s'.fetched == s.fetched || (s.threads[t] == RunFetch && s'.fetched == s.fetched + {t})
    ensures s'.executed == s.executed || (s.threads[t] == RunFetched && s'.executed == s.executed + {t})
  {
  }

  lemma StepAfterClose(s: System, s': System, t: nat)
    requires Step(s, s', t) && s.closed
    ensures s'.closed && t in s'.threads
    ensures s'.threads[t] in {RunFetch, RunFetched} ==> s.threads[t] == RunFetch
  {
  }

  lemma StepKeepsThreadOk(s: System, s': System, t: nat, u: nat)
    requires Inv(s) && Step(s, s', t) && u in s.threads
    ensures u in s'.threads && ThreadOk(s', u)
  {
    assert ThreadOk(s, t) && ThreadOk(s, u);
  }

  lemma StepKeepsInv(s: System, s': System, t: nat)
    requires Inv(s) && Step(s, s', t)
    ensures Inv(s')
  {
    assert ThreadOk(s, t);
    hide ThreadOk;
    StepMovesOne(s, s', t);
    StepRecords(s, s', t);
    forall u | u in s'.threads ensures ThreadOk(s', u) {
      StepKeepsThreadOk(s, s', t, u);
    }
    if s'.closed && !s'.done {
      if s.threads[t] == CloseChannel {
        assert s'.threads[t] == CloseMark;
      } else {
        var u :| u in s.threads && s.threads[u] == CloseMark;
        assert s'.threads[u] == CloseMark;
      }
    }
  }

  lemma {:induction false} ReachableInv(run: seq<System>, i: nat)
    requires IsRun(run) && i < |run|
    ensures Inv(run[i])
  {
    if i > 0 {
      ReachableInv(run, i - 1);
      var s, s' := run[i - 1], run[i];
      assert Next(run[i - 1], run[i - 1 + 1]);
      if t, pc :| Spawn(s, s', t, pc) {
        SpawnKeepsInv(s, s', t, pc);
      } else {
        var t :| Step(s, s', t);
        StepKeepsInv(s, s', t);
      }
    }
  }

  // ----- close once

  /** However many goroutines close the channel, it is closed at most once, never with a panic, and it is
      closed whenever some Close has returned, some wait has ended, or some query said so. */
  lemma CloseOnce(run: seq<System>, i: nat, t: nat)
    requires IsRun(run) && i < |run|
    ensures run[i].closes <= 1 && !run[i].panicked && (run[i].closed <==> run[i].closes == 1)
    ensures t in run[i].threads && run[i].threads[t] in {CloseReturned, Woken, Answered(true)} ==> run[i].closed
  {
    ReachableInv(run, i);
    if t in run[i].threads {
      assert ThreadOk(run[i], t);
    }
  }

  lemma {:induction false} ClosedForever(run: seq<System>, i: nat, j: nat)
    requires IsRun(run) && i <= j < |run| && run[i].closed
    ensures run[j].closed
    decreases j
  {
    if i < j {
      ClosedForever(run, i, j - 1);
      assert Next(run[j - 1], run[j - 1 + 1]);
    }
  }

  /** Once some Close has returned, every query answers true and every run that checks ends without a fetch. */
  lemma NoLostClose(run: seq<System>, i: nat, j: nat, closer: nat, t: nat)
    requires IsRun(run) && i <= j < |run| - 1
    requires closer in run[i].threads && run[i].threads[closer] == CloseReturned
    requires Step(run[j], run[j + 1], t)
    ensures run[j].threads[t] == Asking ==> run[j + 1].threads[t] == Answered(true)
    ensures run[j].threads[t] == RunCheck ==> run[j + 1].threads[t] == RunDone
  {
    CloseOnce(run, i, closer);
    ClosedForever(run, i, j);
  }

  /** Once some Close has returned, no waiter is left behind: each of them can step, and its wait ends. */
  lemma NoLostWaiter(run: seq<System>, i: nat, j: nat, closer: nat, t: nat)
    requires IsRun(run) && i <= j < |run|
    requires closer in run[i].threads && run[i].threads[closer] == CloseReturned
    requires t in run[j].threads && run[j].threads[t] == Waiting
    ensures exists s' :: Step(run[j], s', t)
    ensures forall s' :: Step(run[j], s', t) ==> s'.threads[t] == Woken
  {
    CloseOnce(run, i, closer);
    ClosedForever(run, i, j);
    assert Step(run[j], At(run[j], t, Woken), t);
  }

  /** How far a goroutine has come in its own call. */
  function Progress(pc: PC): nat {
    match pc
    case CloseFast => 0
    case CloseLock => 1
    case CloseCheck => 2
    case CloseChannel => 3
    case CloseMark => 4
    case CloseUnlock => 5
    case RunCheck => 0
    case RunFetch => 1
    case RunFetched => 2
    case Asking => 0
    case Waiting => 0
    case _ => 6
  }

  /** Every step leads on: each call ends after at most six steps of its goroutine. */
  lemma StepsLeadOn(s: System, s': System, t: nat)
    requires Step(s, s', t)
    ensures t in s'.threads && Progress(s.threads[t]) < Progress(s'.threads[t]) <= 6
  {
  }

  /** While the channel is open a run that checks goes on to fetch and a query answers false; a run that fetches
      is recorded, and from there it can both end and execute the strategy, whether or not the channel is closed. */
  lemma OpenRunsProceed(s: System, s': System, t: nat)
    requires Step(s, s', t)
    ensures !s.closed && s.threads[t] == RunCheck ==> s'.threads[t] == RunFetch
    ensures !s.closed && s.threads[t] == Asking ==> s'.threads[t] == Answered(false)
    ensures s.threads[t] == RunFetch ==> s'.threads[t] == RunFetched && t in s'.fetched
    ensures s.threads[t] == RunFetched ==>
              && (exists u :: Step(s, u, t) && u.threads[t] == RunDone && u.executed == s.executed + {t})
              && (exists u :: Step(s, u, t) && u.threads[t] == RunDone && u.executed == s.executed)
  {
    if s.threads[t] == RunFetched {
      assert Step(s, At(s, t, RunDone).(executed := s.executed + {t}), t);
      assert Step(s, At(s, t, RunDone), t);
    }
  }

  /** Runs and queries are never blocked. */
  lemma RunsCanStep(s: System, t: nat)
    requires t in s.threads && s.threads[t] in {Asking, RunCheck, RunFetch, RunFetched}
    ensures exists s' :: Step(s, s', t)
  {
    var s' := match s.threads[t]
      case Asking => At(s, t, Answered(s.closed))
      case RunCheck => At(s, t, if s.closed then RunDone else RunFetch)
      case RunFetch => At(s, t, RunFetched).(fetched := s.fetched + {t})
      case _ => At(s, t, RunDone);
    assert Step(s, s', t);
  }

  /** Nobody is stuck: a goroutine inside Close can step, or the one that holds the mutex can. */
  lemma CloseProgresses(run: seq<System>, i: nat, t: nat)
    requires IsRun(run) && i < |run| && t in run[i].threads
    requires run[i].threads[t] == CloseFast || run[i].threads[t] == CloseLock || InOnce(run[i].threads[t])
    ensures exists u, s' :: (u == t || run[i].mutex == Some(u)) && Step(run[i], s', u)
  {
    ReachableInv(run, i);
    var s := run[i];
    var u := if s.threads[t] == CloseLock && s.mutex.Some? then s.mutex.value else t;
    assert ThreadOk(s, u) && ThreadOk(s, t);
    var s' := match s.threads[u]
      case CloseFast => At(s, u, if s.done then CloseReturned else CloseLock)
      case CloseLock => At(s, u, CloseCheck).(mutex := Some(u))
      case CloseCheck => At(s, u, if s.done then CloseUnlock else CloseChannel)
      case CloseChannel =>
        At(s, u, CloseMark).(closed := true, closes := s.closes + 1, panicked := s.panicked || s.closed)
      case CloseMark => At(s, u, CloseUnlock).(done := true)
      case CloseUnlock => At(s, u, CloseReturned).(mutex := None)
      case _ => s;
    assert Step(s, s', u);
  }

  // ----- quiescence

  /** The runs that are past their check and not finished. */
  function PastCheck(s: System): set<nat> {
    set t | t in s.threads && (s.threads[t] == RunFetch || s.threads[t] == RunFetched)
  }

  lemma StepOnlyStartsPastCheck(s: System, s': System)
    requires Next(s, s') && s.closed
    ensures PastCheck(s') <= PastCheck(s)
    ensures s'.executed - s.executed <= PastCheck(s) && s'.fetched - s.fetched <= PastCheck(s)
  {
    if t, pc :| Spawn(s, s', t, pc) {
      assert forall u :: u in s.threads ==> s'.threads[u] == s.threads[u];
    } else {
      var t :| Step(s, s', t);
      hide Step;
      StepMovesOne(s, s', t);
      StepRecords(s, s', t);
      StepAfterClose(s, s', t);
    }
  }

  /** After the channel is closed only runs that had passed their check before still fetch or execute, so
      there are at most as many Execute calls as there were such runs. */
  lemma {:induction false} QuiescenceAfterStop(run: seq<System>, i: nat, j: nat)
    requires IsRun(run) && i <= j < |run| && run[i].closed
    ensures PastCheck(run[j]) <= PastCheck(run[i])
    ensures run[j].executed - run[i].executed <= PastCheck(run[i])
    ensures run[j].fetched - run[i].fetched <= PastCheck(run[i])
    ensures |run[j].executed - run[i].executed| <= |PastCheck(run[i])|
    decreases j
  {
    if i < j {
      QuiescenceAfterStop(run, i, j - 1);
      ClosedForever(run, i, j - 1);
      assert Next(run[j - 1], run[j - 1 + 1]);
      StepOnlyStartsPastCheck(run[j - 1], run[j]);
    }
    SubsetSize(run[j].executed - run[i].executed, PastCheck(run[i]));
  }

  lemma {:induction false} SubsetSize(a: set<nat>, b: set<nat>)
    requires a <= b
    ensures |a| <= |b|
  {
    if x :| x in a {
      SubsetSize(a - {x}, b - {x});
    }
  }
}
