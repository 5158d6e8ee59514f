/** Things that do happen: a wait that never ends (five workers with a payload each, a sixth one on the
    channel, and then a blocking flush), a blocking flush that leaves the outbox as it was, a close that
    loses what was in it, and a statistics event that is lost. */
module ProtocolStuck {
  import opened Wrappers
  import opened Json
  import opened Events
  import opened OutboxSpec
  import opened DispatcherSpec
  import opened Protocol
  import opened ProtocolProgress
  import opened Diagnostics

  const ANY_EVENT := Evaluated(Evaluation(0, Context("key", []), "flag", None, None, Null, Null, false, 0, false, false))
  const ANY_CHANCE := Chance(false, false, 0)

  /** The first n workers have an analytics payload; the others, the outbox and the channels are empty. */
  predicate Occupied(s: State, n: nat) {
    && n <= |s.workers| == MAX_FLUSH_WORKERS
    && (forall i :: 0 <= i < n ==> s.workers[i].Holding? && s.workers[i].payload.Analytics?)
    && (forall i :: n <= i < |s.workers| ==> s.workers[i].Idle?)
    && s.main.Running? && s.inbox == [] && s.resultCh == []
    && !s.d.disabled && !SomethingToFlush(s.d)
  }

  lemma SummaryAfterEvent(c: Config, d: Dispatcher)
    requires !d.disabled
    ensures SomethingToFlush(Process(c, d, ANY_EVENT, ANY_CHANCE)) && !Process(c, d, ANY_EVENT, ANY_CHANCE).disabled
  {
    ProcessKeeps(c, d, ANY_EVENT, ANY_CHANCE);
    ProcessEffect(c, d, ANY_EVENT, ANY_CHANCE);
    assert "flag" in Process(c, d, ANY_EVENT, ANY_CHANCE).outbox.summary.flags.Keys;
  }

  lemma FlushGoesThrough(c: Config, s1: State, s2: State, s3: State, t: State)
    requires s1.main.Running? && !s1.d.disabled && SomethingToFlush(s1.d) && s1.flushCh == [] && s2 == Next(c, s1, FlushTick)
    requires Enabled(c, s2, TrySend) && s3 == Next(c, s2, TrySend)
    requires Enabled(c, s3, ClearOutbox) && t == Next(c, s3, ClearOutbox)
    ensures t.main.Running? && t.workers == s1.workers && t.inbox == s1.inbox && t.resultCh == s1.resultCh
    ensures |t.flushCh| == 1 && t.flushCh[0].Analytics? && !t.d.disabled && !SomethingToFlush(t.d)
  {
  }

  lemma FlushEnabled(c: Config, s1: State)
    requires s1.main.Running? && !s1.d.disabled && SomethingToFlush(s1.d) && s1.flushCh == []
    ensures var s2 := Next(c, s1, FlushTick);
      Enabled(c, s2, TrySend) && Enabled(c, Next(c, s2, TrySend), ClearOutbox)
  {
  }

  lemma EventArrives(c: Config, s: State, s1: State)
    requires s.main.Running? && s.inbox == [] && !s.d.disabled
    requires s1 == Next(c, s, HandOver(SendEvent(ANY_EVENT), ANY_CHANCE))
    ensures s1.main.Running? && s1.inbox == [] && !s1.d.disabled && SomethingToFlush(s1.d)
    ensures s1.workers == s.workers && s1.flushCh == s.flushCh && s1.resultCh == s.resultCh
  {
    SummaryAfterEvent(c, s.d);
  }

  /** An evaluation arrives and is flushed. */
  lemma OneFlush(c: Config, s: State, n: nat) returns (acts: seq<Action>, t: State)
    requires Occupied(s, n) && s.flushCh == []
    ensures IsRun(c, s, acts, t)
    ensures Occupied(t, n) && t.workers == s.workers
    ensures |t.flushCh| == 1 && t.flushCh[0].Analytics?
  {
    var s1 := Next(c, s, HandOver(SendEvent(ANY_EVENT), ANY_CHANCE));
    EventArrives(c, s, s1);
    FlushEnabled(c, s1);
    var s2 := Next(c, s1, FlushTick);
    var s3 := Next(c, s2, TrySend);
    t := Next(c, s3, ClearOutbox);
    FlushGoesThrough(c, s1, s2, s3, t);
    acts := [HandOver(SendEvent(ANY_EVENT), ANY_CHANCE), FlushTick, TrySend, ClearOutbox];
    RunOfFour(c, s, acts, s1, s2, s3, t);
  }

  lemma RunOfFour(c: Config, s: State, acts: seq<Action>, s1: State, s2: State, s3: State, t: State)
    requires |acts| == 4
    requires Enabled(c, s, acts[0]) && s1 == Next(c, s, acts[0])
    requires Enabled(c, s1, acts[1]) && s2 == Next(c, s1, acts[1])
    requires Enabled(c, s2, acts[2]) && s3 == Next(c, s2, acts[2])
    requires Enabled(c, s3, acts[3]) && t == Next(c, s3, acts[3])
    ensures IsRun(c, s, acts, t)
  {
    RunOfOne(c, s3, acts[3]);
    assert acts[2..] == [acts[2]] + [acts[3]];
    RunOfOne(c, s2, acts[2]);
    RunsConcatenate(c, s2, [acts[2]], s3, [acts[3]], t);
    RunOfOne(c, s1, acts[1]);
    RunsConcatenate(c, s1, [acts[1]], s2, acts[2..], t);
    RunOfOne(c, s, acts[0]);
    RunsConcatenate(c, s, [acts[0]], s1, [acts[1]] + acts[2..], t);
    assert acts == [acts[0]] + ([acts[1]] + acts[2..]);
  }

  lemma RunOfOne(c: Config, s: State, a: Action)
    requires Enabled(c, s, a)
    ensures IsRun(c, s, [a], Next(c, s, a))
  {
    assert [a][1..] == [];
  }

  /** A flush after which a worker takes the payload. */
  lemma OccupyOneMore(c: Config, s: State, n: nat) returns (acts: seq<Action>, t: State)
    requires Occupied(s, n) && s.flushCh == [] && n < MAX_FLUSH_WORKERS
    ensures IsRun(c, s, acts, t)
    ensures Occupied(t, n + 1) && t.flushCh == []
  {
    var flushed;
    acts, flushed := OneFlush(c, s, n);
    t := Next(c, flushed, Receive(n));
    RunOfOne(c, flushed, Receive(n));
    RunsConcatenate(c, s, acts, flushed, [Receive(n)], t);
    acts := acts + [Receive(n)];
  }

  function StartOf(c: Config): State {
    State([], if HasManager(c) then StartingDiagnostics(InitPayloads(c)[0]) else Running, INITIAL, Pending(0, []),
          [], false, [], false, 0, [Idle, Idle, Idle, Idle, Idle], false, NoHistory(0, InitPayloads(c)))
  }

  /** The init event finds the channel empty. */
  lemma InitEventPlaced(c: Config) returns (acts: seq<Action>, t: State)
    requires HasManager(c)
    ensures Init(c, StartOf(c)) && IsRun(c, StartOf(c), acts, t)
    ensures Occupied(t, 0) && t.flushCh == InitPayloads(c)
  {
    var s1 := Next(c, StartOf(c), StartDiagnostics);
    t := Next(c, s1, TrySend);
    RunOfOne(c, StartOf(c), StartDiagnostics);
    RunOfOne(c, s1, TrySend);
    acts := [StartDiagnostics] + [TrySend];
    RunsConcatenate(c, StartOf(c), [StartDiagnostics], s1, [TrySend], t);
  }

  lemma FirstWorkerSends(c: Config, s: State, s1: State, s2: State, t: State)
    requires Occupied(s, 0) && |s.flushCh| == 1 && s.flushCh[0].Diagnostic?
    requires s1 == Next(c, s, Receive(0))
    requires s2 == AfterDelivery(s1, 0, s.flushCh[0], SendResult(false, 0))
    requires Enabled(c, s2, Done(0)) && t == Next(c, s2, Done(0))
    ensures Occupied(t, 0) && t.flushCh == []
  {
  }

  /** A worker sends it. */
  lemma InitEventSent(c: Config, s: State) returns (acts: seq<Action>, t: State)
    requires Occupied(s, 0) && |s.flushCh| == 1 && s.flushCh[0].Diagnostic?
    ensures IsRun(c, s, acts, t)
    ensures Occupied(t, 0) && t.flushCh == []
  {
    var receive, deliver, done := Receive(0), Deliver(0, SendResult(false, 0)), Done(0);
    var s1 := Next(c, s, receive);
    var s2 := Next(c, s1, deliver);
    t := Next(c, s2, done);
    FirstWorkerSends(c, s, s1, s2, t);
    RunOfOne(c, s, receive);
    RunOfOne(c, s1, deliver);
    RunOfOne(c, s2, done);
    RunsConcatenate(c, s, [receive], s1, [deliver], s2);
    RunsConcatenate(c, s, [receive] + [deliver], s2, [done], t);
    acts := [receive] + [deliver] + [done];
  }

  lemma QuietStart(c: Config) returns (t: State)
    ensures Reachable(c, t) && Occupied(t, 0) && t.flushCh == []
  {
    if HasManager(c) {
      var acts, s := InitEventPlaced(c);
      var more;
      more, t := InitEventSent(c, s);
      RunsConcatenate(c, StartOf(c), acts, s, more, t);
    } else {
      t := StartOf(c);
      assert Init(c, t) && IsRun(c, t, [], t);
    }
  }

  lemma {:induction false} OccupyAll(c: Config, n: nat) returns (t: State)
    requires n <= MAX_FLUSH_WORKERS
    ensures Reachable(c, t) && Occupied(t, n) && t.flushCh == []
  {
    if n == 0 {
      t := QuietStart(c);
    } else {
      var before := OccupyAll(c, n - 1);
      var more;
      more, t := OccupyOneMore(c, before, n - 1);
      ReachableLater(c, before, more, t);
    }
  }

  /** All workers but the first n are idle, and the channel holds the payload of a flush. */
  lemma FullChannel(c: Config, n: nat) returns (t: State)
    requires n <= MAX_FLUSH_WORKERS
    ensures Reachable(c, t) && Occupied(t, n) && |t.flushCh| == 1 && t.flushCh[0].Analytics?
  {
    var s := OccupyAll(c, n);
    var acts;
    acts, t := OneFlush(c, s, n);
    ReachableLater(c, s, acts, t);
  }

  lemma {:induction false} AllWillPost(ws: seq<Worker>)
    requires forall i :: 0 <= i < |ws| ==> WillPost(ws[i])
    ensures Unposted(ws) == |ws|
  {
    if ws != [] {
      AllWillPost(ws[..|ws| - 1]);
    }
  }

  lemma FullLoad(s: State)
    requires |s.workers| == MAX_FLUSH_WORKERS && forall i :: 0 <= i < |s.workers| ==> WillPost(s.workers[i])
    requires |s.flushCh| == 1 && s.flushCh[0].Analytics? && s.resultCh == []
    ensures Load(s) == MAX_FLUSH_WORKERS + 1
  {
    AllWillPost(s.workers);
    assert AnalyticsQueued(s.flushCh[1..]) == 0;
  }

  /** The main loop waits for a flush, all workers hold an analytics payload, a sixth one is on the
      channel, and the wait never ends. */
  ghost predicate WaitsForEver(c: Config, s: State) {
    && s.main == Waiting(ForFlush(true))
    && |s.workers| == MAX_FLUSH_WORKERS
    && (forall i :: 0 <= i < |s.workers| ==> s.workers[i].Holding? && s.workers[i].payload.Analytics?)
    && |s.flushCh| == 1 && s.flushCh[0].Analytics?
    && forall acts, t :: WaitingRun(c, s, acts, t) ==> !Enabled(c, t, FinishWait)
  }

  /** With any configuration, a state is reachable in which the main loop waits for
      the workers and will never stop waiting. */
  lemma AWaitThatNeverEnds(c: Config)
    ensures exists s :: Reachable(c, s) && WaitsForEver(c, s)
  {
    var queued := FullChannel(c, MAX_FLUSH_WORKERS);
    var last := HandOver(Flush(true), ANY_CHANCE);
    var s := Next(c, queued, last);
    assert s.workers == queued.workers && s.flushCh == queued.flushCh && s.resultCh == [];
    RunOfOne(c, queued, last);
    ReachableLater(c, queued, [last], s);
    FullLoad(s);
    forall acts, t | WaitingRun(c, s, acts, t) ensures !Enabled(c, t, FinishWait) {
      WaitEndsIffResultsFit(c, s, acts, t);
    }
    assert Reachable(c, s) && WaitsForEver(c, s);
  }

  lemma SecondFlushIsRefused(c: Config, s: State) returns (acts: seq<Action>, t: State)
    requires Occupied(s, 0) && |s.flushCh| == 1
    ensures IsRun(c, s, acts, t) && t.main == Waiting(ForFlush(false)) && !t.d.disabled
    ensures SomethingToFlush(t.d) && t.workers == s.workers && t.flushCh == s.flushCh && t.resultCh == s.resultCh
  {
    var s1 := Next(c, s, HandOver(SendEvent(ANY_EVENT), ANY_CHANCE));
    EventArrives(c, s, s1);
    var s2 := Next(c, s1, HandOver(Flush(true), ANY_CHANCE));
    var s3 := Next(c, s2, TrySend);
    t := Next(c, s3, UndoAdd);
    acts := [HandOver(SendEvent(ANY_EVENT), ANY_CHANCE), HandOver(Flush(true), ANY_CHANCE), TrySend, UndoAdd];
    RunOfFour(c, s, acts, s1, s2, s3, t);
  }

  lemma {:induction false} NoneWillPost(ws: seq<Worker>)
    requires forall i :: 0 <= i < |ws| ==> ws[i].Idle?
    ensures Unposted(ws) == 0
  {
    if ws != [] {
      NoneWillPost(ws[..|ws| - 1]);
    }
  }

  lemma LightLoad(s: State)
    requires forall i :: 0 <= i < |s.workers| ==> s.workers[i].Idle?
    requires |s.flushCh| == 1 && s.resultCh == []
    ensures Load(s) <= 1
  {
    NoneWillPost(s.workers);
    assert AnalyticsQueued(s.flushCh[1..]) == 0;
  }

  ghost predicate WillReplyWithoutSending(c: Config, s: State) {
    && s.main == Waiting(ForFlush(false)) && !s.d.disabled && SomethingToFlush(s.d)
    && exists acts, t :: WaitingRun(c, s, acts, t) && Enabled(c, t, FinishWait)
  }

  /** With any configuration, a blocking flush can be replied to although what was in the outbox when it
      was asked for is still there: the worker has not yet taken the payload of the flush before. */
  lemma AFlushThatDeliversNothing(c: Config)
    ensures exists s :: Reachable(c, s) && WillReplyWithoutSending(c, s)
  {
    var queued := FullChannel(c, 0);
    var acts, s := SecondFlushIsRefused(c, queued);
    ReachableLater(c, queued, acts, s);
    LightLoad(s);
    WaitCanEndIff(c, s);
    assert Reachable(c, s) && WillReplyWithoutSending(c, s);
  }

  /** An event, and a flush message like that of Close. */
  lemma CloseFlushes(c: Config, s: State) returns (acts: seq<Action>, t: State)
    requires Occupied(s, 0) && |s.flushCh| == 1
    ensures IsRun(c, s, acts, t) && t.main.Flushing? && !t.main.replies && !t.d.disabled && SomethingToFlush(t.d)
    ensures t.inbox == [] && t.workers == s.workers && t.flushCh == s.flushCh && t.resultCh == s.resultCh
    ensures t.h.taken != [] && t.h.taken[|t.h.taken| - 1] == Flush(false)
  {
    var s1 := Next(c, s, HandOver(SendEvent(ANY_EVENT), ANY_CHANCE));
    EventArrives(c, s, s1);
    t := Next(c, s1, HandOver(Flush(false), ANY_CHANCE));
    RunOfOne(c, s, HandOver(SendEvent(ANY_EVENT), ANY_CHANCE));
    RunOfOne(c, s1, HandOver(Flush(false), ANY_CHANCE));
    acts := [HandOver(SendEvent(ANY_EVENT), ANY_CHANCE)] + [HandOver(Flush(false), ANY_CHANCE)];
    RunsConcatenate(c, s, [HandOver(SendEvent(ANY_EVENT), ANY_CHANCE)], s1, [HandOver(Flush(false), ANY_CHANCE)], t);
  }

  /** The send is refused, and the shutdown message is handled next. */
  lemma ShutdownAfterRefusal(c: Config, s: State) returns (acts: seq<Action>, t: State)
    requires s.main.Flushing? && !s.main.replies && |s.flushCh| == 1 && s.inbox == []
    ensures IsRun(c, s, acts, t) && t.main == Waiting(ForShutdown) && t.d == s.d
    ensures t.workers == s.workers && t.flushCh == s.flushCh && t.resultCh == s.resultCh
    ensures t.h.taken == s.h.taken + [Shutdown] && acts != [] && acts[0] == TrySend
  {
    var s1 := Next(c, s, TrySend);
    var s2 := Next(c, s1, UndoAdd);
    t := Next(c, s2, HandOver(Shutdown, ANY_CHANCE));
    RunOfOne(c, s, TrySend);
    RunOfOne(c, s1, UndoAdd);
    RunOfOne(c, s2, HandOver(Shutdown, ANY_CHANCE));
    RunsConcatenate(c, s, [TrySend], s1, [UndoAdd], s2);
    acts := [TrySend] + [UndoAdd] + [HandOver(Shutdown, ANY_CHANCE)];
    RunsConcatenate(c, s, [TrySend] + [UndoAdd], s2, [HandOver(Shutdown, ANY_CHANCE)], t);
  }

  lemma {:induction false} DispatcherInWait(c: Config, s: State, acts: seq<Action>, t: State)
    requires s.main.Waiting? && WaitingRun(c, s, acts, t)
    ensures t.main == s.main && t.d == s.d && t.h.taken == s.h.taken
    decreases |acts|
  {
    if acts != [] {
      assert !acts[0].FinishWait?;
      if ByWorker(acts[0]) {
        WorkerLeavesMain(c, s, acts[0]);
      }
      DispatcherInWait(c, Next(c, s, acts[0]), acts[1..], t);
    }
  }

  /** The wait for the workers comes to an end, and the main loop is closed. */
  lemma CloseEnds(c: Config, s: State) returns (acts: seq<Action>, t: State)
    requires Reachable(c, s) && s.main == Waiting(ForShutdown) && |s.flushCh| == 1 && s.resultCh == []
    requires forall i :: 0 <= i < |s.workers| ==> s.workers[i].Idle?
    ensures IsRun(c, s, acts, t) && t.main.Closed? && t.d == s.d && t.h.taken == s.h.taken
  {
    LightLoad(s);
    WaitCanEndIff(c, s);
    var more, u :| WaitingRun(c, s, more, u) && Enabled(c, u, FinishWait);
    DispatcherInWait(c, s, more, u);
    t := Next(c, u, FinishWait);
    RunOfOne(c, u, FinishWait);
    RunsConcatenate(c, s, more, u, [FinishWait], t);
    acts := more + [FinishWait];
  }

  /** In s the main loop has taken the flush message of Close and tries to send what is in the outbox, while
      the channel is full; the next message it takes is the shutdown message. In t it has replied to that and
      closed the channels, and the processor is enabled and has something left in the outbox. */
  ghost predicate CloseLosesEvents(c: Config, s: State, acts: seq<Action>, t: State) {
    && s.h.taken != [] && s.h.taken[|s.h.taken| - 1] == Flush(false)
    && s.main.Flushing? && |s.flushCh| == FLUSH_CHANNEL_CAPACITY
    && IsRun(c, s, acts, t) && acts != [] && acts[0] == TrySend
    && t.h.taken == s.h.taken + [Shutdown]
    && t.main.Closed? && !t.d.disabled && SomethingToFlush(t.d)
  }

  /** With any configuration, Close can come back with events unsent: its flush message finds the channel
      full, its shutdown message is handled next, and the workers only get to what was on the channel. */
  lemma ACloseThatLosesEvents(c: Config)
    ensures exists s, acts, t :: Reachable(c, s) && CloseLosesEvents(c, s, acts, t)
  {
    var queued := FullChannel(c, 0);
    var before, s := CloseFlushes(c, queued);
    ReachableLater(c, queued, before, s);
    var first, waiting := ShutdownAfterRefusal(c, s);
    ReachableLater(c, s, first, waiting);
    var second, t := CloseEnds(c, waiting);
    RunsConcatenate(c, s, first, waiting, second, t);
    assert Reachable(c, s) && CloseLosesEvents(c, s, first + second, t);
  }

  /** The latest statistics event found no room on the channel, and it had a stream init to report. */
  predicate LosesStatistics(h: History) {
    && h.stats != [] && h.stats[|h.stats| - 1].streamInits != []
    && h.diagnosticsTried != []
    && h.diagnosticsTried[|h.diagnosticsTried| - 1] == Attempt(Diagnostic(StatsJson(h.stats[|h.stats| - 1])), false)
  }

  lemma RefusedStatistics(c: Config, s: State) returns (acts: seq<Action>, t: State)
    requires HasManager(c) && s.main.Running? && |s.flushCh| == 1
    ensures IsRun(c, s, acts, t) && LosesStatistics(t.h)
  {
    var s1 := Next(c, s, StreamInitialized(StreamInit(0, false, 0)));
    var s2 := Next(c, s1, StatsTick(0));
    var s3 := Next(c, s2, StartDiagnostics);
    t := Next(c, s3, TrySend);
    acts := [StreamInitialized(StreamInit(0, false, 0)), StatsTick(0), StartDiagnostics, TrySend];
    RunOfFour(c, s, acts, s1, s2, s3, t);
  }

  /** With any configuration that has a diagnostics manager, a statistics event can be lost with what it
      reports. */
  lemma AStatisticsEventIsLost(c: Config)
    requires HasManager(c)
    ensures exists s :: Reachable(c, s) && LosesStatistics(s.h)
  {
    var queued := FullChannel(c, 0);
    var acts, s := RefusedStatistics(c, queued);
    ReachableLater(c, queued, acts, s);
    assert Reachable(c, s) && LosesStatistics(s.h);
  }
}
