/** When the main loop is certain to get out of its wait for the workers, and when it never does. */
module ProtocolProgress {
  import opened Json
  import opened OutboxSpec
  import opened DispatcherSpec
  import opened Protocol
  import opened ProtocolControl
  import opened ProtocolDelivery

  /** This worker still has a result to post. */
  predicate WillPost(w: Worker) {
    w.HasResult? || (w.Holding? && w.payload.Analytics?)
  }

  function Unposted(ws: seq<Worker>): nat {
    if ws == [] then 0 else Unposted(ws[..|ws| - 1]) + if WillPost(ws[|ws| - 1]) then 1 else 0
  }

  function AnalyticsQueued(flushCh: seq<Payload>): nat {
    if flushCh == [] then 0
    else AnalyticsQueued(flushCh[1..]) + if flushCh[0].Analytics? then 1 else 0
  }

  /** The results already in the channel, plus the analytics payloads in flight whose result is still
      to come. Diagnostic payloads post no result. */
  function Load(s: State): nat {
    |s.resultCh| + AnalyticsQueued(s.flushCh) + Unposted(s.workers)
  }

  function StepsLeft(w: Worker): nat {
    match w
    case Holding(_) => 3
    case HasResult(_) => 2
    case Finishing => 1
    case _ => 0
  }

  function TotalSteps(ws: seq<Worker>): nat {
    if ws == [] then 0 else TotalSteps(ws[..|ws| - 1]) + StepsLeft(ws[|ws| - 1])
  }

  /** A bound on the steps that the workers can still take while nothing more is put on the channel. */
  function Work(s: State): nat {
    4 * |s.flushCh| + TotalSteps(s.workers)
  }

  lemma {:induction false} UnpostedUpdate(ws: seq<Worker>, i: nat, w: Worker)
    requires i < |ws|
    ensures Unposted(ws[i := w]) + (if WillPost(ws[i]) then 1 else 0) == Unposted(ws) + if WillPost(w) then 1 else 0
  {
    var n := |ws| - 1;
    if i < n {
      UnpostedUpdate(ws[..n], i, w);
      assert ws[i := w][..n] == ws[..n][i := w];
    } else {
      assert ws[i := w][..n] == ws[..n];
    }
  }

  lemma {:induction false} TotalStepsUpdate(ws: seq<Worker>, i: nat, w: Worker)
    requires i < |ws|
    ensures TotalSteps(ws[i := w]) + StepsLeft(ws[i]) == TotalSteps(ws) + StepsLeft(w)
  {
    var n := |ws| - 1;
    if i < n {
      TotalStepsUpdate(ws[..n], i, w);
      assert ws[i := w][..n] == ws[..n][i := w];
    } else {
      assert ws[i := w][..n] == ws[..n];
    }
  }

  lemma {:induction false} SomeUnposted(ws: seq<Worker>, i: nat)
    requires i < |ws| && WillPost(ws[i])
    ensures Unposted(ws) > 0
  {
    if i < |ws| - 1 {
      SomeUnposted(ws[..|ws| - 1], i);
    }
  }

  lemma {:induction false} UnpostedAreBusy(ws: seq<Worker>)
    ensures Unposted(ws) <= Busy(ws)
  {
    if ws != [] {
      UnpostedAreBusy(ws[..|ws| - 1]);
    }
  }

  lemma {:induction false} SomeBusyWorker(ws: seq<Worker>) returns (i: nat)
    requires Busy(ws) > 0
    ensures i < |ws| && IsBusy(ws[i])
  {
    if IsBusy(ws[|ws| - 1]) {
      i := |ws| - 1;
    } else {
      i := SomeBusyWorker(ws[..|ws| - 1]);
    }
  }

  /** The main loop is waiting, in a state that satisfies the invariants. */
  predicate InWait(s: State) {
    s.main.Waiting? && Control(s) && AllReal(s.flushCh, s.workers)
  }

  lemma WorkerStepInWait(c: Config, s: State, a: Action)
    requires InWait(s) && Enabled(c, s, a) && ByWorker(a)
    ensures var t := Next(c, s, a);
      InWait(t) && t.main == s.main && Load(t) == Load(s) && Work(t) < Work(s)
  {
    ControlKept(c, s, a);
    match a
    case Receive(i) =>
      UnpostedUpdate(s.workers, i, Holding(s.flushCh[0]));
      TotalStepsUpdate(s.workers, i, Holding(s.flushCh[0]));
      assert WorthSending(s.flushCh[0]);
    case Deliver(i, result) =>
      DeliveryInWait(s, i, result);
    case PostResult(i) =>
      UnpostedUpdate(s.workers, i, Finishing);
      TotalStepsUpdate(s.workers, i, Finishing);
    case Done(i) =>
      UnpostedUpdate(s.workers, i, Idle);
      TotalStepsUpdate(s.workers, i, Idle);
  }

  lemma DeliveryInWait(s: State, i: nat, result: SendResult)
    requires AllReal(s.flushCh, s.workers) && i < |s.workers| && s.workers[i].Holding?
    ensures var t := AfterDelivery(s, i, s.workers[i].payload, result);
      t.main == s.main && AllReal(t.flushCh, t.workers) && Load(t) == Load(s) && Work(t) < Work(s)
  {
    assert WorthSending(s.workers[i].payload);
    var w := if s.workers[i].payload.Diagnostic? then Finishing else HasResult(result);
    UnpostedUpdate(s.workers, i, w);
    TotalStepsUpdate(s.workers, i, w);
  }

  /** In a wait, only workers, clients and the stream processor act, until the wait is over. */
  lemma StepInWait(c: Config, s: State, a: Action)
    requires InWait(s) && Enabled(c, s, a) && !a.FinishWait?
    ensures var t := Next(c, s, a);
      && InWait(t) && t.main == s.main && Load(t) == Load(s)
      && Work(t) + (if ByWorker(a) then 1 else 0) <= Work(s)
  {
    if ByWorker(a) {
      WorkerStepInWait(c, s, a);
    } else {
      ControlKept(c, s, a);
    }
  }

  function WorkerSteps(acts: seq<Action>): nat {
    if acts == [] then 0 else (if ByWorker(acts[0]) then 1 else 0) + WorkerSteps(acts[1..])
  }

  /** A run during which the wait does not end. */
  ghost predicate WaitingRun(c: Config, s: State, acts: seq<Action>, t: State) {
    IsRun(c, s, acts, t) && forall i :: 0 <= i < |acts| ==> !acts[i].FinishWait?
  }

  lemma {:induction false} AlongWait(c: Config, s: State, acts: seq<Action>, t: State)
    requires InWait(s) && WaitingRun(c, s, acts, t)
    ensures InWait(t) && t.main == s.main && Load(t) == Load(s)
    ensures WorkerSteps(acts) + Work(t) <= Work(s)
    decreases |acts|
  {
    if acts != [] {
      assert !acts[0].FinishWait?;
      StepInWait(c, s, acts[0]);
      AlongWait(c, Next(c, s, acts[0]), acts[1..], t);
    }
  }

  /** No worker can do anything. */
  ghost predicate Stalled(c: Config, s: State) {
    forall a :: ByWorker(a) ==> !Enabled(c, s, a)
  }

  lemma WorkersGroupInWait(s: State)
    requires InWait(s)
    ensures s.workersGroup == 0 ==> Load(s) <= MAX_FLUSH_WORKERS
  {
    UnpostedAreBusy(s.workers);
  }

  lemma BusyWorkersGoOn(c: Config, s: State)
    requires InWait(s) && Load(s) <= MAX_FLUSH_WORKERS && Busy(s.workers) > 0
    ensures !Stalled(c, s)
  {
    var i := SomeBusyWorker(s.workers);
    match s.workers[i]
    case Holding(_) => assert Enabled(c, s, Deliver(i, SendResult(false, 0)));
    case HasResult(_) =>
      SomeUnposted(s.workers, i);
      assert Enabled(c, s, PostResult(i));
    case Finishing => assert Enabled(c, s, Done(i));
  }

  lemma QueuedPayloadIsReceived(c: Config, s: State)
    requires InWait(s) && Busy(s.workers) == 0 && s.flushCh != []
    ensures !Stalled(c, s)
  {
    forall i | 0 <= i < |s.workers| ensures s.workers[i].Idle? {
      if IsBusy(s.workers[i]) {
        SomeBusy(s.workers, i);
      }
    }
    assert Enabled(c, s, Receive(0));
  }

  /** As long as there is room for all results, the workers only stop when all is done. */
  lemma StalledMeansDone(c: Config, s: State)
    requires InWait(s) && Load(s) <= MAX_FLUSH_WORKERS && Stalled(c, s)
    ensures s.workersGroup == 0
  {
    if Busy(s.workers) > 0 {
      BusyWorkersGoOn(c, s);
    } else if s.flushCh != [] {
      QueuedPayloadIsReceived(c, s);
    }
  }

  lemma ReachableInWait(c: Config, s: State)
    requires Reachable(c, s) && s.main.Waiting?
    ensures InWait(s)
  {
    ClosingIsSafe(c, s);
    ReachableDelivery(c, s, Diagnostic(Null));
  }

  /** While the main loop waits, whatever clients do and however the workers interleave: the workers take
      at most Work(s) steps; and when none of them can go on, the wait can end if and only if Load(s),
      which nobody can change during the wait, is at most 5. If it is more, the wait group is positive
      in every state to come, so that the main loop stays where it is for ever. */
  lemma WaitEndsIffResultsFit(c: Config, s: State, acts: seq<Action>, t: State)
    requires Reachable(c, s) && s.main.Waiting? && WaitingRun(c, s, acts, t)
    ensures t.main == s.main && WorkerSteps(acts) <= Work(s)
    ensures Load(s) <= MAX_FLUSH_WORKERS && Stalled(c, t) ==> Enabled(c, t, FinishWait)
    ensures Load(s) > MAX_FLUSH_WORKERS ==> t.workersGroup > 0 && !Enabled(c, t, FinishWait)
  {
    ReachableInWait(c, s);
    AlongWait(c, s, acts, t);
    WorkersGroupInWait(t);
    if Load(s) <= MAX_FLUSH_WORKERS && Stalled(c, t) {
      StalledMeansDone(c, t);
    }
  }

  lemma {:induction false} RunToStall(c: Config, s: State) returns (acts: seq<Action>, t: State)
    requires InWait(s)
    ensures WaitingRun(c, s, acts, t) && Stalled(c, t)
    decreases Work(s)
  {
    if Stalled(c, s) {
      acts, t := [], s;
    } else {
      var a :| ByWorker(a) && Enabled(c, s, a);
      WorkerStepInWait(c, s, a);
      var rest;
      rest, t := RunToStall(c, Next(c, s, a));
      acts := [a] + rest;
      assert acts[1..] == rest;
    }
  }

  /** The wait of a reachable state can end at all if and only if there is room for all results. */
  lemma WaitCanEndIff(c: Config, s: State)
    requires Reachable(c, s) && s.main.Waiting?
    ensures Load(s) <= MAX_FLUSH_WORKERS <==>
      exists acts, t :: WaitingRun(c, s, acts, t) && Enabled(c, t, FinishWait)
  {
    ReachableInWait(c, s);
    if Load(s) <= MAX_FLUSH_WORKERS {
      var acts, t := RunToStall(c, s);
      WaitEndsIffResultsFit(c, s, acts, t);
    } else {
      forall acts, t | WaitingRun(c, s, acts, t) ensures !Enabled(c, t, FinishWait) {
        WaitEndsIffResultsFit(c, s, acts, t);
      }
    }
  }

  // ---------- After the shutdown ----------

  function Living(ws: seq<Worker>): nat {
    if ws == [] then 0 else Living(ws[..|ws| - 1]) + if ws[|ws| - 1].Terminated? then 0 else 1
  }

  lemma {:induction false} LivingUpdate(ws: seq<Worker>, i: nat)
    requires i < |ws| && !ws[i].Terminated?
    ensures Living(ws[i := Terminated]) + 1 == Living(ws)
  {
    var n := |ws| - 1;
    if i < n {
      LivingUpdate(ws[..n], i);
      assert ws[i := Terminated][..n] == ws[..n][i := Terminated];
    } else {
      assert ws[i := Terminated][..n] == ws[..n];
    }
  }

  /** Once the main loop has closed the channels, every step of a worker is its last one, nothing else
      changes the workers, and when none of them can go on they have all terminated. */
  lemma AllWorkersTerminate(c: Config, s: State, a: Action)
    requires Reachable(c, s) && s.main.Closed?
    ensures Enabled(c, s, a) && ByWorker(a) ==> a.ReceiveClosed? && Living(Next(c, s, a).workers) + 1 == Living(s.workers)
    ensures Enabled(c, s, a) && !ByWorker(a) ==> Next(c, s, a).workers == s.workers
    ensures Enabled(c, s, a) ==> Next(c, s, a).main.Closed?
    ensures Stalled(c, s) ==> forall i :: 0 <= i < |s.workers| ==> s.workers[i].Terminated?
  {
    ClosingIsSafe(c, s);
    if Enabled(c, s, a) && a.ReceiveClosed? {
      LivingUpdate(s.workers, a.i);
    }
    if Stalled(c, s) {
      forall i | 0 <= i < |s.workers| ensures s.workers[i].Terminated? {
        if s.workers[i].Idle? {
          assert Enabled(c, s, ReceiveClosed(i));
        }
      }
    }
  }
}
