/** The accounting of the wait group, and the safety of closing the channels. */
module ProtocolControl {
  import opened DispatcherSpec
  import opened Protocol

  predicate IsBusy(w: Worker) {
    w.Holding? || w.HasResult? || w.Finishing?
  }

  /** The number of workers between receiving a payload and counting it as done. */
  function Busy(ws: seq<Worker>): nat {
    if ws == [] then 0 else Busy(ws[..|ws| - 1]) + if IsBusy(ws[|ws| - 1]) then 1 else 0
  }

  /** The main loop has counted a payload that is not on the channel. */
  function MidAdd(m: MainLoop): nat {
    if m.Flushing? || m.SendingDiagnostics? || m.Refused? then 1 else 0
  }

  predicate Control(s: State) {
    && |s.workers| == MAX_FLUSH_WORKERS
    && |s.flushCh| <= FLUSH_CHANNEL_CAPACITY
    && |s.resultCh| <= MAX_FLUSH_WORKERS
    && s.workersGroup == |s.flushCh| + Busy(s.workers) + MidAdd(s.main)
    && !s.panicked
    && s.flushChClosed == s.resultChClosed == s.main.Closed?
    && (s.main.Closed? ==> s.flushCh == [] && Busy(s.workers) == 0)
    && (forall i :: 0 <= i < |s.workers| && s.workers[i].Terminated? ==> s.main.Closed?)
    && (s.main.Flushing? || s.main.Sent? ==> s.main.payload.Analytics?)
    && (s.main.StartingDiagnostics? || s.main.SendingDiagnostics? ==> s.main.payload.Diagnostic?)
  }

  lemma {:induction false} BusyUpdate(ws: seq<Worker>, i: nat, w: Worker)
    requires i < |ws|
    ensures Busy(ws[i := w]) + (if IsBusy(ws[i]) then 1 else 0) == Busy(ws) + if IsBusy(w) then 1 else 0
  {
    var n := |ws| - 1;
    if i < n {
      BusyUpdate(ws[..n], i, w);
      assert ws[i := w][..n] == ws[..n][i := w];
    } else {
      assert ws[i := w][..n] == ws[..n];
    }
  }

  lemma {:induction false} SomeBusy(ws: seq<Worker>, i: nat)
    requires i < |ws| && IsBusy(ws[i])
    ensures Busy(ws) > 0
  {
    if i < |ws| - 1 {
      SomeBusy(ws[..|ws| - 1], i);
    }
  }

  lemma {:induction false} NoneBusy(ws: seq<Worker>)
    requires forall i :: 0 <= i < |ws| ==> !IsBusy(ws[i])
    ensures Busy(ws) == 0
  {
    if ws != [] {
      NoneBusy(ws[..|ws| - 1]);
    }
  }

  lemma ControlAtStart(c: Config, s: State)
    requires Init(c, s)
    ensures Control(s)
  {
    NoneBusy(s.workers);
  }

  lemma ReceiveKeepsControl(c: Config, s: State, i: nat)
    requires Control(s) && Enabled(c, s, Receive(i))
    ensures Control(Next(c, s, Receive(i)))
  {
    BusyUpdate(s.workers, i, Holding(s.flushCh[0]));
  }

  lemma DeliverKeepsControl(c: Config, s: State, i: nat, result: SendResult)
    requires Control(s) && Enabled(c, s, Deliver(i, result))
    ensures Control(Next(c, s, Deliver(i, result)))
  {
    BusyUpdate(s.workers, i, Finishing);
    BusyUpdate(s.workers, i, HasResult(result));
  }

  lemma WorkerStartKeepsControl(c: Config, s: State, a: Action)
    requires Control(s) && Enabled(c, s, a)
    requires a.Receive? || a.ReceiveClosed? || a.Deliver?
    ensures Control(Next(c, s, a))
  {
    match a
    case Receive(i) => ReceiveKeepsControl(c, s, i);
    case ReceiveClosed(i) => BusyUpdate(s.workers, i, Terminated);
    case Deliver(i, result) => DeliverKeepsControl(c, s, i, result);
  }

  lemma WorkerEndKeepsControl(c: Config, s: State, a: Action)
    requires Control(s) && Enabled(c, s, a)
    requires a.PostResult? || a.Done?
    ensures Control(Next(c, s, a))
  {
    match a
    case PostResult(i) =>
      SomeBusy(s.workers, i);
      BusyUpdate(s.workers, i, Finishing);
    case Done(i) =>
      SomeBusy(s.workers, i);
      BusyUpdate(s.workers, i, Idle);
  }

  lemma MessageKeepsControl(c: Config, s: State, m: Message, chance: Chance)
    requires Control(s) && s.main.Running?
    ensures Control(Handle(c, s, m, chance))
  {
  }

  lemma TakeKeepsControl(c: Config, s: State, chance: Chance)
    requires Control(s) && Enabled(c, s, Take(chance))
    ensures Control(Next(c, s, Take(chance)))
  {
    MessageKeepsControl(c, s.(inbox := s.inbox[1..], h := s.h.(taken := s.h.taken + [s.inbox[0]])), s.inbox[0], chance);
  }

  lemma HandOverKeepsControl(c: Config, s: State, m: Message, chance: Chance)
    requires Control(s) && Enabled(c, s, HandOver(m, chance))
    ensures Control(Next(c, s, HandOver(m, chance)))
  {
    MessageKeepsControl(c, s.(h := s.h.(posted := s.h.posted + [m], taken := s.h.taken + [m])), m, chance);
  }

  lemma TicksKeepControl(c: Config, s: State, a: Action)
    requires Control(s) && Enabled(c, s, a) && (a.TakeResult? || a.FlushTick? || a.KeysTick? || a.StatsTick?)
    ensures Control(Next(c, s, a))
  {
    match a
    case TakeResult =>
    case FlushTick =>
    case KeysTick =>
    case StatsTick(_) =>
  }

  lemma FlushingKeepsControl(c: Config, s: State, a: Action)
    requires Control(s) && Enabled(c, s, a)
    requires a.StartDiagnostics? || a.TrySend? || a.ClearOutbox? || a.UndoAdd? || a.FinishWait?
    ensures Control(Next(c, s, a))
  {
    match a
    case StartDiagnostics =>
    case TrySend =>
    case ClearOutbox =>
    case UndoAdd =>
    case FinishWait =>
  }

  lemma ControlKept(c: Config, s: State, a: Action)
    requires Control(s) && Enabled(c, s, a)
    ensures Control(Next(c, s, a))
  {
    match a
    case Take(chance) => TakeKeepsControl(c, s, chance);
    case HandOver(m, chance) => HandOverKeepsControl(c, s, m, chance);
    case Receive(_) => WorkerStartKeepsControl(c, s, a);
    case ReceiveClosed(_) => WorkerStartKeepsControl(c, s, a);
    case Deliver(_, _) => WorkerStartKeepsControl(c, s, a);
    case PostResult(_) => WorkerEndKeepsControl(c, s, a);
    case Done(_) => WorkerEndKeepsControl(c, s, a);
    case Post(_) =>
    case StreamInitialized(_) =>
    case TakeResult => TicksKeepControl(c, s, a);
    case FlushTick => TicksKeepControl(c, s, a);
    case KeysTick => TicksKeepControl(c, s, a);
    case StatsTick(_) => TicksKeepControl(c, s, a);
    case _ => FlushingKeepsControl(c, s, a);
  }

  lemma {:induction false} ControlAlong(c: Config, s: State, acts: seq<Action>, t: State)
    requires Control(s) && IsRun(c, s, acts, t)
    ensures Control(t)
    decreases |acts|
  {
    if acts != [] {
      ControlKept(c, s, acts[0]);
      ControlAlong(c, Next(c, s, acts[0]), acts[1..], t);
    }
  }

  /** In every reachable state of every interleaving: the wait group counts exactly the payloads on the
      channel, the busy workers and a payload about to be sent; nothing has panicked (no send on or
      second close of a closed channel, no negative wait group); and once the channels are closed,
      nothing is queued and no worker has a payload or a result left. */
  lemma ClosingIsSafe(c: Config, s: State)
    requires Reachable(c, s)
    ensures Control(s)
    ensures !s.panicked && s.workersGroup == |s.flushCh| + Busy(s.workers) + MidAdd(s.main)
    ensures s.main.Closed? ==> s.flushCh == [] && forall i :: 0 <= i < |s.workers| ==> !IsBusy(s.workers[i])
  {
    var s0, acts :| Init(c, s0) && IsRun(c, s0, acts, s);
    ControlAtStart(c, s0);
    ControlAlong(c, s0, acts, s);
    if s.main.Closed? {
      forall i | 0 <= i < |s.workers| ensures !IsBusy(s.workers[i]) {
        if IsBusy(s.workers[i]) {
          SomeBusy(s.workers, i);
        }
      }
    }
  }
}
