/** The main loop, the flush workers and the channels between them, as a transition system.
    The choice among several ready channels is left open, as it is in a Go select. */
module Protocol {
  import opened Wrappers
  import opened Events
  import opened OutboxSpec
  import opened DispatcherSpec
  import Diagnostics

  const MAX_FLUSH_WORKERS := 5
  const FLUSH_CHANNEL_CAPACITY := 1

  datatype Message =
    | SendEvent(evt: Input)
    | Flush(replies: bool)
    | Sync
    | Shutdown

  /** What the main loop is waiting for the workers for. A flush has drained the outbox if it was
      handled while enabled and its payload was taken, or there was nothing in the outbox. */
  datatype Wait = ForFlush(drained: bool) | ForSync | ForShutdown

  datatype MainLoop =
    | Running
    | Flushing(payload: Payload, replies: bool)      // counted in the wait group, not sent yet
    | Sent(payload: Payload, replies: bool)          // sent, outbox not cleared yet
    | StartingDiagnostics(payload: Payload)
    | SendingDiagnostics(payload: Payload)           // counted in the wait group, not sent yet
    | Refused(replies: bool)                         // the channel was full, still counted
    | Waiting(reason: Wait)
    | Closed

  datatype Worker =
    | Idle
    | Holding(payload: Payload)
    | HasResult(result: SendResult)
    | Finishing
    | Terminated

  /** A payload placed on the flush channel, with the evaluations summarized in it. */
  datatype Placed = Placed(payload: Payload, evals: seq<Evaluation>)

  /** The send of a diagnostic payload, and whether the channel had room for it. */
  datatype Attempt = Attempt(payload: Payload, placed: bool)

  /** What has happened so far. */
  datatype History = History(
    posted: seq<Message>,               // put into the inbox
    taken: seq<Message>,                // taken from the inbox
    replied: seq<Message>,              // those that a reply was sent to
    processed: seq<Input>,              // events processed while enabled
    offered: seq<Output>,               // offered to the outbox
    accepted: seq<Output>,              // taken by the outbox
    summarized: seq<Evaluation>,        // given to the summarizer
    sinceCleared: seq<Evaluation>,      // given to it since the outbox was last cleared
    placed: seq<Placed>,                // put on the flush channel
    received: seq<Payload>,             // taken from it by workers
    sent: seq<Payload>,                 // passed to SendEventData
    returned: seq<SendResult>,          // what it returned for analytics payloads
    results: seq<SendResult>,           // those that the main loop has taken
    discarded: seq<Output>,             // in the outbox when the server shut the processor down
    discardedEvals: seq<Evaluation>,
    dropped: nat,                       // refused by the outbox
    deduplicated: nat,                  // references to a context whose key was still in the cache
    started: Time,                      // start of the first statistics window
    stats: seq<Diagnostics.StatsEvent>,
    inits: seq<Diagnostics.StreamInit>,
    diagnosticsMade: seq<Payload>,      // the init event, if any, and the statistics events
    diagnosticsTried: seq<Attempt>,     // those for which a send was tried
    batch: Option<Payload>,             // the latest analytics payload put on the channel, unless there was
                                        // nothing to flush or a statistics event since
    batches: seq<Option<Payload>>)      // the same, at each statistics event

  datatype State = State(
    inbox: seq<Message>,
    main: MainLoop,
    d: Dispatcher,
    diagnostics: Diagnostics.Pending,
    flushCh: seq<Payload>,
    flushChClosed: bool,
    resultCh: seq<SendResult>,
    resultChClosed: bool,
    workersGroup: int,
    workers: seq<Worker>,
    panicked: bool,
    h: History)

  datatype Action =
    // clients and the stream processor
    | Post(m: Message)
    | StreamInitialized(init: Diagnostics.StreamInit)
    // the main loop
    | Take(chance: Chance)
    | HandOver(m: Message, chance: Chance)
    | TakeResult
    | FlushTick
    | KeysTick
    | StatsTick(now: Time)
    | StartDiagnostics
    | TrySend
    | ClearOutbox
    | UndoAdd
    | FinishWait
    // worker i
    | Receive(i: nat)
    | ReceiveClosed(i: nat)
    | Deliver(i: nat, result: SendResult)
    | PostResult(i: nat)
    | Done(i: nat)

  function NoHistory(started: Time, made: seq<Payload>): History {
    History([], [], [], [], [], [], [], [], [], [], [], [], [], [], [], 0, 0, started, [], [], made, [], None, [])
  }

  predicate HasManager(c: Config) {
    c.initEvent.Some?
  }

  function InitPayloads(c: Config): seq<Payload> {
    if HasManager(c) then [Diagnostic(c.initEvent.value)] else []
  }

  /** The state in which startEventDispatcher leaves things: if there is a diagnostics manager,
      its init event goes to the channel before the main loop starts. */
  predicate Init(c: Config, s: State) {
    s == State([], if HasManager(c) then StartingDiagnostics(InitPayloads(c)[0]) else Running, INITIAL,
               Diagnostics.Pending(s.diagnostics.dataSinceTime, []),
               [], false, [], false, 0, [Idle, Idle, Idle, Idle, Idle], false,
               NoHistory(s.diagnostics.dataSinceTime, InitPayloads(c)))
  }

  predicate Enabled(c: Config, s: State, a: Action) {
    match a
    case Post(_) => |s.inbox| < c.capacity
    case StreamInitialized(_) => HasManager(c)
    case Take(_) => s.main.Running? && s.inbox != []
    case HandOver(_, _) => s.main.Running? && s.inbox == []
    case TakeResult => s.main.Running? && s.resultCh != []
    case FlushTick => s.main.Running?
    case KeysTick => s.main.Running?
    case StatsTick(_) => s.main.Running? && HasManager(c)
    case StartDiagnostics => s.main.StartingDiagnostics?
    case TrySend => s.main.Flushing? || s.main.SendingDiagnostics?
    case ClearOutbox => s.main.Sent?
    case UndoAdd => s.main.Refused?
    case FinishWait => s.main.Waiting? && s.workersGroup == 0
    case Receive(i) => i < |s.workers| && s.workers[i].Idle? && s.flushCh != []
    case ReceiveClosed(i) => i < |s.workers| && s.workers[i].Idle? && s.flushCh == [] && s.flushChClosed
    case Deliver(i, _) => i < |s.workers| && s.workers[i].Holding?
    case PostResult(i) =>
      i < |s.workers| && s.workers[i].HasResult? && (s.resultChClosed || |s.resultCh| < MAX_FLUSH_WORKERS)
    case Done(i) => i < |s.workers| && s.workers[i].Finishing?
  }

  function Next(c: Config, s: State, a: Action): State
    requires Enabled(c, s, a)
  {
    match a
    case Post(m) => s.(inbox := s.inbox + [m], h := s.h.(posted := s.h.posted + [m]))
    case StreamInitialized(i) =>
      s.(diagnostics := s.diagnostics.(streamInits := s.diagnostics.streamInits + [i]), h := s.h.(inits := s.h.inits + [i]))
    case Take(chance) =>
      var m := s.inbox[0];
      Handle(c, s.(inbox := s.inbox[1..], h := s.h.(taken := s.h.taken + [m])), m, chance)
    case HandOver(m, chance) =>
      Handle(c, s.(h := s.h.(posted := s.h.posted + [m], taken := s.h.taken + [m])), m, chance)
    case TakeResult => AfterResult(s.(resultCh := s.resultCh[1..]), s.resultCh[0])
    case FlushTick => TriggerFlush(s, false)
    case KeysTick => s.(d := KeysForgotten(s.d))
    case StatsTick(now) => ReportStats(s, now)
    case StartDiagnostics => s.(workersGroup := s.workersGroup + 1, main := SendingDiagnostics(s.main.payload))
    case TrySend => AfterTrySend(s)
    case ClearOutbox =>
      s.(d := Flushed(s.d), main := AfterFlush(s.main.replies, true),
         h := s.h.(sinceCleared := [], batch := Some(s.main.payload)))
    case UndoAdd =>
      s.(workersGroup := s.workersGroup - 1, panicked := s.panicked || s.workersGroup < 1,
         main := AfterFlush(s.main.replies, false))
    case FinishWait =>
      var h := s.h.(replied := s.h.replied + [Asked(s.main.reason)]);
      if s.main.reason.ForShutdown?
      then s.(flushChClosed := true, resultChClosed := true, main := Closed, h := h,
              panicked := s.panicked || s.flushChClosed || s.resultChClosed)
      else s.(main := Running, h := h)
    case Receive(i) =>
      s.(flushCh := s.flushCh[1..], workers := s.workers[i := Holding(s.flushCh[0])],
         h := s.h.(received := s.h.received + [s.flushCh[0]]))
    case ReceiveClosed(i) => s.(workers := s.workers[i := Terminated])
    case Deliver(i, result) => AfterDelivery(s, i, s.workers[i].payload, result)
    case PostResult(i) =>
      if s.resultChClosed then s.(panicked := true)
      else s.(resultCh := s.resultCh + [s.workers[i].result], workers := s.workers[i := Finishing])
    case Done(i) =>
      s.(workersGroup := s.workersGroup - 1, panicked := s.panicked || s.workersGroup < 1,
         workers := s.workers[i := Idle])
  }

  /** A message from the inbox. */
  function Handle(c: Config, s: State, m: Message, chance: Chance): State {
    match m
    case SendEvent(evt) =>
      var offers := Offers(c, s.d, evt, chance);
      var taken := Accepted(Room(c, s.d), offers);
      var after := Process(c, s.d, evt, chance);
      s.(d := after,
         h := s.h.(processed := s.h.processed + (if s.d.disabled then [] else [evt]),
                   offered := s.h.offered + offers,
                   accepted := s.h.accepted + taken,
                   dropped := s.h.dropped + |offers| - |taken|,
                   summarized := s.h.summarized + SummarizedBy(s.d, evt),
                   sinceCleared := s.h.sinceCleared + SummarizedBy(s.d, evt),
                   deduplicated := s.h.deduplicated + if FindsItsContext(c, s.d, evt) then 1 else 0))
    case Flush(replies) => TriggerFlush(s, replies)
    case Sync => s.(main := Waiting(ForSync))
    case Shutdown => s.(main := Waiting(ForShutdown))
  }

  /** The message that a wait is for. */
  function Asked(reason: Wait): Message {
    match reason
    case ForFlush(_) => Flush(true)
    case ForSync => Sync
    case ForShutdown => Shutdown
  }

  function AfterFlush(replies: bool, drained: bool): MainLoop {
    if replies then Waiting(ForFlush(drained)) else Running
  }

  function TriggerFlush(s: State, replies: bool): State {
    if s.d.disabled then s.(main := AfterFlush(replies, false))
    else if !SomethingToFlush(s.d) then
      s.(d := s.d.(eventsInLastBatch := 0), main := AfterFlush(replies, true), h := s.h.(batch := None))
    else s.(workersGroup := s.workersGroup + 1, main := Flushing(PayloadOf(s.d.outbox), replies))
  }

  function AfterTrySend(s: State): State
    requires s.main.Flushing? || s.main.SendingDiagnostics?
  {
    var placed := |s.flushCh| < FLUSH_CHANNEL_CAPACITY;
    var tried := if s.main.SendingDiagnostics? then [Attempt(s.main.payload, placed)] else [];
    var h := s.h.(diagnosticsTried := s.h.diagnosticsTried + tried);
    if placed then
      var evals := if s.main.Flushing? then s.h.sinceCleared else [];
      s.(flushCh := s.flushCh + [s.main.payload],
         panicked := s.panicked || s.flushChClosed,
         main := if s.main.Flushing? then Sent(s.main.payload, s.main.replies) else Running,
         h := h.(placed := s.h.placed + [Placed(s.main.payload, evals)]))
    else s.(main := Refused(s.main.Flushing? && s.main.replies), h := h)
  }

  function AfterResult(s: State, r: SendResult): State {
    var h := s.h.(results := s.h.results + [r]);
    if !s.d.disabled && r.mustShutDown then
      s.(d := HandleResult(s.d, r),
         h := h.(discarded := s.d.outbox.events, discardedEvals := s.h.sinceCleared, sinceCleared := []))
    else s.(d := HandleResult(s.d, r), h := h)
  }

  /** The statistics event goes out, and its counts start over. */
  function ReportStats(s: State, now: Time): State {
    var event := Diagnostics.Reported(s.diagnostics, now, s.d.outbox.droppedEvents,
                                      s.d.deduplicatedContexts, s.d.eventsInLastBatch);
    var payload := Diagnostic(Diagnostics.StatsJson(event));
    s.(diagnostics := Diagnostics.Pending(now, []),
       d := CountsReset(s.d),
       main := StartingDiagnostics(payload),
       h := s.h.(stats := s.h.stats + [event], diagnosticsMade := s.h.diagnosticsMade + [payload],
                 batch := None, batches := s.h.batches + [s.h.batch]))
  }

  /** A diagnostic payload has no result to post; an analytics payload without events is not sent at all. */
  function AfterDelivery(s: State, i: nat, p: Payload, result: SendResult): State
    requires i < |s.workers|
  {
    if p.Diagnostic? then s.(workers := s.workers[i := Finishing], h := s.h.(sent := s.h.sent + [p]))
    else if EventCount(p) == 0 then s.(workers := s.workers[i := Finishing])
    else s.(workers := s.workers[i := HasResult(result)],
            h := s.h.(sent := s.h.sent + [p], returned := s.h.returned + [result]))
  }

  // ---------- What a step leaves alone ----------

  predicate ByWorker(a: Action) {
    a.Receive? || a.ReceiveClosed? || a.Deliver? || a.PostResult? || a.Done?
  }

  /** What the main loop, its messages and the diagnostics are about. */
  predicate SameForMain(s: State, t: State) {
    && t.main == s.main && t.d == s.d && t.diagnostics == s.diagnostics && t.inbox == s.inbox
    && t.h == s.h.(received := t.h.received, sent := t.h.sent, returned := t.h.returned)
  }

  lemma WorkerLeavesMain(c: Config, s: State, a: Action)
    requires Enabled(c, s, a) && ByWorker(a)
    ensures SameForMain(s, Next(c, s, a))
  {
    match a
    case Receive(_) =>
    case ReceiveClosed(_) =>
    case Deliver(_, _) =>
    case PostResult(_) =>
    case Done(_) =>
  }

  // ---------- Runs ----------

  /** acts leads from s to t. */
  ghost predicate IsRun(c: Config, s: State, acts: seq<Action>, t: State)
    decreases |acts|
  {
    if acts == [] then s == t
    else Enabled(c, s, acts[0]) && IsRun(c, Next(c, s, acts[0]), acts[1..], t)
  }

  ghost predicate Reachable(c: Config, t: State) {
    exists s, acts :: Init(c, s) && IsRun(c, s, acts, t)
  }

  lemma {:induction false} RunsConcatenate(c: Config, s: State, a: seq<Action>, t: State, b: seq<Action>, u: State)
    requires IsRun(c, s, a, t) && IsRun(c, t, b, u)
    ensures IsRun(c, s, a + b, u)
    decreases |a|
  {
    if a == [] {
      assert a + b == b;
    } else {
      assert (a + b)[0] == a[0] && (a + b)[1..] == a[1..] + b;
      RunsConcatenate(c, Next(c, s, a[0]), a[1..], t, b, u);
    }
  }

  lemma ReachableLater(c: Config, s: State, acts: seq<Action>, t: State)
    requires Reachable(c, s) && IsRun(c, s, acts, t)
    ensures Reachable(c, t)
  {
    var s0, before :| Init(c, s0) && IsRun(c, s0, before, s);
    RunsConcatenate(c, s0, before, s, acts, t);
  }
}
