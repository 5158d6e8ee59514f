/** The steps of the main loop as functions on values, each from one wait for a message to the next. */
module DispatcherSteps {
  import opened Events
  import OutboxSpec
  import opened DispatcherSpec
  import opened Diagnostics

  datatype Operation =
    | ProcessEvent(evt: Input, chance: Chance)
    | ResultTaken(result: SendResult)
    | FlushDue
    | ResetDue
    | StatisticsDue(now: Time)
    | InitRecorded(init: StreamInit)
    | WorkerReceives

  /** free: the flush channel has room. */
  datatype Snapshot = Snapshot(d: Dispatcher, pending: Pending, free: bool)

  function StatsPayload(s: Snapshot, now: Time): OutboxSpec.Payload {
    OutboxSpec.Diagnostic(StatsJson(
      Reported(s.pending, now, s.d.outbox.droppedEvents, s.d.deduplicatedContexts, s.d.eventsInLastBatch)))
  }

  predicate FlushIsSent(s: Snapshot) {
    !s.d.disabled && SomethingToFlush(s.d) && s.free
  }

  /** The messages that a step puts on the channel. */
  function Sends(s: Snapshot, op: Operation): seq<OutboxSpec.Payload> {
    match op
    case FlushDue => if FlushIsSent(s) then [OutboxSpec.PayloadOf(s.d.outbox)] else []
    case StatisticsDue(now) => if s.free then [StatsPayload(s, now)] else []
    case _ => []
  }

  function After(c: Config, s: Snapshot, op: Operation): Snapshot {
    match op
    case ProcessEvent(evt, chance) => s.(d := Process(c, s.d, evt, chance))
    case ResultTaken(r) => s.(d := HandleResult(s.d, r))
    case FlushDue =>
      if FlushIsSent(s) then s.(d := Flushed(s.d), free := false)
      else if s.d.disabled || SomethingToFlush(s.d) then s
      else s.(d := s.d.(eventsInLastBatch := 0))
    case ResetDue => s.(d := KeysForgotten(s.d))
    case StatisticsDue(now) => Snapshot(CountsReset(s.d), Pending(now, []), false)
    case InitRecorded(i) => s.(pending := s.pending.(streamInits := s.pending.streamInits + [i]))
    case WorkerReceives => s.(free := true)
  }

  function AfterAll(c: Config, s: Snapshot, ops: seq<Operation>): Snapshot {
    if ops == [] then s else After(c, AfterAll(c, s, ops[..|ops| - 1]), ops[|ops| - 1])
  }

  function SendsAll(c: Config, s: Snapshot, ops: seq<Operation>): seq<OutboxSpec.Payload> {
    if ops == [] then []
    else SendsAll(c, s, ops[..|ops| - 1]) + Sends(AfterAll(c, s, ops[..|ops| - 1]), ops[|ops| - 1])
  }
}
