/** The event dispatcher: the handlers that its main loop runs, one at a time. */
module EventDispatcher {
  import opened Wrappers
  import opened Json
  import opened Events
  import OutboxSpec
  import opened DispatcherSpec
  import EventsOutbox
  import Summarizer
  import LruCache
  import Diagnostics

  /** A message for a flush worker. */
  datatype Message = DiagnosticMessage(event: Json) | AnalyticsMessage(payload: EventsOutbox.PayloadRef) {
    ghost function Repr(): set<object>
      reads if AnalyticsMessage? then {payload.summary.flags} else {}
    {
      if AnalyticsMessage? then payload.Repr() else {}
    }

    ghost predicate Valid()
      reads if AnalyticsMessage? then {payload.summary.flags} + payload.Repr() else {}
    {
      AnalyticsMessage? ==> payload.Valid()
    }

    /** What a worker reads from it. */
    ghost function Value(): OutboxSpec.Payload
      requires Valid()
      reads if AnalyticsMessage? then {payload.summary.flags} + payload.Repr() else {}
    {
      if AnalyticsMessage? then payload.Value() else OutboxSpec.Diagnostic(event)
    }
  }

  /** A channel with room for one message, as the sender sees it. */
  class FlushChannel {
    var queue: seq<Message>

    constructor ()
      ensures queue == []
    {
      queue := [];
    }

    /** A send that does not wait. */
    method TrySend(m: Message) returns (sent: bool)
      modifies this
      ensures sent <==> old(queue) == []
      ensures queue == if sent then [m] else old(queue)
    {
      sent := queue == [];
      if sent {
        queue := [m];
      }
    }

    /** A worker takes the message, if there is one. */
    method Receive()
      modifies this
      ensures queue == []
    {
      queue := [];
    }
  }

  class WaitGroup {
    var count: int

    constructor ()
      ensures count == 0
    {
      count := 0;
    }

    method Add(n: int)
      modifies this
      ensures count == old(count) + n
    {
      count := count + n;
    }
  }

  method NewParts(config: Config) returns (outbox: EventsOutbox.Outbox, userKeys: LruCache.Cache<string>)
    ensures outbox.Valid() && outbox.capacity == config.capacity && outbox.Value() == OutboxSpec.EMPTY_OUTBOX
    ensures userKeys.Valid() && userKeys.capacity == config.userKeysCapacity && userKeys.history == []
    ensures fresh(outbox.Repr()) && fresh(userKeys.Repr()) && outbox.Repr() !! userKeys.Repr()
  {
    outbox := new EventsOutbox.Outbox(config.capacity);
    userKeys := new LruCache.Cache<string>(config.userKeysCapacity);
  }

  class Dispatcher {
    const config: Config
    const outbox: EventsOutbox.Outbox
    const userKeys: LruCache.Cache<string>
    const flushCh: FlushChannel
    const workersGroup: WaitGroup
    var lastKnownPastTime: Time
    var deduplicatedContexts: nat
    var eventsInLastBatch: nat
    var disabled: bool

    ghost predicate Valid()
      reads this, outbox, outbox.buffer, outbox.summarizer, outbox.summarizer.state.flags,
            outbox.summarizer.state.flags.Repr, userKeys, userKeys.lruList, userKeys.Repr()
    {
      && outbox.Valid() && outbox.capacity == config.capacity
      && userKeys.Valid() && userKeys.capacity == config.userKeysCapacity
      && outbox.Repr() !! userKeys.Repr()
      && this as object !in outbox.Repr() && this as object !in userKeys.Repr()
      && flushCh as object !in outbox.Repr() && flushCh as object !in userKeys.Repr()
      && workersGroup as object !in outbox.Repr() && workersGroup as object !in userKeys.Repr()
    }

    ghost function Repr(): set<object>
      reads this, outbox, outbox.summarizer, outbox.summarizer.state.flags, userKeys, userKeys.lruList
    {
      {this, flushCh, workersGroup} + outbox.Repr() + userKeys.Repr()
    }

    ghost function Value(): DispatcherSpec.Dispatcher
      requires Valid()
      reads this, outbox, outbox.buffer, outbox.summarizer, outbox.summarizer.state.flags,
            outbox.summarizer.state.flags.Repr, userKeys, userKeys.lruList, userKeys.Repr()
    {
      DispatcherSpec.Dispatcher(
        outbox.Value(), userKeys.history, lastKnownPastTime, deduplicatedContexts, eventsInLastBatch, disabled)
    }

    constructor (config: Config)
      ensures Valid() && Value() == INITIAL && this.config == config
      ensures flushCh.queue == [] && workersGroup.count == 0 && fresh(Repr())
    {
      this.config := config;
      var newOutbox, newKeys := NewParts(config);
      outbox, userKeys := newOutbox, newKeys;
      flushCh := new FlushChannel();
      workersGroup := new WaitGroup();
      lastKnownPastTime, deduplicatedContexts, eventsInLastBatch, disabled := 0, 0, 0, false;
    }

    method OfferEvent(e: Output)
      requires Valid()
      modifies outbox, outbox.buffer
      ensures Valid() && Repr() == old(Repr())
      ensures Value() == Offer(config, old(Value()), e)
    {
      outbox.AddEvent(e);
    }

    method ProcessEvent(evt: Input, chance: Chance)
      requires Valid()
      modifies this, outbox.Repr(), userKeys.Repr()
      ensures Valid() && fresh(Repr() - old(Repr()))
      ensures Value() == Process(config, old(Value()), evt, chance)
    {
      if disabled {
        return;
      }
      match evt
      case Evaluated(e) =>
        ProcessEvaluation(e, chance);
      case Identify(date, context) =>
        ProcessWithContext(evt, date, context, true, true, None, chance);
      case Custom(date, context, _) =>
        ProcessWithContext(evt, date, context, true, false, None, chance);
      case MigrationOp(_) =>
        if Sampled(config, chance.full) {
          OfferEvent(Recorded(evt));
        }
      case Raw(_) =>
        OfferEvent(Recorded(evt));
    }

    method ProcessEvaluation(e: Evaluation, chance: Chance)
      requires Valid() && !disabled
      modifies this, outbox.Repr(), userKeys.Repr()
      ensures Valid() && fresh(Repr() - old(Repr()))
      ensures Value() == Process(config, old(Value()), Evaluated(e), chance)
    {
      var debugEvent := SummarizeAndCopy(e, chance.now);
      ProcessWithContext(Evaluated(e), e.creationDate, e.context, e.requireFullEvent, false, debugEvent, chance);
    }

    method SummarizeAndCopy(e: Evaluation, now: Time) returns (debugEvent: Option<Input>)
      requires Valid()
      modifies outbox.Repr()
      ensures Valid() && fresh(Repr() - old(Repr())) && userKeys.Repr() == old(userKeys.Repr())
      ensures Value() == SummaryStep(old(Value()), Evaluated(e)) && debugEvent == DebugCopy(old(Value()), e, now)
    {
      Summarize(e);
      var shouldDebug := ShouldDebugEvent(e, now);
      debugEvent := if shouldDebug then Some(Evaluated(e.(debug := true))) else None;
    }

    method ShouldDebugEvent(e: Evaluation, now: Time) returns (b: bool)
      requires Valid()
      ensures b <==> ShouldDebug(Value(), e, now)
    {
      if e.debugEventsUntilDate == 0 {
        return false;
      }
      return e.debugEventsUntilDate > lastKnownPastTime && e.debugEventsUntilDate > now;
    }

    method Summarize(e: Evaluation)
      requires Valid()
      modifies outbox.Repr()
      ensures Valid() && fresh(Repr() - old(Repr())) && userKeys.Repr() == old(userKeys.Repr())
      ensures Value() == SummaryStep(old(Value()), Evaluated(e))
    {
      if !e.excludeFromSummaries {
        outbox.AddToSummary(e);
      }
    }

    method ProcessWithContext(evt: Input, creationDate: Time, context: Context, addFull: bool, inlined: bool,
                              debugEvent: Option<Input>, chance: Chance)
      requires Valid()
      modifies this, outbox, outbox.buffer, userKeys.Repr()
      ensures Valid() && fresh(Repr() - old(Repr()))
      ensures Value() == ProcessInContext(config, old(Value()), evt, creationDate, context, addFull, inlined, debugEvent, chance)
    {
      NoteContextKey(creationDate, context, addFull && inlined);
      OfferCopiesOf(evt, addFull, debugEvent, chance);
    }

    method NoteContextKey(creationDate: Time, context: Context, inlinedInFull: bool)
      requires Valid()
      modifies this, outbox, outbox.buffer, userKeys.Repr()
      ensures Valid() && fresh(Repr() - old(Repr()))
      ensures Value() == NoteContext(config, old(Value()), creationDate, context, inlinedInFull)
    {
      var alreadySeen := AddKey(context.key);
      if inlinedInFull {
        return;
      }
      IndexUnlessSeen(creationDate, context, alreadySeen);
    }

    method IndexUnlessSeen(creationDate: Time, context: Context, alreadySeen: bool)
      requires Valid()
      modifies this, outbox, outbox.buffer
      ensures Valid() && Repr() == old(Repr())
      ensures Value() == if alreadySeen then old(Value()).(deduplicatedContexts := old(Value()).deduplicatedContexts + 1)
                         else Offer(config, old(Value()), Index(creationDate, context))
    {
      if alreadySeen {
        deduplicatedContexts := deduplicatedContexts + 1;
      } else {
        OfferEvent(Index(creationDate, context));
      }
    }

    method AddKey(key: string) returns (alreadySeen: bool)
      requires Valid()
      modifies userKeys.Repr()
      ensures Valid() && fresh(Repr() - old(Repr()))
      ensures Value() == old(Value()).(addedKeys := old(Value()).addedKeys + [key])
      ensures alreadySeen <==> Seen(config, old(Value()), key)
    {
      alreadySeen := userKeys.Add(key);
    }

    method OfferCopiesOf(evt: Input, addFull: bool, debugEvent: Option<Input>, chance: Chance)
      requires Valid()
      modifies outbox, outbox.buffer
      ensures Valid() && Repr() == old(Repr())
      ensures Value() == OfferCopies(config, old(Value()), evt, addFull, debugEvent, chance)
    {
      if addFull && Sampled(config, chance.full) {
        OfferEvent(Recorded(evt));
      }
      if debugEvent.Some? && Sampled(config, chance.debug) {
        OfferEvent(Recorded(debugEvent.value));
      }
    }

    /** A result from a worker. */
    method HandleSendResult(r: SendResult)
      requires Valid()
      modifies this, outbox, outbox.buffer, outbox.summarizer
      ensures Valid() && Value() == HandleResult(old(Value()), r) && fresh(Repr() - old(Repr()))
    {
      if disabled {
        return;
      }
      if r.mustShutDown {
        disabled := true;
        outbox.Clear();
      } else if r.timeFromServer > 0 {
        lastKnownPastTime := r.timeFromServer;
      }
    }

    method TriggerFlush()
      requires Valid()
      modifies this, outbox, outbox.buffer, outbox.summarizer, flushCh, workersGroup
      ensures Valid() && fresh(Repr() - old(Repr()))
      ensures var d := old(Value());
        var sent := !d.disabled && SomethingToFlush(d) && old(flushCh.queue) == [];
        && workersGroup.count == old(workersGroup.count) + (if sent then 1 else 0)
        && (!sent ==> flushCh.queue == old(flushCh.queue))
        && if sent then Value() == Flushed(d) && Carries(flushCh.queue, OutboxSpec.PayloadOf(d.outbox))
                        && fresh(flushCh.queue[0].Repr() - old(Repr()))
           else Value() == if d.disabled || SomethingToFlush(d) then d else d.(eventsInLastBatch := 0)
    {
      if disabled {
        return;
      }
      var m, total := MakePayload();
      if total == 0 {
        eventsInLastBatch := 0;
      } else {
        SendPayload(m, total);
      }
    }

    /** What a flush leaves alone until the outbox is cleared, and what clearing writes to. */
    ghost function Fixed(): set<object>
      reads this, outbox, userKeys, userKeys.lruList
    {
      {this, outbox, outbox.buffer, outbox.summarizer, flushCh, workersGroup} + userKeys.Repr()
    }

    method MakePayload() returns (m: Message, total: nat)
      requires Valid()
      ensures Valid() && Value() == old(Value()) && Repr() == old(Repr())
      ensures m.Valid() && m.Value() == OutboxSpec.PayloadOf(Value().outbox) && m.Repr() !! Fixed()
      ensures fresh(m.Repr() - Repr())
      ensures total == OutboxSpec.EventCount(m.Value())
    {
      var payload := outbox.GetPayload();
      total := EventsOutbox.CountEvents(payload);
      m := AnalyticsMessage(payload);
    }

    /** The queue holds just this payload, which shares nothing with the dispatcher. */
    ghost predicate Carries(queue: seq<Message>, expected: OutboxSpec.Payload)
      reads this, outbox, outbox.summarizer, outbox.summarizer.state.flags, userKeys, userKeys.lruList
      reads if |queue| == 1 && queue[0].AnalyticsMessage? then {queue[0].payload.summary.flags} + queue[0].payload.Repr() else {}
    {
      && |queue| == 1 && queue[0].Valid() && queue[0].Value() == expected
      && queue[0].Repr() !! Repr()
    }

    /** The send and what follows it, for a payload just made from the outbox. */
    method SendPayload(m: Message, total: nat)
      requires Valid() && m.Valid() && m.Value() == OutboxSpec.PayloadOf(Value().outbox)
      requires total == OutboxSpec.EventCount(m.Value()) && m.Repr() !! Fixed()
      modifies this, outbox, outbox.buffer, outbox.summarizer, flushCh, workersGroup
      ensures Valid() && fresh(Repr() - old(Repr()))
      ensures var sent := old(flushCh.queue) == [];
        && workersGroup.count == old(workersGroup.count) + (if sent then 1 else 0)
        && flushCh.queue == (if sent then [m] else old(flushCh.queue)) && m.Repr() == old(m.Repr())
        && if sent then Value() == Flushed(old(Value())) && Carries(flushCh.queue, old(m.Value()))
           else Value() == old(Value())
    {
      var sent := CountAndSend(m);
      if sent {
        FlushTaken(m, total);
      }
    }

    /** A message is counted in the wait group before the send, and no longer if the channel is full. */
    method CountAndSend(m: Message) returns (sent: bool)
      modifies flushCh, workersGroup
      ensures sent <==> old(flushCh.queue) == []
      ensures flushCh.queue == if sent then [m] else old(flushCh.queue)
      ensures workersGroup.count == old(workersGroup.count) + if sent then 1 else 0
    {
      workersGroup.Add(1);
      sent := flushCh.TrySend(m);
      if !sent {
        workersGroup.Add(-1);
      }
    }

    method FlushTaken(ghost m: Message, total: nat)
      requires Valid() && total == OutboxSpec.EventCount(OutboxSpec.PayloadOf(Value().outbox))
      requires m.Valid() && m.Repr() !! Fixed()
      modifies this, outbox, outbox.buffer, outbox.summarizer
      ensures Valid() && Value() == Flushed(old(Value())) && fresh(Repr() - old(Repr()))
      ensures m.Valid() && m.Value() == old(m.Value()) && m.Repr() == old(m.Repr()) && m.Repr() !! Repr()
    {
      ClearAfterFlush(total);
    }

    method ClearAfterFlush(total: nat)
      requires Valid() && total == OutboxSpec.EventCount(OutboxSpec.PayloadOf(Value().outbox))
      modifies this, outbox, outbox.buffer, outbox.summarizer
      ensures Valid() && Value() == Flushed(old(Value()))
      ensures fresh(outbox.summarizer.state.flags.Repr)
      ensures Repr() == Fixed() + outbox.summarizer.state.flags.Repr && Fixed() == old(Fixed()) && Fixed() <= old(Repr())
    {
      eventsInLastBatch := total;
      outbox.Clear();
    }

    method SendDiagnosticsEvent(event: Json)
      modifies flushCh, workersGroup
      ensures if old(flushCh.queue) == []
        then flushCh.queue == [DiagnosticMessage(event)] && workersGroup.count == old(workersGroup.count) + 1
        else flushCh.queue == old(flushCh.queue) && workersGroup.count == old(workersGroup.count)
    {
      var _ := CountAndSend(DiagnosticMessage(event));
    }

    /** The periodic reset of the cache. */
    method ResetUserKeys()
      requires Valid()
      modifies userKeys.Repr()
      ensures Valid() && fresh(Repr() - old(Repr()))
      ensures Value() == KeysForgotten(old(Value()))
    {
      userKeys.Clear();
    }

    /** The statistics tick: the manager makes an event of the counts, which start over, and it is sent if the
        channel has room. */
    method SendStatistics(manager: Diagnostics.DiagnosticsManager, now: Time)
      requires Valid() && manager.Valid() && manager as object !in outbox.Repr() && manager as object !in userKeys.Repr()
      modifies this, outbox, manager, flushCh, workersGroup
      ensures Valid() && manager.Valid() && Value() == CountsReset(old(Value())) && Repr() == old(Repr())
      ensures var d := old(Value());
        var event := Diagnostics.Reported(old(manager.Value()), now, d.outbox.droppedEvents, d.deduplicatedContexts, d.eventsInLastBatch);
        && manager.made == old(manager.made) + [event] && manager.Value() == Diagnostics.Pending(now, [])
        && if old(flushCh.queue) == []
           then flushCh.queue == [DiagnosticMessage(Diagnostics.StatsJson(event))] && workersGroup.count == old(workersGroup.count) + 1
           else flushCh.queue == old(flushCh.queue) && workersGroup.count == old(workersGroup.count)
    {
      var event := TakeStatistics(manager, now);
      SendDiagnosticsEvent(Diagnostics.StatsJson(event));
    }

    method TakeStatistics(manager: Diagnostics.DiagnosticsManager, now: Time) returns (event: Diagnostics.StatsEvent)
      requires Valid() && manager.Valid() && manager as object !in outbox.Repr() && manager as object !in userKeys.Repr()
      modifies this, outbox, manager
      ensures Valid() && manager.Valid() && Value() == CountsReset(old(Value())) && Repr() == old(Repr())
      ensures manager.made == old(manager.made) + [event] && manager.Value() == Diagnostics.Pending(now, [])
      ensures var d := old(Value());
        event == Diagnostics.Reported(old(manager.Value()), now, d.outbox.droppedEvents, d.deduplicatedContexts, d.eventsInLastBatch)
    {
      event := manager.CreateStatsEventAndReset(outbox.droppedEvents, deduplicatedContexts, eventsInLastBatch, now);
      ResetCounts();
    }

    method ResetCounts()
      requires Valid()
      modifies this, outbox
      ensures Valid() && Value() == CountsReset(old(Value())) && Repr() == old(Repr())
    {
      outbox.droppedEvents := 0;
      deduplicatedContexts := 0;
      eventsInLastBatch := 0;
    }
  }
}
