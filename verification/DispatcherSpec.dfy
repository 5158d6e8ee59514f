/** The dispatcher's own state and what its handlers make of it, as functions on values. */
module DispatcherSpec {
  import opened Wrappers
  import opened Json
  import opened Events
  import opened OutboxSpec
  import opened Recency

  /** initEvent is the init event of the diagnostics manager, if there is a manager. */
  datatype Config = Config(capacity: nat, userKeysCapacity: nat, forceSampling: bool, initEvent: Option<Json>)

  /** addedKeys are the context keys given to the cache since it was last cleared. */
  datatype Dispatcher = Dispatcher(
    outbox: Outbox,
    addedKeys: seq<string>,
    lastKnownPastTime: Time,
    deduplicatedContexts: nat,
    eventsInLastBatch: nat,
    disabled: bool)

  const INITIAL := Dispatcher(EMPTY_OUTBOX, [], 0, 0, 0, false)

  /** What the random sampler answers for the full event and for its debug copy, and the clock. */
  datatype Chance = Chance(full: bool, debug: bool, now: Time)

  datatype SendResult = SendResult(mustShutDown: bool, timeFromServer: Time)

  predicate Sampled(c: Config, draw: bool) {
    c.forceSampling || draw
  }

  predicate ShouldDebug(d: Dispatcher, e: Evaluation, now: Time) {
    e.debugEventsUntilDate != 0 && e.debugEventsUntilDate > d.lastKnownPastTime && e.debugEventsUntilDate > now
  }

  predicate Seen(c: Config, d: Dispatcher, key: string) {
    key in Contents(c.userKeysCapacity, d.addedKeys)
  }

  function Offer(c: Config, d: Dispatcher, e: Output): Dispatcher {
    d.(outbox := WithEvent(c.capacity, d.outbox, e))
  }

  /** The cache and the index event, for an event that refers to a context. */
  function NoteContext(c: Config, d: Dispatcher, creationDate: Time, context: Context, inlinedInFull: bool): Dispatcher {
    var d1 := d.(addedKeys := d.addedKeys + [context.key]);
    if inlinedInFull then d1
    else if Seen(c, d, context.key) then d1.(deduplicatedContexts := d1.deduplicatedContexts + 1)
    else Offer(c, d1, Index(creationDate, context))
  }

  /** The full event and its debug copy. */
  function OfferCopies(c: Config, d: Dispatcher, evt: Input, addFull: bool, debugEvent: Option<Input>, chance: Chance): Dispatcher {
    var d1 := if addFull && Sampled(c, chance.full) then Offer(c, d, Recorded(evt)) else d;
    if debugEvent.Some? && Sampled(c, chance.debug) then Offer(c, d1, Recorded(debugEvent.value)) else d1
  }

  /** The common part of processEvent for events that refer to a context. */
  function ProcessInContext(c: Config, d: Dispatcher, evt: Input, creationDate: Time, context: Context,
                            addFull: bool, inlined: bool, debugEvent: Option<Input>, chance: Chance): Dispatcher
  {
    OfferCopies(c, NoteContext(c, d, creationDate, context, addFull && inlined), evt, addFull, debugEvent, chance)
  }

  function DebugCopy(d: Dispatcher, e: Evaluation, now: Time): Option<Input> {
    if ShouldDebug(d, e, now) then Some(Evaluated(e.(debug := true))) else None
  }

  function SummaryStep(d: Dispatcher, evt: Input): Dispatcher {
    if evt.Evaluated? && !evt.eval.excludeFromSummaries then d.(outbox := WithSummarized(d.outbox, evt.eval)) else d
  }

  function Process(c: Config, d: Dispatcher, evt: Input, chance: Chance): Dispatcher {
    if d.disabled then d
    else match evt
      case Evaluated(e) =>
        ProcessInContext(c, SummaryStep(d, evt), evt, e.creationDate, e.context, e.requireFullEvent, false,
                         DebugCopy(d, e, chance.now), chance)
      case Identify(date, context) => ProcessInContext(c, d, evt, date, context, true, true, None, chance)
      case Custom(date, context, _) => ProcessInContext(c, d, evt, date, context, true, false, None, chance)
      case MigrationOp(_) => if Sampled(c, chance.full) then Offer(c, d, Recorded(evt)) else d
      case Raw(_) => Offer(c, d, Recorded(evt))
  }

  function HandleResult(d: Dispatcher, r: SendResult): Dispatcher {
    if d.disabled then d
    else if r.mustShutDown then d.(disabled := true, outbox := Cleared(d.outbox))
    else if r.timeFromServer > 0 then d.(lastKnownPastTime := r.timeFromServer)
    else d
  }

  predicate SomethingToFlush(d: Dispatcher) {
    EventCount(PayloadOf(d.outbox)) > 0
  }

  /** What the main loop does once a flush has been accepted by the channel. */
  function Flushed(d: Dispatcher): Dispatcher {
    d.(eventsInLastBatch := EventCount(PayloadOf(d.outbox)), outbox := Cleared(d.outbox))
  }

  /** The periodic reset of the cache. */
  function KeysForgotten(d: Dispatcher): Dispatcher {
    d.(addedKeys := [])
  }

  /** The counts that a statistics event has taken start over. */
  function CountsReset(d: Dispatcher): Dispatcher {
    d.(outbox := d.outbox.(droppedEvents := 0), deduplicatedContexts := 0, eventsInLastBatch := 0)
  }

  // ---------- Which output events one input event makes ----------

  /** The output events offered to the outbox, in order. */
  function Offers(c: Config, d: Dispatcher, evt: Input, chance: Chance): seq<Output> {
    if d.disabled then []
    else match evt
      case Evaluated(e) =>
        IndexOffer(c, d, e.creationDate, e.context)
        + FullOffer(c, evt, e.requireFullEvent, chance)
        + DebugOffer(c, d, e, chance)
      case Identify(_, _) => FullOffer(c, evt, true, chance)
      case Custom(date, context, _) => IndexOffer(c, d, date, context) + FullOffer(c, evt, true, chance)
      case MigrationOp(_) => FullOffer(c, evt, true, chance)
      case Raw(_) => [Recorded(evt)]
  }

  function IndexOffer(c: Config, d: Dispatcher, date: Time, context: Context): seq<Output> {
    if Seen(c, d, context.key) then [] else [Index(date, context)]
  }

  function FullOffer(c: Config, evt: Input, addFull: bool, chance: Chance): seq<Output> {
    if addFull && Sampled(c, chance.full) then [Recorded(evt)] else []
  }

  function DebugOffer(c: Config, d: Dispatcher, e: Evaluation, chance: Chance): seq<Output> {
    if ShouldDebug(d, e, chance.now) && Sampled(c, chance.debug) then [Recorded(Evaluated(e.(debug := true)))] else []
  }

  /** Those of the offered events that a buffer with this much room takes: the first ones. */
  function Accepted(room: nat, offers: seq<Output>): seq<Output> {
    Take(offers, room)
  }

  function Room(c: Config, d: Dispatcher): nat {
    if |d.outbox.events| <= c.capacity then c.capacity - |d.outbox.events| else 0
  }

  function SummarizedBy(d: Dispatcher, evt: Input): seq<Evaluation> {
    if !d.disabled && evt.Evaluated? && !evt.eval.excludeFromSummaries then [evt.eval] else []
  }

  predicate RefersToContext(evt: Input) {
    evt.Evaluated? || evt.Custom? || evt.Identify?
  }

  function KeyOfContext(evt: Input): string
    requires RefersToContext(evt)
  {
    if evt.Evaluated? then evt.eval.context.key else evt.context.key
  }

  /** evt is an evaluation or a custom event, processed while enabled, whose context the cache still knows. */
  predicate FindsItsContext(c: Config, d: Dispatcher, evt: Input) {
    !d.disabled && (evt.Evaluated? || evt.Custom?) && Seen(c, d, KeyOfContext(evt))
  }

  function WithEvents(capacity: nat, o: Outbox, offers: seq<Output>): Outbox {
    if offers == [] then o
    else WithEvent(capacity, WithEvents(capacity, o, offers[..|offers| - 1]), offers[|offers| - 1])
  }

  lemma {:induction false} WithEventsConcat(capacity: nat, o: Outbox, a: seq<Output>, b: seq<Output>)
    ensures WithEvents(capacity, o, a + b) == WithEvents(capacity, WithEvents(capacity, o, a), b)
  {
    if b == [] {
      assert a + b == a;
    } else {
      assert (a + b)[..|a + b| - 1] == a + b[..|b| - 1];
      WithEventsConcat(capacity, o, a, b[..|b| - 1]);
    }
  }

  /** A bounded outbox takes the first of the offered events that fit, and counts the others as dropped. */
  lemma {:induction false} WithEventsTakesWhatFits(capacity: nat, o: Outbox, offers: seq<Output>)
    ensures var room := if |o.events| <= capacity then capacity - |o.events| else 0;
      var after := WithEvents(capacity, o, offers);
      && after.events == o.events + Accepted(room, offers)
      && after.droppedEvents == o.droppedEvents + |offers| - |Accepted(room, offers)|
      && after.summary == o.summary
      && (after.capacityExceeded <==> if offers == [] then o.capacityExceeded else |offers| > room)
  {
    if offers != [] {
      var front := offers[..|offers| - 1];
      WithEventsTakesWhatFits(capacity, o, front);
      assert offers == front + [offers[|offers| - 1]];
    }
  }

  lemma OneOffer(c: Config, o: Outbox, e: Output)
    ensures WithEvents(c.capacity, o, [e]) == WithEvent(c.capacity, o, e)
  {
    assert [e][..0] == [];
  }

  /** processEvent summarizes the evaluation, if there is one to summarize, and makes the listed offers. */
  lemma ProcessMakesTheOffers(c: Config, d: Dispatcher, evt: Input, chance: Chance)
    requires !d.disabled
    ensures Process(c, d, evt, chance).outbox
         == WithEvents(c.capacity, SummaryStep(d, evt).outbox, Offers(c, d, evt, chance))
  {
    var o, n := SummaryStep(d, evt).outbox, c.capacity;
    OneOffer(c, o, Recorded(evt));
    match evt
    case Evaluated(e) =>
      var a, b, x := IndexOffer(c, d, e.creationDate, e.context), FullOffer(c, evt, e.requireFullEvent, chance),
                     DebugOffer(c, d, e, chance);
      WithEventsConcat(n, o, a + b, x);
      WithEventsConcat(n, o, a, b);
      OneOffer(c, o, Index(e.creationDate, e.context));
      OneOffer(c, WithEvents(n, o, a), Recorded(evt));
      OneOffer(c, WithEvents(n, o, a + b), Recorded(Evaluated(e.(debug := true))));
    case Custom(date, context, _) =>
      var a := IndexOffer(c, d, date, context);
      WithEventsConcat(n, o, a, FullOffer(c, evt, true, chance));
      OneOffer(c, o, Index(date, context));
      OneOffer(c, WithEvents(n, o, a), Recorded(evt));
    case _ =>
  }

  /** What of the dispatcher processEvent never touches. */
  lemma ProcessKeeps(c: Config, d: Dispatcher, evt: Input, chance: Chance)
    ensures var after := Process(c, d, evt, chance);
      && after.disabled == d.disabled
      && after.lastKnownPastTime == d.lastKnownPastTime
      && after.eventsInLastBatch == d.eventsInLastBatch
      && (d.disabled ==> after == d)
  {
  }

  /** processEvent appends to the outbox the offered events that fit, counts the others as dropped,
      and summarizes each evaluation that is to be summarized once. */
  lemma ProcessEffect(c: Config, d: Dispatcher, evt: Input, chance: Chance)
    requires !d.disabled
    ensures var offers := Offers(c, d, evt, chance);
      var taken := Accepted(Room(c, d), offers);
      var after := Process(c, d, evt, chance).outbox;
      && after.events == d.outbox.events + taken
      && after.droppedEvents == d.outbox.droppedEvents + |offers| - |taken|
      && after.summary == SummaryStep(d, evt).outbox.summary
  {
    ProcessMakesTheOffers(c, d, evt, chance);
    var o := SummaryStep(d, evt).outbox;
    assert o.events == d.outbox.events && o.droppedEvents == d.outbox.droppedEvents;
    WithEventsTakesWhatFits(c.capacity, o, Offers(c, d, evt, chance));
  }

  function IndexEvents(s: seq<Output>): seq<Output> {
    if s == [] then []
    else IndexEvents(s[..|s| - 1]) + if s[|s| - 1].Index? then [s[|s| - 1]] else []
  }

  lemma {:induction false} IndexEventsConcat(a: seq<Output>, b: seq<Output>)
    ensures IndexEvents(a + b) == IndexEvents(a) + IndexEvents(b)
  {
    if b == [] {
      assert a + b == a;
    } else {
      assert (a + b)[..|a + b| - 1] == a + b[..|b| - 1];
      IndexEventsConcat(a, b[..|b| - 1]);
    }
  }

  lemma IndexEventsOfOne(e: Output)
    ensures IndexEvents([e]) == if e.Index? then [e] else []
  {
    assert [e][..0] == [];
  }

  lemma IndexEventsOfCopies(c: Config, d: Dispatcher, evt: Input, addFull: bool, e: Evaluation, chance: Chance)
    ensures IndexEvents(FullOffer(c, evt, addFull, chance)) == [] && IndexEvents(DebugOffer(c, d, e, chance)) == []
  {
    IndexEventsOfOne(Recorded(evt));
    IndexEventsOfOne(Recorded(Evaluated(e.(debug := true))));
  }

  lemma IndexEventsOfOffer(c: Config, d: Dispatcher, date: Time, context: Context)
    ensures IndexEvents(IndexOffer(c, d, date, context)) == IndexOffer(c, d, date, context)
  {
    IndexEventsOfOne(Index(date, context));
  }

  lemma OfferedForEvaluation(c: Config, d: Dispatcher, e: Evaluation, chance: Chance)
    requires !d.disabled
    ensures IndexEvents(Offers(c, d, Evaluated(e), chance)) == IndexOffer(c, d, e.creationDate, e.context)
  {
    var a, b, x := IndexOffer(c, d, e.creationDate, e.context), FullOffer(c, Evaluated(e), e.requireFullEvent, chance),
                   DebugOffer(c, d, e, chance);
    IndexEventsConcat(a + b, x);
    IndexEventsConcat(a, b);
    IndexEventsOfOffer(c, d, e.creationDate, e.context);
    IndexEventsOfCopies(c, d, Evaluated(e), e.requireFullEvent, e, chance);
  }

  lemma OfferedForCustom(c: Config, d: Dispatcher, evt: Input, chance: Chance)
    requires !d.disabled && evt.Custom?
    ensures IndexEvents(Offers(c, d, evt, chance)) == IndexOffer(c, d, evt.creationDate, evt.context)
  {
    IndexEventsConcat(IndexOffer(c, d, evt.creationDate, evt.context), FullOffer(c, evt, true, chance));
    IndexEventsOfOffer(c, d, evt.creationDate, evt.context);
    IndexEventsOfOne(Recorded(evt));
  }

  /** Of the offered events, the index event comes from IndexOffer alone. */
  lemma OfferedIndexEvents(c: Config, d: Dispatcher, evt: Input, chance: Chance)
    ensures IndexEvents(Offers(c, d, evt, chance))
      == if d.disabled then []
         else if evt.Evaluated? then IndexOffer(c, d, evt.eval.creationDate, evt.eval.context)
         else if evt.Custom? then IndexOffer(c, d, evt.creationDate, evt.context)
         else []
  {
    if !d.disabled {
      match evt
      case Evaluated(e) => OfferedForEvaluation(c, d, e, chance);
      case Custom(_, _, _) => OfferedForCustom(c, d, evt, chance);
      case _ => IndexEventsOfOne(Recorded(evt));
    }
  }

  lemma DeduplicatedByNote(c: Config, d: Dispatcher, creationDate: Time, context: Context, inlinedInFull: bool)
    ensures NoteContext(c, d, creationDate, context, inlinedInFull).deduplicatedContexts
         == d.deduplicatedContexts + if !inlinedInFull && Seen(c, d, context.key) then 1 else 0
  {
  }

  lemma CopiesAreNotDeduplicated(c: Config, d: Dispatcher, evt: Input, addFull: bool, debugEvent: Option<Input>, chance: Chance)
    ensures OfferCopies(c, d, evt, addFull, debugEvent, chance).deduplicatedContexts == d.deduplicatedContexts
  {
  }

  lemma DeduplicatedInContext(c: Config, d: Dispatcher, evt: Input, creationDate: Time, context: Context,
                              addFull: bool, inlined: bool, debugEvent: Option<Input>, chance: Chance)
    ensures ProcessInContext(c, d, evt, creationDate, context, addFull, inlined, debugEvent, chance).deduplicatedContexts
         == d.deduplicatedContexts + if !(addFull && inlined) && Seen(c, d, context.key) then 1 else 0
  {
    DeduplicatedByNote(c, d, creationDate, context, addFull && inlined);
    CopiesAreNotDeduplicated(c, NoteContext(c, d, creationDate, context, addFull && inlined), evt, addFull, debugEvent, chance);
  }

  lemma DeduplicatedIff(c: Config, d: Dispatcher, evt: Input, chance: Chance)
    ensures Process(c, d, evt, chance).deduplicatedContexts
         == d.deduplicatedContexts + if FindsItsContext(c, d, evt) then 1 else 0
  {
    if !d.disabled {
      match evt
      case Evaluated(e) =>
        DeduplicatedInContext(c, SummaryStep(d, evt), evt, e.creationDate, e.context, e.requireFullEvent, false,
                              DebugCopy(d, e, chance.now), chance);
      case Identify(date, context) => DeduplicatedInContext(c, d, evt, date, context, true, true, None, chance);
      case Custom(date, context, _) => DeduplicatedInContext(c, d, evt, date, context, true, false, None, chance);
      case _ =>
    }
  }

  lemma IndexesIff(c: Config, d: Dispatcher, evt: Input, chance: Chance)
    ensures |IndexEvents(Offers(c, d, evt, chance))|
         == if !d.disabled && (evt.Evaluated? || evt.Custom?) && !Seen(c, d, KeyOfContext(evt)) then 1 else 0
  {
    OfferedIndexEvents(c, d, evt, chance);
  }

  /** Every evaluation and custom event processed while enabled yields exactly one of an offered
      index event or a counted deduplication; no other event yields either. */
  lemma IndexOrDeduplicated(c: Config, d: Dispatcher, evt: Input, chance: Chance)
    ensures var after := Process(c, d, evt, chance);
      var indexes := |IndexEvents(Offers(c, d, evt, chance))|;
      var deduplicated := after.deduplicatedContexts - d.deduplicatedContexts;
      if !d.disabled && (evt.Evaluated? || evt.Custom?)
      then (indexes == 1 && deduplicated == 0) || (indexes == 0 && deduplicated == 1)
      else indexes == 0 && deduplicated == 0
    ensures Process(c, d, evt, chance).deduplicatedContexts
         == d.deduplicatedContexts + if FindsItsContext(c, d, evt) then 1 else 0
  {
    IndexesIff(c, d, evt, chance);
    DeduplicatedIff(c, d, evt, chance);
  }
}
