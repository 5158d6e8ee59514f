/** What processing one event comes to, case by case, in terms of the event, the settings and the state alone. */
module EventEffects {
  import opened Events
  import opened Summaries
  import opened OutboxSpec
  import opened DispatcherSpec
  import opened Recency

  /** The cache still holds the key: fewer other keys than fit have been added since it was. */
  predicate StillKnown(c: Config, d: Dispatcher, key: string) {
    key in d.addedKeys && |AddedSince(d.addedKeys, key)| < c.userKeysCapacity
  }

  lemma SeenIff(c: Config, d: Dispatcher, key: string)
    ensures Seen(c, d, key) <==> StillKnown(c, d, key)
  {
    InCacheIff(c.userKeysCapacity, d.addedKeys, key);
  }

  /** From before to after, the outbox has taken as many of these events as fit, in this order, and has counted the
      others as dropped. */
  predicate Takes(capacity: nat, before: Outbox, after: Outbox, events: seq<Output>) {
    var room := if |before.events| <= capacity then capacity - |before.events| else 0;
    var taken := if |events| <= room then events else events[..room];
    && after.events == before.events + taken
    && after.droppedEvents == before.droppedEvents + |events| - |taken|
  }

  lemma ProcessTakes(c: Config, d: Dispatcher, evt: Input, chance: Chance)
    requires !d.disabled
    ensures Takes(c.capacity, d.outbox, Process(c, d, evt, chance).outbox, Offers(c, d, evt, chance))
  {
    ProcessEffect(c, d, evt, chance);
  }

  /** An evaluation: an index event for its context unless the key is known, the full event if it is required and
      sampled, and a debug copy if debugging is on, by the clock and by the server's time, and sampled. */
  lemma EvaluationIsProcessed(c: Config, d: Dispatcher, e: Evaluation, chance: Chance)
    requires !d.disabled
    ensures var index := if StillKnown(c, d, e.context.key) then [] else [Index(e.creationDate, e.context)];
      var full := if e.requireFullEvent && (c.forceSampling || chance.full) then [Recorded(Evaluated(e))] else [];
      var debugging := e.debugEventsUntilDate != 0 && e.debugEventsUntilDate > d.lastKnownPastTime
                       && e.debugEventsUntilDate > chance.now;
      var debug := if debugging && (c.forceSampling || chance.debug) then [Recorded(Evaluated(e.(debug := true)))] else [];
      Takes(c.capacity, d.outbox, Process(c, d, Evaluated(e), chance).outbox, index + full + debug)
    ensures Process(c, d, Evaluated(e), chance).outbox.summary
         == if e.excludeFromSummaries then d.outbox.summary else Summarized(d.outbox.summary, e)
    ensures Process(c, d, Evaluated(e), chance).addedKeys == d.addedKeys + [e.context.key]
    ensures Process(c, d, Evaluated(e), chance).deduplicatedContexts
         == d.deduplicatedContexts + if StillKnown(c, d, e.context.key) then 1 else 0
  {
    ProcessTakes(c, d, Evaluated(e), chance);
    ProcessEffect(c, d, Evaluated(e), chance);
    SeenIff(c, d, e.context.key);
    DeduplicatedIff(c, d, Evaluated(e), chance);
  }

  /** An identify event: the event itself, if sampled, which carries its context. */
  lemma IdentifyIsProcessed(c: Config, d: Dispatcher, evt: Input, chance: Chance)
    requires !d.disabled && evt.Identify?
    ensures Takes(c.capacity, d.outbox, Process(c, d, evt, chance).outbox,
                  if c.forceSampling || chance.full then [Recorded(evt)] else [])
    ensures var after := Process(c, d, evt, chance);
      && after.outbox.summary == d.outbox.summary && after.addedKeys == d.addedKeys + [evt.context.key]
      && after.deduplicatedContexts == d.deduplicatedContexts
  {
    ProcessTakes(c, d, evt, chance);
    ProcessEffect(c, d, evt, chance);
    DeduplicatedIff(c, d, evt, chance);
  }

  /** A custom event: an index event for its context unless the key is known, and the event itself, if sampled. */
  lemma CustomIsProcessed(c: Config, d: Dispatcher, evt: Input, chance: Chance)
    requires !d.disabled && evt.Custom?
    ensures var index := if StillKnown(c, d, evt.context.key) then [] else [Index(evt.creationDate, evt.context)];
      var full := if c.forceSampling || chance.full then [Recorded(evt)] else [];
      Takes(c.capacity, d.outbox, Process(c, d, evt, chance).outbox, index + full)
    ensures var after := Process(c, d, evt, chance);
      && after.outbox.summary == d.outbox.summary && after.addedKeys == d.addedKeys + [evt.context.key]
      && after.deduplicatedContexts == d.deduplicatedContexts + if StillKnown(c, d, evt.context.key) then 1 else 0
  {
    ProcessTakes(c, d, evt, chance);
    ProcessEffect(c, d, evt, chance);
    SeenIff(c, d, evt.context.key);
    DeduplicatedIff(c, d, evt, chance);
  }

  /** A migration event is recorded if sampled, any other always; neither has a context that counts. */
  lemma OtherIsProcessed(c: Config, d: Dispatcher, evt: Input, chance: Chance)
    requires !d.disabled && (evt.MigrationOp? || evt.Raw?)
    ensures Takes(c.capacity, d.outbox, Process(c, d, evt, chance).outbox,
                  if evt.Raw? || c.forceSampling || chance.full then [Recorded(evt)] else [])
    ensures var after := Process(c, d, evt, chance);
      && after.outbox.summary == d.outbox.summary && after.addedKeys == d.addedKeys
      && after.deduplicatedContexts == d.deduplicatedContexts
  {
    ProcessTakes(c, d, evt, chance);
    ProcessEffect(c, d, evt, chance);
    DeduplicatedIff(c, d, evt, chance);
  }

  /** A key added before a reset of the cache is not known after it, until it is added again. */
  lemma NothingKnownAfterReset(c: Config, d: Dispatcher, key: string)
    ensures !Seen(c, KeysForgotten(d), key)
    ensures KeysForgotten(d) == d.(addedKeys := KeysForgotten(d).addedKeys)
  {
    SeenIff(c, KeysForgotten(d), key);
  }
}
