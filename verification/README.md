# Verification of the events engine

A Dafny model of the analytics event pipeline of the LaunchDarkly Go SDK, with proofs about all runs,
all inputs and all interleavings. `dafny verify dfyconfig.toml` checks everything.

**The dispatcher, the outbox and the flush workers.** `Protocol` is a transition system: the main loop (with
the points inside `triggerFlush` where other processes can run), five workers, the flush channel of capacity
1, the result channel of capacity 5, the wait group and the inbox, with ghost history. The choice among ready
channels is left open. `ProtocolControl`, `ProtocolConservation`, `ProtocolDelivery`, `ProtocolStatistics`,
`ProtocolDiagnostics`, `ProtocolReplies`, `ProtocolResults`, `ProtocolEvents` and `ProtocolProgress` prove
invariants of all its runs; `ProtocolClose` is about every run from a flush to the reply to a shutdown, and
`Accounting` about index events over every run between two resets of the cache. `ProtocolSteps` says that no
step is skipped. `ProtocolStuck` builds the runs that show what the code does not guarantee. The handlers that
the main loop runs are modelled twice: as functions on values (`DispatcherSpec`, `OutboxSpec`, `Summaries`,
`Diagnostics`), which the transition system uses (`ProtocolHandlers` proves that its parts make up the
handlers' steps, listed in `DispatcherSteps`), and as classes that update their fields in place
(`EventDispatcher`, `EventsOutbox`, `Summarizer`, `LruCache` over the nodes of `LinkedList`), proved against
those functions. The classes carry the separation argument: a snapshot shares the live maps until the
summarizer is reset. `DispatcherRuns` puts the handlers together: whatever sequence of steps is run on the
heap, the functions on values describe it, and every message that has been sent keeps its contents.
`EventEffects` says what processing each kind of event comes to in terms of the event, the settings and the
state alone, and `Recency` what the cache is meant to hold.

**Private attributes.** `PrivateRefs` and `PrivateAttrTrie` are the lookup trie, as a value and as heap nodes
built in place. `Redaction` is the plain filter on JSON trees that the formatter is measured by, and what
follows from it. `ContextFormatter` is the recursive writer with its shortcut, its lookups and its paths in
slices (`Slices`) that share backing arrays; `ContextOutput` is the whole context.

**Output.** `Json` has values, tokens, the writer and a reader; written output is proved to read back as the
value meant, for every order in which maps are walked. `SummaryJson` and `EventsOutput` are the summary event
and the array of one payload.

Where the code and what is written about it differ, the model follows the code:

- A comment at event_processor.go:226-227 says that results are drained before anything else; a `select` gives
  no priority, and the model leaves the choice open. While the main loop is in `Wait`, nobody drains results.
- A reference listed after a strict extension of itself has no effect (context_formatter.go:67-74). The exact
  condition, and the clean statement under it, are proved.
- The lookup goes on past a childless node (context_formatter.go:341-344). It is right whenever no proper
  prefix of the path is private, which every call made by the formatter is proved to satisfy; below a private
  attribute it can be wrong.
- A zero creation date makes the summarizer forget its start date, so that start dates of consecutive
  summaries do not always merge by their minimum.
- A refused flush leaves its events in the outbox, so that a reply to a blocking flush or to a shutdown does
  not mean that everything was sent. There is a run that shows it for each of the two, and the exact condition
  for both.
- A statistics event that finds the channel full is lost, with the counts and stream inits that it took over.
- "Sent" means passed to `SendEventData`; a failed send is not repeated.

## Model

| member | source | states |
|---|---|---|
| `ProtocolConservation.NothingLostOrRepeated` | event_processor.go:388-415 | in every reachable state of every interleaving, the events of all payloads put on the flush channel, in order, then the live outbox (counted as empty between send and clear), then what a server shutdown discarded, are exactly the accepted events; likewise for summarized evaluations, share by share |
| `ProtocolConservation.SummariesComposeOverRuns` | event_summarizer.go:54-97 | in every reachable state, merging the summaries of all payloads ever put on the channel with the live one (an empty one between send and clear) or, once disabled, with that of what was discarded, gives the summary of all evaluations ever summarized |
| `ProtocolConservation.ReachableBooks` | outbox.go:25-60 | the invariant behind both: outbox within capacity, its summary that of the evaluations since the last clear, a payload about to be sent equal to the outbox |
| `ProtocolControl.ClosingIsSafe` | event_processor.go:242-252 | in every reachable state the wait group counts exactly queued payloads, busy workers and a payload mid-Add; it never goes negative, nothing is sent on or closes a closed channel, and after the close nothing is queued or in a worker's hands |
| `ProtocolControl.ControlKept` | event_processor.go:402-414 | every step of every process keeps that invariant |
| `ProtocolProgress.WaitEndsIffResultsFit` | event_processor.go:233-251 | while the main loop is in Wait: worker steps are bounded by a measure; if results in the channel plus analytics payloads still to post are at most 5, the wait can end whenever the workers have stopped; if more, the wait group stays positive for ever |
| `ProtocolProgress.WaitCanEndIff` | event_processor.go:158-159 | a wait in a reachable state can end if and only if that sum is at most 5 |
| `ProtocolProgress.AllWorkersTerminate` | event_processor.go:443-465 | after the close every worker step is its last, nothing else changes the workers, and when none can go on all have terminated |
| `ProtocolStuck.AWaitThatNeverEnds` | event_processor.go:233-238 | with any configuration a state is reachable in which a blocking flush waits for ever: all five workers hold an analytics payload and a sixth is queued |
| `ProtocolStuck.AFlushThatDeliversNothing` | event_processor.go:410-414 | with any configuration a blocking flush can be replied to while what was in the outbox is still there, because the channel was full |
| `ProtocolStuck.ACloseThatLosesEvents` | event_processor.go:138-149 | with any configuration there is a run in which the flush message of Close is taken, its send finds the channel full, the shutdown message is the next one taken, and the main loop closes with the processor enabled and something left in the outbox |
| `ProtocolStuck.AStatisticsEventIsLost` | event_processor.go:426-431 | with any configuration that has a diagnostics manager a statistics event can find the channel full and be lost with the stream inits it took over |
| `ProtocolDelivery.FlushDeliversIff` | event_processor.go:388-415 | a flush with something to flush ends with everything ever accepted handed over if and only if the channel had room at the send, and then waits or goes on accordingly |
| `ProtocolDelivery.RepliesComeAfterDelivery` | event_processor.go:233-252 | when the reply to a flush, sync or shutdown is sent, every payload put on the channel has been passed to the sender exactly as often as it was put there |
| `ProtocolReplies.EveryRequestIsReplied` | event_processor.go:233-252 | in every reachable state, enabled or not, the messages taken that want a reply (blocking flush, sync, shutdown) are, in order, those replied to and then the one that the main loop is flushing or waiting for; it is closed exactly when it has replied to a shutdown |
| `ProtocolReplies.OnlyWaitsHoldUpTheMainLoop` | event_processor.go:225-282 | while open and not waiting, the main loop can always go on, and while running it can take the next message and the next result |
| `ProtocolResults.ResultsTakeEffect` | event_processor.go:254-263 | in every reachable state each result returned for an analytics payload is with its worker, on the result channel or taken, as often as it was returned; disabled exactly if a taken result said so; the last known time is that of the latest result with a time before the shutdown |
| `ProtocolResults.LatestTimeCounts` | event_processor.go:261-262 | the last known time is the latest positive one, later or not than those before |
| `ProtocolEvents.EventsTakenAreProcessed` | event_processor.go:230-232 | over any run, the events processed are those of the messages taken, in order, up to the shutdown by the server, and the evaluations summarized are those of them that are not excluded |
| `ProtocolEvents.StatisticsReportTheLatestBatch` | event_processor.go:399-408 | over any run, the batch size in each statistics event is the number of events and summary in the latest analytics payload sent, or 0 if there was none, or a flush with nothing to flush, since the statistics event before |
| `ProtocolSteps.MessagesAreTaken` | event_processor.go:123-136 | a message posted while there is room joins the inbox, and the first one is what is taken |
| `ProtocolSteps.StatsTicksMakeEvents` | event_processor.go:268-281 | every tick with a manager, disabled or not, makes an event of the current counts and all pending inits and leads to a send |
| `ProtocolSteps.WorkersPassThingsOn` | event_processor.go:446-462 | a worker takes the first payload, passes exactly it to the sender, and posts exactly the result |
| `ProtocolHandlers.MessagesFollowHandlers` | event_processor.go:229-241 | in every reachable running state, taking an event or a flush does what the handler does, if no other process runs between its parts |
| `ProtocolHandlers.TicksFollowHandlers` | event_processor.go:264-281 | the same for the three ticks |
| `ProtocolHandlers.ResultsFollowHandler` | event_processor.go:254-263 | the same for results |
| `ProtocolDelivery.RepliesCoverWhatWasAccepted` | event_processor.go:233-252 | at the reply to a flush handled while enabled, everything ever accepted has been handed over if and only if the flush drained the outbox; at any reply while enabled, if and only if there is nothing to flush; once disabled, if and only if nothing was discarded |
| `ProtocolClose.CloseDeliversIff` | event_processor.go:138-149 | over every run from the step that handles the flush message of Close (or any other) to the reply to its shutdown message, whatever else happens in between: everything accepted before has been passed to the sender if and only if some flush on the way had nothing to flush or found room on the channel |
| `ProtocolDelivery.ShutdownIsPermanent` | event_processor.go:254-263 | once disabled: for ever disabled, nothing to flush, nothing more accepted, no analytics payload put on the channel, and each payload sent later was in flight before |
| `ProtocolDelivery.DeliveryKept` | event_processor.go:446-463 | every step keeps the channel first in, first out, and each received payload either sent or in one worker's hands |
| `ProtocolStatistics.StatisticsAddUp` | event_processor.go:268-281 | over any run, the events refused by the outbox and the references to a context still in the cache, both counted independently of the counters, equal what statistics events took over plus the current counters; windows chain; each stream init is in exactly one statistics event or pending |
| `ProtocolStatistics.EveryReferenceIsAccountedFor` | event_processor.go:354-366 | over any run, offers are as many as accepted and dropped events, and evaluations and custom events processed while enabled as many as index events offered and deduplications |
| `ProtocolDiagnostics.DiagnosticsPlacedIffRoom` | event_processor.go:417-433 | over any run, the diagnostic events made are the init event of the configuration and then the statistics events, or none without a manager; each is tried once, and those put on the flush channel are exactly those that found room, in order |
| `Accounting.OneIndexEventPerKey` | event_processor.go:354-366 | along every run of the whole system between two resets of the cache, with any flushes, ticks, results and worker steps in between: if no more distinct keys come than UserKeysCapacity (positive), the index events offered for a key are none if the cache held it already or its first reference is an identify event or there is none, and exactly one otherwise |
| `Accounting.NothingForgotten` | lru_cache.go:28-44 | while no more distinct keys than the capacity have come, the cache holds exactly the keys added |
| `DispatcherSpec.IndexOrDeduplicated` | event_processor.go:354-366 | every evaluation or custom event processed while enabled yields exactly one of an index event or a deduplication, and no other event yields either |
| `DispatcherSpec.ProcessEffect` | event_processor.go:286-373 | processing appends to the outbox the longest prefix of the offered events that fits, counts the rest as dropped, and summarizes the evaluation at most once |
| `EventEffects.EvaluationIsProcessed` | event_processor.go:301-321 | for any enabled dispatcher the outbox takes, as far as they fit: an index event unless the context key is still known, the evaluation itself if a full event is required and sampled, a debug copy if its date is set and later than both clocks and it is sampled; the evaluation is summarized unless excluded |
| `EventEffects.IdentifyIsProcessed` | event_processor.go:322-330 | an identify event is recorded if sampled, with no index event and no deduplication |
| `EventEffects.CustomIsProcessed` | event_processor.go:331-338 | a custom event is recorded if sampled, after an index event unless the key is still known |
| `EventEffects.OtherIsProcessed` | event_processor.go:339-353 | a migration event is recorded if sampled, a raw event always, and nothing else happens |
| `EventEffects.NothingKnownAfterReset` | event_processor.go:266-267 | after a reset of the cache no key is known, and nothing else has changed |
| `DispatcherSpec.ProcessMakesTheOffers` | event_processor.go:354-373 | index event before full event before debug copy, each under its own condition, is what processing offers |
| `DispatcherSpec.ProcessKeeps` | event_processor.go:286-289 | processing never changes the disabled flag, the last known time or the last batch size, and changes nothing while disabled |
| `DispatcherSpec.WithEventsTakesWhatFits` | outbox.go:25-36 | any sequence of offers to the outbox: the first ones up to capacity are kept in order, the others counted as dropped |
| `EventDispatcher.Dispatcher.ProcessEvent` | event_processor.go:286-373 | the in-place processEvent, over the heap outbox and cache, computes exactly the specified new dispatcher state and takes in only new objects |
| `EventDispatcher.Dispatcher.HandleSendResult` | event_processor.go:254-263 | a result disables and empties the dispatcher, or moves the last known time, or is ignored; only new objects are taken in |
| `EventDispatcher.Dispatcher.TriggerFlush` | event_processor.go:388-415 | a flush is sent exactly when enabled, non-empty and the channel has room; then the outbox is cleared, the wait group up by one, and the queued payload has the old outbox's contents and shares no object with the dispatcher; a refused flush changes nothing |
| `EventDispatcher.Dispatcher.SendDiagnosticsEvent` | event_processor.go:417-433 | a diagnostic event is queued and counted, or else dropped without a trace |
| `EventDispatcher.Dispatcher.ResetUserKeys` | event_processor.go:266-267 | the in-place reset forgets all keys and nothing else |
| `EventDispatcher.Dispatcher.SendStatistics` | event_processor.go:268-281 | the in-place statistics tick: the event carries the counts and pending inits, which all start over, and is queued exactly if the channel has room |
| `EventDispatcher.Dispatcher.constructor` | event_processor.go:151-164 | the dispatcher starts valid and empty, made of new objects |
| `DispatcherRuns.Run` | event_processor.go:225-282 | any sequence of steps of the main loop (events, results, flushes, cache resets, statistics ticks, with stream inits and workers taking messages in between), run in place on the heap, refines the functions on values and sends exactly the payloads they say; every message sent on the way or before shares no object with the dispatcher and still holds what was sent |
| `DispatcherRuns.RunFromStart` | event_processor.go:151-185 | the same from a new dispatcher and diagnostics manager |
| `EventsOutbox.Outbox.AddEvent` | outbox.go:25-36 | the event is appended, or counted as dropped when the buffer is full |
| `EventsOutbox.Outbox.AddToSummary` | outbox.go:38-40 | the evaluation is added to the summary, events untouched |
| `EventsOutbox.Outbox.GetPayload` | outbox.go:42-52 | the payload has the outbox's contents, its events in an array of its own (nil if none), and shares only the summary's maps: none of the objects that clear writes to |
| `EventsOutbox.Outbox.Clear` | outbox.go:54-60 | events and summary emptied, drop counters kept, all summary maps fresh |
| `EventsOutbox.Outbox.Flush` | event_processor.go:403-409 | after the send and the clear, payload and outbox share no object, and the outbox has taken in only new ones |
| `EventsOutbox.Outbox.RunWhilePayloadIsOut` | event_processor.go:403-409 | whatever sequence of addEvent, summarizeEvent and clear follows, a worker goes on reading the same payload |
| `Summarizer.EventSummarizer.SummarizeEvent` | event_summarizer.go:54-88 | the nested maps updated in place hold exactly the specified summary |
| `Summarizer.EventSummarizer.Snapshot` | event_summarizer.go:91-93 | the snapshot has the value of the live state, and its flag map is the live object: until the reset the two share all maps |
| `Summarizer.EventSummarizer.Reset` | event_summarizer.go:95-97 | an empty summary in fresh maps |
| `Summarizer.FlagMap.Record` | event_summarizer.go:54-79 | one evaluation changes exactly its own flag's entry: default, counter and kinds |
| `Summarizer.SharedHasCounters` | event_summarizer.go:49-51 | true if and only if the summary has a flag |
| `Summaries.FlagsAreExact` | event_summarizer.go:54-79 | a flag is in the summary iff it was evaluated; its default is that of the first evaluation and its kinds the union over all |
| `Summaries.CountersAreExact` | event_summarizer.go:65-73 | a counter exists iff some evaluation has its flag, variation and version; its count is their number and its value the first one's |
| `Summaries.StartDateIsExact` | event_summarizer.go:81-84 | the start date is the minimum over the evaluations after the last zero-dated one, 0 if there are none |
| `Summaries.EndDateIsExact` | event_summarizer.go:85-87 | the end date is the maximum |
| `Summaries.SummariesCompose` | event_summarizer.go:54-97 | the summary of two stretches is the merge of their summaries, with the exact effect of zero dates |
| `Summaries.EarlierStartDateIff` | event_summarizer.go:82-84 | the minimum of two set start dates is that of both stretches iff the second has no zero date, or the first none set, or the second still starts no later |
| `Summaries.ZeroDateForgetsStartDate` | event_summarizer.go:82-84 | a concrete pair of dates for which the minimum is lost |
| `LruCache.Cache.Add` | lru_cache.go:28-44 | true iff the value was added since the last clear and fewer than capacity distinct other values since; map and list go on matching the most-recent-first sequence |
| `LruCache.Cache.Clear` | lru_cache.go:21-24 | forgets everything, map and list agreeing |
| `LruCache.Cache.AddNew` | lru_cache.go:36-43 | the eviction loop ends, with Back never nil, and leaves the new value before the most recent others |
| `LruCache.Cache.constructor` | lru_cache.go:13-19 | an empty cache in which map and list agree |
| `LruCache.MatchesAfterPromotion` | lru_cache.go:32-35 | moving an element to the front keeps map and list in agreement and takes the value from its old place only |
| `Recency.ContentsAreTheMostRecent` | lru_cache.go:28-44 | the contents are the first capacity entries of the most-recent-first list of distinct values |
| `Recency.SmallerCacheHoldsPrefix` | lru_cache.go:28-44 | on the same run a smaller cache holds a prefix of a larger one, so hits are monotone in capacity |
| `Recency.InCacheIff` | lru_cache.go:28-35 | a value is held iff fewer than capacity distinct others were added since it last was |
| `Diagnostics.DiagnosticsManager.RecordStreamInit` | diagnostic_events.go:71-83 | the init is appended to those pending, nothing reported changes |
| `Diagnostics.DiagnosticsManager.CreateStatsEventAndReset` | diagnostic_events.go:128-157 | the event carries the given totals, the window's start and all pending inits; the next window starts at its creation date with none pending |
| `Diagnostics.ChainedWindows` | diagnostic_events.go:147-155 | each window starts where the one before it ended |
| `Diagnostics.StatsJsonSays` | diagnostic_events.go:136-153 | each field of the event sent, by name, and each stream init |
| `PrivateRefs.TrieIsExact` | context_formatter.go:58-77 | for every reference list, the trie has a node at p iff some reference has p as a prefix, and the node carries an attribute iff the first such reference is p itself |
| `PrivateRefs.NoDeadEnds` | context_formatter.go:58-77 | every node carries an attribute or has children |
| `PrivateRefs.EveryReferenceTakesEffectIff` | context_formatter.go:67-74 | every listed reference takes effect iff none follows a strict extension of itself without having been listed before that |
| `PrivateRefs.GlobalRefIs` | context_formatter.go:67-74 | a path is private by configuration iff a reference is listed for it before any for it or an extension of it, and that reference is the one found |
| `PrivateRefs.ListedPathsArePrivate` | context_formatter.go:67-74 | in that order, attributes mark exactly the listed paths |
| `PrivateRefs.AddressAfterStreetHasNoEffect` | context_formatter.go:67-74 | the concrete failure: /address listed after /address/street |
| `PrivateRefs.LookupIsExact` | context_formatter.go:320-347 | if no proper prefix of the path is private, the lookup gives the reference at the path, or else whether references lie strictly below it |
| `PrivateRefs.LookupBelowPrivateAttributeIsWrong` | context_formatter.go:341-344 | without that condition the fall-through at a childless node can give a wrong answer: /name/email taken for /email; the formatter never looks up such a path, since it does not descend into a private attribute |
| `PrivateAttrTrie.MakeLookupData` | context_formatter.go:38-79 | the trie built in place by moving a parent pointer has exactly the specified nodes, attributes and child maps |
| `PrivateAttrTrie.CheckGlobalPrivateAttrRefs` | context_formatter.go:320-347 | the lookup loop over the heap nodes computes the specified walk, fall-through included |
| `Redaction.FilterLeavesAlone` | context_formatter.go:222-225 | with no reference strictly below its path, filtering leaves an object as it is: the write-whole shortcut is the recursion |
| `Redaction.NoReferencesNothingPrivate` | context_formatter.go:286-302 | if neither configured nor per-context references lie strictly below a path, nothing below it is private |
| `Redaction.FilterAt` | context_formatter.go:199-235 | the filtered value has exactly those paths of the input of which no prefix is private |
| `Redaction.NothingPrivateSurvives` | context_formatter.go:237-241 | no private path is in the output, and the output has no path that the input lacks |
| `Redaction.PrivateIff` | context_formatter.go:263-302 | a path is private iff a configured reference for it takes effect or some reference of the context is for it |
| `Redaction.PrivateRefIs` | context_formatter.go:265-296 | the reference is the configured one if it takes effect, or else the first of the context's for the path |
| `Redaction.ReferencesAreHonoured` | context_formatter.go:275-300 | at the path of every reference of the context, and of every configured one that takes effect, nothing is in the output |
| `Redaction.OthersStay` | context_formatter.go:206-225 | a value for whose path and prefixes there is no reference stays |
| `Redaction.StreetIsDropped` | context_formatter.go:185-189 | an example: /address/street private to the context |
| `Redaction.EveryLeafKeptOrCut` | context_formatter.go:199-235 | every non-object value is in the output unchanged at its path, or has exactly one prefix among the cuts, never both |
| `Redaction.CutsAreClean` | context_formatter.go:257-304 | cuts exist in the input, are absent from the output, and none lies inside another |
| `Slices.Append` | context_formatter.go:199 | append may overwrite the shared backing array past the slice, and never what the slice itself holds |
| `ContextFormatter.EventContextFormatter.MaybeRedact` | context_formatter.go:257-304 | redacted iff the path is effectively private, listing exactly its reference; otherwise, for objects, nested iff some reference lies strictly below; requires that no proper prefix is private |
| `ContextFormatter.CheckOwnRefs` | context_formatter.go:275-303 | the per-context loop finds the first reference equal to the path, or tells whether one lies strictly below |
| `ContextFormatter.EventContextFormatter.WriteFilteredAttribute` | context_formatter.go:190-235 | for every value and reference set, writes exactly an encoding of the simple filter's result, lists exactly the cuts, once each, and leaves the parent path intact although siblings share its backing array; every recursive call meets the condition of the lookup |
| `ContextFormatter.EventContextFormatter.constructor` | context_formatter.go:27-36 | the formatter's lookup data are those of its reference list |
| `ContextFormatter.ProgressStep` | context_formatter.go:228-233 | one more property, written or cut, in any order of the properties |
| `ContextOutput.WriteContextInternalSingle` | context_formatter.go:110-162 | what is written reads back as the built-in attributes, the filtered optional ones that are set, and the list of references that redacted the others (all of them when everything is private) |
| `ContextOutput.WriteContextInternalMulti` | context_formatter.go:164-177 | what is written reads back as kind multi with each defined context under its own kind |
| `ContextOutput.MultiPropsRead` | context_formatter.go:166-174 | a reader finds the kind multi and each defined context under its own kind, and nothing else |
| `ContextOutput.EachContextIsRedacted` | context_formatter.go:168-173 | each context of several is redacted like a single one |
| `ContextOutput.BuiltInAttributes` | context_formatter.go:117-148 | a reader finds the key, the kind if it is included, and anonymous exactly if the context is |
| `ContextOutput.EverythingIsRedacted` | context_formatter.go:116-139 | if all attributes are private, or the context is anonymous and those are redacted, only built-in attributes are written and the list holds the literal references of exactly the attributes that are set, once each |
| `ContextOutput.OnlyReferencesAreRedacted` | context_formatter.go:140-159 | otherwise each leaf is written or cut out at a path that a reference is for, the list holds the texts of the cuts, and every reference of the context is honoured |
| `ContextOutput.ListedTextIs` | context_formatter.go:266-296 | the text listed is that of the configured reference that takes effect, or else of the first of the context's |
| `ContextOutput.EveryLeafWrittenOrListed` | context_formatter.go:129-144 | in a context not redacted as a whole, each leaf of an optional attribute is written unchanged at its path or has exactly one prefix in the redacted list |
| `ContextOutput.ListedPathsAreClean` | context_formatter.go:151-159 | each listed path exists in the input, nothing is written there, and no listed path lies inside another |
| `EventsOutput.MakeOutputEvents` | events_output.go:29-48 | for every payload as it lies on the heap: the returned count is the total that the flush computed; no data iff it is 0; the data read back as one array of the events and then the summary if it has counters |
| `EventsOutput.WriteSummaryEvent` | events_output.go:201-240 | for every iteration order of the heap maps and cells that the snapshot refers to, what is written is one of the JSON forms of its summary |
| `SummaryJson.DecodeIsSummary` | events_output.go:201-240 | every such form decodes to the same flags, defaults, counters (undefined variation and version kept apart from integers), counts and kinds |
| `SummaryJson.SummaryRoundTrip` | events_output.go:201-240 | a reader of the tokens gets the summary back |
| `SummaryJson.EveryEvaluationIsCounted` | events_output.go:214-228 | in the summary event of any evaluations, for each flag, variation and version with an evaluation, an item under those names counts them and has the value of the first |
| `SummaryJson.NothingElseIsCounted` | events_output.go:215-228 | there are no other items, and no two are alike |
| `SummaryJson.SummaryEventSays` | events_output.go:204-212 | the event's kind, dates, flags, and each flag's default and context kinds, by name |
| `SummaryJson.TokensTellSummariesApart` | events_output.go:201-240 | different summaries never come out as the same tokens |
| `Json.EncodingIsUnambiguous` | context_formatter.go:222-224 | whatever order properties are written in, tokens are the encoding of at most one value |
| `SummaryJson.DecodeListedCounters` | events_output.go:215-228 | counters decode to the same map whatever order they were written in |
| `EventsOutput.SummaryInOutput` | events_output.go:36-39 | the last item of the array decodes to the payload's summary |
| `EventsOutput.ItemsInOutput` | events_output.go:34-39 | each event is in its place in the array, and the summary follows exactly if it has a flag; as many as the flush counted |

## Left out

- HTTP sending, retries and headers (event_sender.go, util.go): the result of a send is an arbitrary value, and `SendEventData` is taken to return.
- Clocks, tickers, intervals and the start of the flush timeout in `FlushBlocking`: ticks and clock readings come at any time with any value; a client that gives up waiting is not modelled.
- The random sampler: each of the two draws (full event, debug copy) is an arbitrary boolean; ratios and forced sampling of single events are not part of the model.
- The order in which goroutines see memory: one step of the main loop or of a worker is atomic, and the model's steps are the channel, wait group and outbox operations.
- The inbox: a message is put there if there is room or handed over directly; a message dropped by a full inbox never appears, and the one-time warning about it is not modelled.
- The gate of diagnostics events (`CanSendStatsEvent`) and the content of the init event: a statistics tick that is held back does nothing.
- The identity of the SDK instance in statistics events, platform data and configuration data.
- JSON text: output is a sequence of tokens; string escaping and number formatting belong to the writer library, and numbers are reals, so rounding of dates and counts beyond 53 bits is not modelled.
- Integer widths: times, counts and sizes are unbounded naturals, so counters never wrap; capacities are not negative.
- Parsing of attribute references (ldattr): a reference is its components and its text; the text form of a literal reference is a parameter.
- Preserialized and invalid contexts: passed through or reported without logic of their own.
- The fields of single output events (`writeOutputEvent`, migration measurements): a function from events to JSON values stands for them.
- ContextOutput.ListedPathsAreClean: says nothing of optional attributes named kind, key, anonymous or _meta, which the context builder keeps apart.
- LruCache.Cache.Add: takes values of one type with equality instead of arbitrary interface values.
- The recover at the start of the main loop, logging, and the constructors of event data (inputs.go).
