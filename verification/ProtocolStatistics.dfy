/** The totals behind the statistics events: what they report adds up to what happened. */
module ProtocolStatistics {
  import opened Events
  import opened DispatcherSpec
  import opened Diagnostics
  import opened Protocol

  function DroppedIn(stats: seq<StatsEvent>): nat {
    if stats == [] then 0 else DroppedIn(stats[..|stats| - 1]) + stats[|stats| - 1].droppedEvents
  }

  function DeduplicatedIn(stats: seq<StatsEvent>): nat {
    if stats == [] then 0 else DeduplicatedIn(stats[..|stats| - 1]) + stats[|stats| - 1].deduplicatedUsers
  }

  /** What the statistics events took over and what is still to be reported make up the totals. */
  ghost predicate Tallied(h: History, dropped: nat, deduplicated: nat, pending: Pending) {
    && h.dropped == DroppedIn(h.stats) + dropped
    && h.deduplicated == DeduplicatedIn(h.stats) + deduplicated
    && WindowsChain(h.started, h.stats, pending.dataSinceTime)
    && h.inits == InitsReported(h.stats) + pending.streamInits
  }

  /** The number of evaluations and custom events. */
  function References(evts: seq<Input>): nat {
    if evts == [] then 0
    else
      var evt := evts[|evts| - 1];
      References(evts[..|evts| - 1]) + if evt.Evaluated? || evt.Custom? then 1 else 0
  }

  /** What was offered was taken or dropped; and each reference to a context made an index event or was
      a repetition. */
  predicate Accounted(processed: seq<Input>, offered: seq<Output>, accepted: seq<Output>, dropped: nat, deduplicated: nat) {
    && |offered| == |accepted| + dropped
    && References(processed) == |IndexEvents(offered)| + deduplicated
  }

  ghost predicate Statistics(s: State) {
    && Tallied(s.h, s.d.outbox.droppedEvents, s.d.deduplicatedContexts, s.diagnostics)
    && Accounted(s.h.processed, s.h.offered, s.h.accepted, s.h.dropped, s.h.deduplicated)
  }

  lemma StatisticsAppend(stats: seq<StatsEvent>, e: StatsEvent)
    ensures DroppedIn(stats + [e]) == DroppedIn(stats) + e.droppedEvents
    ensures DeduplicatedIn(stats + [e]) == DeduplicatedIn(stats) + e.deduplicatedUsers
    ensures InitsReported(stats + [e]) == InitsReported(stats) + e.streamInits
    ensures forall start :: WindowsChain(start, stats + [e], e.creationDate) <==> WindowsChain(start, stats, e.dataSinceDate)
  {
    assert (stats + [e])[..|stats|] == stats;
  }

  lemma ReportKeepsStatistics(s: State, now: Time)
    requires Statistics(s)
    ensures Statistics(ReportStats(s, now))
  {
    var e := Reported(s.diagnostics, now, s.d.outbox.droppedEvents, s.d.deduplicatedContexts, s.d.eventsInLastBatch);
    StatisticsAppend(s.h.stats, e);
    assert s.h.inits + [] == s.h.inits;
  }

  lemma AccountedAfterEvent(c: Config, d: Dispatcher, evt: Input, chance: Chance, processed: seq<Input>,
                            offered: seq<Output>, accepted: seq<Output>, dropped: nat, deduplicated: nat)
    requires !d.disabled && Accounted(processed, offered, accepted, dropped, deduplicated)
    ensures var offers := Offers(c, d, evt, chance);
      var taken := Accepted(Room(c, d), offers);
      Accounted(processed + [evt], offered + offers, accepted + taken, dropped + |offers| - |taken|,
                deduplicated + if FindsItsContext(c, d, evt) then 1 else 0)
  {
    assert (processed + [evt])[..|processed|] == processed;
    IndexEventsConcat(offered, Offers(c, d, evt, chance));
    IndexOrDeduplicated(c, d, evt, chance);
  }

  lemma EventKeepsTallies(c: Config, s: State, evt: Input, chance: Chance)
    requires Statistics(s) && !s.d.disabled
    ensures var t := Handle(c, s, SendEvent(evt), chance);
      Tallied(t.h, t.d.outbox.droppedEvents, t.d.deduplicatedContexts, t.diagnostics)
  {
    IndexOrDeduplicated(c, s.d, evt, chance);
    ProcessEffect(c, s.d, evt, chance);
  }

  lemma EventKeepsStatistics(c: Config, s: State, evt: Input, chance: Chance)
    requires Statistics(s)
    ensures Statistics(Handle(c, s, SendEvent(evt), chance))
  {
    if s.d.disabled {
      ProcessKeeps(c, s.d, evt, chance);
      assert s.h.processed + [] == s.h.processed && s.h.offered + [] == s.h.offered && s.h.accepted + [] == s.h.accepted;
    } else {
      EventKeepsTallies(c, s, evt, chance);
      AccountedAfterEvent(c, s.d, evt, chance, s.h.processed, s.h.offered, s.h.accepted, s.h.dropped, s.h.deduplicated);
    }
  }

  lemma MessageKeepsStatistics(c: Config, s: State, m: Message, chance: Chance)
    requires Statistics(s)
    ensures Statistics(Handle(c, s, m, chance))
  {
    if m.SendEvent? {
      EventKeepsStatistics(c, s, m.evt, chance);
    }
  }

  lemma TakeKeepsStatistics(c: Config, s: State, chance: Chance)
    requires Statistics(s) && Enabled(c, s, Take(chance))
    ensures Statistics(Next(c, s, Take(chance)))
  {
    MessageKeepsStatistics(c, s.(inbox := s.inbox[1..], h := s.h.(taken := s.h.taken + [s.inbox[0]])), s.inbox[0], chance);
  }

  lemma HandOverKeepsStatistics(c: Config, s: State, m: Message, chance: Chance)
    requires Statistics(s) && Enabled(c, s, HandOver(m, chance))
    ensures Statistics(Next(c, s, HandOver(m, chance)))
  {
    MessageKeepsStatistics(c, s.(h := s.h.(posted := s.h.posted + [m], taken := s.h.taken + [m])), m, chance);
  }

  lemma InitKeepsStatistics(c: Config, s: State, i: StreamInit)
    requires Statistics(s) && HasManager(c)
    ensures Statistics(Next(c, s, StreamInitialized(i)))
  {
  }

  /** The counts, what is pending, and the part of the history that they are measured by. */
  predicate SameCounts(s: State, t: State) {
    && t.diagnostics == s.diagnostics
    && t.d.outbox.droppedEvents == s.d.outbox.droppedEvents
    && t.d.deduplicatedContexts == s.d.deduplicatedContexts
    && t.h.processed == s.h.processed && t.h.offered == s.h.offered && t.h.accepted == s.h.accepted
    && t.h.dropped == s.h.dropped && t.h.deduplicated == s.h.deduplicated
    && t.h.stats == s.h.stats && t.h.inits == s.h.inits && t.h.started == s.h.started
  }

  lemma FlushingLeavesCounts(c: Config, s: State, a: Action)
    requires Enabled(c, s, a) && (a.FlushTick? || a.ClearOutbox? || a.UndoAdd?)
    ensures SameCounts(s, Next(c, s, a))
  {
    match a
    case FlushTick =>
    case ClearOutbox =>
    case UndoAdd =>
  }

  lemma ResultLeavesCounts(s: State, r: SendResult)
    ensures SameCounts(s, AfterResult(s, r))
  {
  }

  lemma SendLeavesCounts(s: State)
    requires s.main.Flushing? || s.main.SendingDiagnostics?
    ensures SameCounts(s, AfterTrySend(s))
  {
  }

  lemma OthersLeaveCounts(c: Config, s: State, a: Action)
    requires Enabled(c, s, a) && (a.Post? || a.KeysTick? || a.StartDiagnostics? || a.FinishWait?)
    ensures SameCounts(s, Next(c, s, a))
  {
    match a
    case Post(_) =>
    case KeysTick =>
    case StartDiagnostics =>
    case FinishWait =>
  }

  /** The other steps leave the counts and what is pending alone. */
  lemma QuietForStatistics(c: Config, s: State, a: Action)
    requires Enabled(c, s, a) && !(a.StreamInitialized? || a.Take? || a.HandOver? || a.StatsTick?)
    ensures SameCounts(s, Next(c, s, a))
  {
    if ByWorker(a) {
      WorkerLeavesMain(c, s, a);
    } else if a.Post? || a.KeysTick? || a.StartDiagnostics? || a.FinishWait? {
      OthersLeaveCounts(c, s, a);
    } else if a.TrySend? {
      SendLeavesCounts(s);
    } else if a.TakeResult? {
      ResultLeavesCounts(s.(resultCh := s.resultCh[1..]), s.resultCh[0]);
    } else {
      FlushingLeavesCounts(c, s, a);
    }
  }

  lemma StatisticsKept(c: Config, s: State, a: Action)
    requires Statistics(s) && Enabled(c, s, a)
    ensures Statistics(Next(c, s, a))
  {
    match a
    case StreamInitialized(i) => InitKeepsStatistics(c, s, i);
    case Take(chance) => TakeKeepsStatistics(c, s, chance);
    case HandOver(m, chance) => HandOverKeepsStatistics(c, s, m, chance);
    case StatsTick(now) => ReportKeepsStatistics(s, now);
    case _ => QuietForStatistics(c, s, a);
  }

  lemma {:induction false} StatisticsAlong(c: Config, s: State, acts: seq<Action>, t: State)
    requires Statistics(s) && IsRun(c, s, acts, t)
    ensures Statistics(t)
    decreases |acts|
  {
    if acts != [] {
      StatisticsKept(c, s, acts[0]);
      StatisticsAlong(c, Next(c, s, acts[0]), acts[1..], t);
    }
  }

  lemma ReachableStatistics(c: Config, s: State)
    requires Reachable(c, s)
    ensures Statistics(s)
  {
    var s0, acts :| Init(c, s0) && IsRun(c, s0, acts, s);
    StatisticsAlong(c, s0, acts, s);
  }

  /** In every reachable state, the dropped and deduplicated totals are what the statistics events took
      over plus the current counts; each event's window starts where the one before it ended; and each
      stream init is in exactly one statistics event, in order, or still to be reported. */
  lemma StatisticsAddUp(c: Config, s: State)
    requires Reachable(c, s)
    ensures s.h.dropped == DroppedIn(s.h.stats) + s.d.outbox.droppedEvents
    ensures s.h.deduplicated == DeduplicatedIn(s.h.stats) + s.d.deduplicatedContexts
    ensures s.h.inits == InitsReported(s.h.stats) + s.diagnostics.streamInits
    ensures forall i :: 0 <= i < |s.h.stats| ==>
      s.h.stats[i].dataSinceDate == if i == 0 then s.h.started else s.h.stats[i - 1].creationDate
  {
    ReachableStatistics(c, s);
    forall i | 0 <= i < |s.h.stats|
      ensures s.h.stats[i].dataSinceDate == if i == 0 then s.h.started else s.h.stats[i - 1].creationDate
    {
      ChainedWindows(s.h.started, s.h.stats, s.diagnostics.dataSinceTime, i);
    }
  }

  /** Over any run: what was offered to the outbox was taken or counted as dropped; and the evaluations and
      custom events processed while enabled are as many as the index events offered and the deduplications. */
  lemma EveryReferenceIsAccountedFor(c: Config, s: State)
    requires Reachable(c, s)
    ensures |s.h.offered| == |s.h.accepted| + DroppedIn(s.h.stats) + s.d.outbox.droppedEvents
    ensures References(s.h.processed)
         == |IndexEvents(s.h.offered)| + DeduplicatedIn(s.h.stats) + s.d.deduplicatedContexts
  {
    ReachableStatistics(c, s);
  }
}
