/** What becomes of the messages: which events are processed, which evaluations are summarized, and what size of the
    latest batch the statistics events report. */
module ProtocolEvents {
  import opened Wrappers
  import opened Events
  import opened Summaries
  import opened OutboxSpec
  import opened DispatcherSpec
  import opened Diagnostics
  import opened Protocol

  /** The events among the messages. */
  function EventsIn(ms: seq<Message>): seq<Input> {
    if ms == [] then []
    else EventsIn(ms[..|ms| - 1]) + if ms[|ms| - 1].SendEvent? then [ms[|ms| - 1].evt] else []
  }

  /** The evaluations among the events that are not excluded from summaries. */
  function ForSummaries(evts: seq<Input>): seq<Evaluation> {
    if evts == [] then []
    else
      var evt := evts[|evts| - 1];
      ForSummaries(evts[..|evts| - 1]) + if evt.Evaluated? && !evt.eval.excludeFromSummaries then [evt.eval] else []
  }

  /** The number of output events of a batch, counted by its parts. */
  function BatchSize(batch: Option<Payload>): nat {
    match batch
    case Some(Analytics(events, summary)) => |events| + if summary.flags.Keys == {} then 0 else 1
    case _ => 0
  }

  ghost predicate Handled(taken: seq<Message>, processed: seq<Input>, summarized: seq<Evaluation>, disabled: bool) {
    && processed <= EventsIn(taken)
    && (!disabled ==> processed == EventsIn(taken))
    && summarized == ForSummaries(processed)
  }

  ghost predicate BatchesReported(stats: seq<StatsEvent>, batches: seq<Option<Payload>>) {
    && |stats| == |batches|
    && forall i :: 0 <= i < |stats| ==> stats[i].eventsInLastBatch == BatchSize(batches[i])
  }

  /** The latest analytics payload that was put on the channel. */
  function LatestAnalytics(placed: seq<Placed>): Option<Payload> {
    if placed == [] then None
    else
      var p := placed[|placed| - 1].payload;
      if p.Analytics? then Some(p) else LatestAnalytics(placed[..|placed| - 1])
  }

  ghost predicate BatchIsLatest(main: MainLoop, batch: Option<Payload>, placed: seq<Placed>) {
    if main.Sent? then LatestAnalytics(placed) == Some(main.payload)
    else batch.Some? ==> batch == LatestAnalytics(placed)
  }

  ghost predicate Batches(main: MainLoop, d: Dispatcher, h: History) {
    && d.eventsInLastBatch == BatchSize(h.batch)
    && (main.Sent? || main.Flushing? ==> main.payload == PayloadOf(d.outbox))
    && (main.StartingDiagnostics? || main.SendingDiagnostics? ==> main.payload.Diagnostic?)
    && BatchIsLatest(main, h.batch, h.placed)
    && BatchesReported(h.stats, h.batches)
  }

  ghost predicate EventsHandled(s: State) {
    && Handled(s.h.taken, s.h.processed, s.h.summarized, s.d.disabled)
    && Batches(s.main, s.d, s.h)
  }

  lemma EventsInAppend(ms: seq<Message>, m: Message)
    ensures EventsIn(ms + [m]) == EventsIn(ms) + if m.SendEvent? then [m.evt] else []
  {
    assert (ms + [m])[..|ms|] == ms;
  }

  lemma ForSummariesAppend(evts: seq<Input>, evt: Input)
    ensures ForSummaries(evts + [evt])
         == ForSummaries(evts) + if evt.Evaluated? && !evt.eval.excludeFromSummaries then [evt.eval] else []
  {
    assert (evts + [evt])[..|evts|] == evts;
  }

  lemma HandledOneMore(taken: seq<Message>, m: Message, processed: seq<Input>, summarized: seq<Evaluation>, d: Dispatcher)
    requires Handled(taken, processed, summarized, d.disabled)
    ensures var evts := if m.SendEvent? && !d.disabled then [m.evt] else [];
      var evals := if m.SendEvent? then SummarizedBy(d, m.evt) else [];
      Handled(taken + [m], processed + evts, summarized + evals, d.disabled)
  {
    EventsInAppend(taken, m);
    assert processed + [] == processed && summarized + [] == summarized;
    if m.SendEvent? && !d.disabled {
      ForSummariesAppend(processed, m.evt);
    }
  }

  lemma MessageHandled(c: Config, s: State, m: Message, chance: Chance)
    ensures var t := Handle(c, s, m, chance);
      && t.h.taken == s.h.taken && t.d.disabled == s.d.disabled
      && t.h.processed == s.h.processed + (if m.SendEvent? && !s.d.disabled then [m.evt] else [])
      && t.h.summarized == s.h.summarized + if m.SendEvent? then SummarizedBy(s.d, m.evt) else []
  {
    match m
    case SendEvent(evt) => ProcessKeeps(c, s.d, evt, chance);
    case Flush(_) =>
    case Sync =>
    case Shutdown =>
  }

  lemma NothingToFlushKeepsBatches(main: MainLoop, d: Dispatcher, h: History, next: MainLoop)
    requires Batches(main, d, h) && main.Running? && (next.Running? || next.Waiting?)
    ensures Batches(next, d.(eventsInLastBatch := 0), h.(batch := None))
    ensures Batches(next, d, h)
  {
  }

  lemma FlushingKeepsBatches(main: MainLoop, d: Dispatcher, h: History, replies: bool)
    requires Batches(main, d, h) && main.Running?
    ensures Batches(Flushing(PayloadOf(d.outbox), replies), d, h)
  {
  }

  lemma FlushKeepsBatches(s: State, replies: bool)
    requires Batches(s.main, s.d, s.h) && s.main.Running?
    ensures var t := TriggerFlush(s, replies);
      Batches(t.main, t.d, t.h)
  {
    if s.d.disabled || !SomethingToFlush(s.d) {
      NothingToFlushKeepsBatches(s.main, s.d, s.h, TriggerFlush(s, replies).main);
    } else {
      FlushingKeepsBatches(s.main, s.d, s.h, replies);
    }
  }

  lemma EventKeepsBatches(c: Config, s: State, evt: Input, chance: Chance)
    requires Batches(s.main, s.d, s.h) && s.main.Running?
    ensures var t := Handle(c, s, SendEvent(evt), chance);
      Batches(t.main, t.d, t.h)
  {
    ProcessKeeps(c, s.d, evt, chance);
  }

  lemma MessageKeepsBatches(c: Config, s: State, m: Message, chance: Chance)
    requires Batches(s.main, s.d, s.h) && s.main.Running?
    ensures var t := Handle(c, s, m, chance);
      Batches(t.main, t.d, t.h)
  {
    match m
    case SendEvent(evt) => EventKeepsBatches(c, s, evt, chance);
    case Flush(replies) => FlushKeepsBatches(s, replies);
    case Sync =>
    case Shutdown =>
  }

  lemma TakeKeepsEvents(c: Config, s: State, chance: Chance)
    requires EventsHandled(s) && Enabled(c, s, Take(chance))
    ensures EventsHandled(Next(c, s, Take(chance)))
  {
    var m := s.inbox[0];
    var s1 := s.(inbox := s.inbox[1..], h := s.h.(taken := s.h.taken + [m]));
    MessageHandled(c, s1, m, chance);
    HandledOneMore(s.h.taken, m, s.h.processed, s.h.summarized, s.d);
    MessageKeepsBatches(c, s1, m, chance);
  }

  lemma HandOverKeepsEvents(c: Config, s: State, m: Message, chance: Chance)
    requires EventsHandled(s) && Enabled(c, s, HandOver(m, chance))
    ensures EventsHandled(Next(c, s, HandOver(m, chance)))
  {
    var s1 := s.(h := s.h.(posted := s.h.posted + [m], taken := s.h.taken + [m]));
    MessageHandled(c, s1, m, chance);
    HandledOneMore(s.h.taken, m, s.h.processed, s.h.summarized, s.d);
    MessageKeepsBatches(c, s1, m, chance);
  }

  lemma ReportKeepsEvents(s: State, now: Time)
    requires EventsHandled(s) && s.main.Running?
    ensures EventsHandled(ReportStats(s, now))
  {
    var t := ReportStats(s, now);
    forall i | 0 <= i < |t.h.stats| ensures t.h.stats[i].eventsInLastBatch == BatchSize(t.h.batches[i]) {
    }
  }

  lemma ClearKeepsEvents(c: Config, s: State)
    requires EventsHandled(s) && Enabled(c, s, ClearOutbox)
    ensures EventsHandled(Next(c, s, ClearOutbox))
  {
  }

  lemma ResultKeepsEvents(s: State, r: SendResult)
    requires EventsHandled(s) && s.main.Running?
    ensures EventsHandled(AfterResult(s, r))
  {
  }

  lemma SendKeepsEvents(s: State)
    requires EventsHandled(s) && (s.main.Flushing? || s.main.SendingDiagnostics?)
    ensures EventsHandled(AfterTrySend(s))
  {
    LatestAppend(s.h.placed, Placed(s.main.payload, if s.main.Flushing? then s.h.sinceCleared else []));
  }

  lemma LatestAppend(placed: seq<Placed>, p: Placed)
    ensures LatestAnalytics(placed + [p]) == if p.payload.Analytics? then Some(p.payload) else LatestAnalytics(placed)
  {
    assert (placed + [p])[..|placed|] == placed;
  }

  lemma ClientsKeepEvents(c: Config, s: State, a: Action)
    requires EventsHandled(s) && Enabled(c, s, a) && (a.Post? || a.StreamInitialized?)
    ensures EventsHandled(Next(c, s, a))
  {
    match a
    case Post(_) =>
    case StreamInitialized(_) =>
  }

  lemma OthersKeepEvents(c: Config, s: State, a: Action)
    requires EventsHandled(s) && Enabled(c, s, a)
    requires a.KeysTick? || a.StartDiagnostics? || a.UndoAdd? || a.FinishWait?
    ensures EventsHandled(Next(c, s, a))
  {
    match a
    case KeysTick =>
    case StartDiagnostics =>
    case UndoAdd =>
    case FinishWait =>
  }

  lemma FlushTickKeepsEvents(c: Config, s: State)
    requires EventsHandled(s) && Enabled(c, s, FlushTick)
    ensures EventsHandled(Next(c, s, FlushTick))
  {
    FlushKeepsBatches(s, false);
  }

  lemma EventsKept(c: Config, s: State, a: Action)
    requires EventsHandled(s) && Enabled(c, s, a)
    ensures EventsHandled(Next(c, s, a))
  {
    if ByWorker(a) {
      WorkerLeavesMain(c, s, a);
    } else {
      match a
      case Take(chance) => TakeKeepsEvents(c, s, chance);
      case HandOver(m, chance) => HandOverKeepsEvents(c, s, m, chance);
      case StatsTick(now) => ReportKeepsEvents(s, now);
      case ClearOutbox => ClearKeepsEvents(c, s);
      case TakeResult => ResultKeepsEvents(s.(resultCh := s.resultCh[1..]), s.resultCh[0]);
      case TrySend => SendKeepsEvents(s);
      case FlushTick => FlushTickKeepsEvents(c, s);
      case Post(_) => ClientsKeepEvents(c, s, a);
      case StreamInitialized(_) => ClientsKeepEvents(c, s, a);
      case _ => OthersKeepEvents(c, s, a);
    }
  }

  lemma {:induction false} EventsAlong(c: Config, s: State, acts: seq<Action>, t: State)
    requires EventsHandled(s) && IsRun(c, s, acts, t)
    ensures EventsHandled(t)
    decreases |acts|
  {
    if acts != [] {
      EventsKept(c, s, acts[0]);
      EventsAlong(c, Next(c, s, acts[0]), acts[1..], t);
    }
  }

  lemma ReachableEvents(c: Config, s: State)
    requires Reachable(c, s)
    ensures EventsHandled(s)
  {
    var s0, acts :| Init(c, s0) && IsRun(c, s0, acts, s);
    EventsAlong(c, s0, acts, s);
  }

  /** In every reachable state, the events processed are those of the messages taken, up to the shutdown by the
      server; and the evaluations summarized are those among them that are not excluded from summaries. */
  lemma EventsTakenAreProcessed(c: Config, s: State)
    requires Reachable(c, s)
    ensures s.h.processed <= EventsIn(s.h.taken)
    ensures !s.d.disabled ==> s.h.processed == EventsIn(s.h.taken)
    ensures s.h.summarized == ForSummaries(s.h.processed)
  {
    ReachableEvents(c, s);
  }

  /** The batch size of each statistics event is that of the latest analytics payload put on the channel, or 0 if
      there has been none, or a flush with nothing to flush, since the statistics event before. */
  lemma StatisticsReportTheLatestBatch(c: Config, s: State)
    requires Reachable(c, s)
    ensures |s.h.stats| == |s.h.batches|
    ensures forall i :: 0 <= i < |s.h.stats| ==> s.h.stats[i].eventsInLastBatch == BatchSize(s.h.batches[i])
    ensures s.d.eventsInLastBatch == BatchSize(s.h.batch)
    ensures !s.main.Sent? && s.h.batch.Some? ==> s.h.batch == LatestAnalytics(s.h.placed)
  {
    ReachableEvents(c, s);
  }
}
