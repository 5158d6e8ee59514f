/** Conservation over whole runs: every event that the outbox took, and every evaluation that was
    summarized, is in exactly one place. */
module ProtocolConservation {
  import opened Events
  import opened Summaries
  import opened OutboxSpec
  import opened DispatcherSpec
  import opened Protocol

  /** The events of all payloads put on the flush channel, in that order. */
  function EventsPlaced(placed: seq<Placed>): seq<Output> {
    if placed == [] then []
    else
      var p := placed[|placed| - 1].payload;
      EventsPlaced(placed[..|placed| - 1]) + if p.Analytics? then p.events else []
  }

  function EvalsPlaced(placed: seq<Placed>): seq<Evaluation> {
    if placed == [] then [] else EvalsPlaced(placed[..|placed| - 1]) + placed[|placed| - 1].evals
  }

  /** Between the send and the clearing, what is still in the outbox counts as placed only. */
  function LiveEvents(s: State): seq<Output> {
    if s.main.Sent? then [] else s.d.outbox.events
  }

  function LiveEvals(s: State): seq<Evaluation> {
    if s.main.Sent? then [] else s.h.sinceCleared
  }

  predicate PlacedWell(p: Placed) {
    match p.payload
    case Diagnostic(_) => p.evals == []
    case Analytics(_, summary) => EventCount(p.payload) > 0 && summary == SummaryOf(p.evals)
  }

  /** How the outbox stands at each point of the main loop. */
  predicate OutboxConsistent(c: Config, main: MainLoop, d: Dispatcher, sinceCleared: seq<Evaluation>) {
    && |d.outbox.events| <= c.capacity
    && d.outbox.summary == SummaryOf(sinceCleared)
    && (main.Flushing? || main.Sent? ==> !d.disabled && SomethingToFlush(d) && main.payload == PayloadOf(d.outbox))
    && (main.StartingDiagnostics? || main.SendingDiagnostics? ==> main.payload.Diagnostic?)
    && (d.disabled ==> d.outbox.events == [] && sinceCleared == [])
    && (main == Refused(true) ==> !d.disabled && SomethingToFlush(d))
    && (main == Waiting(ForFlush(true)) ==> !d.disabled && d.outbox.events == [] && sinceCleared == [])
    && (main == Waiting(ForFlush(false)) ==> d.disabled || SomethingToFlush(d))
  }

  predicate EventsAddUp(accepted: seq<Output>, placed: seq<Placed>, live: seq<Output>, discarded: seq<Output>) {
    accepted == EventsPlaced(placed) + live + discarded
  }

  predicate EvalsAddUp(summarized: seq<Evaluation>, placed: seq<Placed>, live: seq<Evaluation>, discarded: seq<Evaluation>) {
    summarized == EvalsPlaced(placed) + live + discarded
  }

  predicate AllPlacedWell(placed: seq<Placed>) {
    forall i :: 0 <= i < |placed| ==> PlacedWell(placed[i])
  }

  predicate NothingDiscarded(h: History) {
    h.discarded == [] && h.discardedEvals == []
  }

  predicate Books(c: Config, s: State) {
    && OutboxConsistent(c, s.main, s.d, s.h.sinceCleared)
    && EventsAddUp(s.h.accepted, s.h.placed, LiveEvents(s), s.h.discarded)
    && EvalsAddUp(s.h.summarized, s.h.placed, LiveEvals(s), s.h.discardedEvals)
    && AllPlacedWell(s.h.placed)
    && (!s.d.disabled ==> NothingDiscarded(s.h))
    && s.h.posted == s.h.taken + s.inbox
  }

  lemma NoFlagsNoEvaluations(evals: seq<Evaluation>)
    ensures !HasCounters(SummaryOf(evals)) <==> evals == []
  {
    if evals != [] {
      assert evals[|evals| - 1].flagKey in SummaryOf(evals).flags.Keys;
    }
  }

  lemma BooksAtStart(c: Config, s: State)
    requires Init(c, s)
    ensures Books(c, s)
  {
  }

  lemma AddUpWithMore<T>(all: seq<T>, placed: seq<T>, live: seq<T>, more: seq<T>)
    requires all == placed + live + []
    ensures all + more == placed + (live + more) + []
  {
  }

  lemma DisabledEventKeepsBooks(c: Config, s: State, evt: Input, chance: Chance)
    requires Books(c, s) && s.main.Running? && s.d.disabled
    ensures Books(c, Handle(c, s, SendEvent(evt), chance))
  {
    ProcessKeeps(c, s.d, evt, chance);
    assert s.h.accepted + [] == s.h.accepted && s.h.summarized + [] == s.h.summarized;
    assert s.h.sinceCleared + [] == s.h.sinceCleared;
  }

  lemma EventKeepsOutboxConsistent(c: Config, s: State, evt: Input, chance: Chance)
    requires Books(c, s) && s.main.Running? && !s.d.disabled
    ensures OutboxConsistent(c, Running, Process(c, s.d, evt, chance), s.h.sinceCleared + SummarizedBy(s.d, evt))
  {
    ProcessKeeps(c, s.d, evt, chance);
    ProcessEffect(c, s.d, evt, chance);
    var evals := SummarizedBy(s.d, evt);
    if evals != [] {
      SummaryOfAppend(s.h.sinceCleared, evals[0]);
    } else {
      assert s.h.sinceCleared + [] == s.h.sinceCleared;
    }
  }

  /** Processing an event. */
  lemma EventKeepsBooks(c: Config, s: State, evt: Input, chance: Chance)
    requires Books(c, s) && s.main.Running?
    ensures Books(c, Handle(c, s, SendEvent(evt), chance))
  {
    if s.d.disabled {
      DisabledEventKeepsBooks(c, s, evt, chance);
    } else {
      EventKeepsOutboxConsistent(c, s, evt, chance);
      ProcessKeeps(c, s.d, evt, chance);
      ProcessEffect(c, s.d, evt, chance);
      AddUpWithMore(s.h.accepted, EventsPlaced(s.h.placed), LiveEvents(s),
                    Accepted(Room(c, s.d), Offers(c, s.d, evt, chance)));
      AddUpWithMore(s.h.summarized, EvalsPlaced(s.h.placed), LiveEvals(s), SummarizedBy(s.d, evt));
    }
  }

  lemma FlushKeepsOutboxConsistent(c: Config, main: MainLoop, d: Dispatcher, sinceCleared: seq<Evaluation>)
    requires OutboxConsistent(c, Running, d, sinceCleared)
    requires if d.disabled then main == Running || main == Waiting(ForFlush(false))
             else if SomethingToFlush(d) then main.Flushing? && main.payload == PayloadOf(d.outbox)
             else main == Running || main == Waiting(ForFlush(true))
    ensures OutboxConsistent(c, main, d, sinceCleared)
  {
    NoFlagsNoEvaluations(sinceCleared);
  }

  lemma FlushKeepsBooks(c: Config, s: State, replies: bool)
    requires Books(c, s) && s.main.Running?
    ensures Books(c, TriggerFlush(s, replies))
  {
    var t := TriggerFlush(s, replies);
    FlushKeepsOutboxConsistent(c, t.main, s.d, s.h.sinceCleared);
    SameBooks(c, s, t);
  }

  lemma MessageKeepsBooks(c: Config, s: State, m: Message, chance: Chance)
    requires Books(c, s) && s.main.Running?
    ensures Books(c, Handle(c, s, m, chance))
  {
    match m
    case SendEvent(evt) => EventKeepsBooks(c, s, evt, chance);
    case Flush(replies) => FlushKeepsBooks(c, s, replies);
    case _ =>
  }

  lemma PlacedAddUp(placed: seq<Placed>, p: Placed)
    ensures EventsPlaced(placed + [p]) == EventsPlaced(placed) + if p.payload.Analytics? then p.payload.events else []
    ensures EvalsPlaced(placed + [p]) == EvalsPlaced(placed) + p.evals
    ensures AllPlacedWell(placed) && PlacedWell(p) ==> AllPlacedWell(placed + [p])
  {
    assert (placed + [p])[..|placed|] == placed;
  }

  lemma LiveToPlaced<T>(all: seq<T>, placed: seq<T>, live: seq<T>)
    requires all == placed + live + []
    ensures all == (placed + live) + [] + []
  {
  }

  lemma FlushSentKeepsBooks(c: Config, s: State)
    requires Books(c, s) && s.main.Flushing? && |s.flushCh| < FLUSH_CHANNEL_CAPACITY
    ensures Books(c, AfterTrySend(s))
  {
    var p := Placed(s.main.payload, s.h.sinceCleared);
    PlacedAddUp(s.h.placed, p);
    LiveToPlaced(s.h.accepted, EventsPlaced(s.h.placed), s.d.outbox.events);
    LiveToPlaced(s.h.summarized, EvalsPlaced(s.h.placed), s.h.sinceCleared);
  }

  lemma DiagnosticsSentKeepsBooks(c: Config, s: State)
    requires Books(c, s) && s.main.SendingDiagnostics? && |s.flushCh| < FLUSH_CHANNEL_CAPACITY
    ensures Books(c, AfterTrySend(s))
  {
    PlacedAddUp(s.h.placed, Placed(s.main.payload, []));
    assert EventsPlaced(s.h.placed) + [] == EventsPlaced(s.h.placed);
    assert EvalsPlaced(s.h.placed) + [] == EvalsPlaced(s.h.placed);
  }

  lemma SendKeepsBooks(c: Config, s: State)
    requires Books(c, s) && (s.main.Flushing? || s.main.SendingDiagnostics?)
    ensures Books(c, AfterTrySend(s))
  {
    if |s.flushCh| < FLUSH_CHANNEL_CAPACITY {
      if s.main.Flushing? {
        FlushSentKeepsBooks(c, s);
      } else {
        DiagnosticsSentKeepsBooks(c, s);
      }
    }
  }

  lemma ShutdownKeepsBooks(c: Config, s: State, r: SendResult)
    requires Books(c, s) && s.main.Running? && !s.d.disabled && r.mustShutDown
    ensures Books(c, AfterResult(s, r))
  {
    var t := AfterResult(s, r);
    assert t.d.outbox.events == [] && t.h.sinceCleared == [];
    assert EventsPlaced(s.h.placed) + s.d.outbox.events + [] == EventsPlaced(s.h.placed) + [] + s.d.outbox.events;
    assert EvalsPlaced(s.h.placed) + s.h.sinceCleared + [] == EvalsPlaced(s.h.placed) + [] + s.h.sinceCleared;
  }

  lemma ResultKeepsBooks(c: Config, s: State, r: SendResult)
    requires Books(c, s) && s.main.Running?
    ensures Books(c, AfterResult(s, r))
  {
    if !s.d.disabled && r.mustShutDown {
      ShutdownKeepsBooks(c, s, r);
    }
  }

  lemma SameForBooks(c: Config, s: State, t: State)
    requires Books(c, s) && SameForMain(s, t)
    ensures Books(c, t)
  {
  }

  /** What the workers do is not in these books. */
  lemma WorkerKeepsBooks(c: Config, s: State, a: Action)
    requires Books(c, s) && Enabled(c, s, a) && ByWorker(a)
    ensures Books(c, Next(c, s, a))
  {
    WorkerLeavesMain(c, s, a);
    SameForBooks(c, s, Next(c, s, a));
  }

  lemma SameBooks(c: Config, s: State, t: State)
    requires Books(c, s) && t.h == s.h.(batch := t.h.batch, replied := t.h.replied)
    requires t.inbox == s.inbox && !s.main.Sent? && !t.main.Sent?
    requires t.d.outbox == s.d.outbox && t.d.disabled == s.d.disabled
    requires OutboxConsistent(c, t.main, t.d, t.h.sinceCleared)
    ensures Books(c, t)
  {
  }

  lemma MainKeepsBooks(c: Config, s: State, a: Action)
    requires Books(c, s) && Enabled(c, s, a)
    requires a.KeysTick? || a.StartDiagnostics? || a.UndoAdd? || a.FinishWait?
    ensures Books(c, Next(c, s, a))
  {
    SameBooks(c, s, Next(c, s, a));
  }

  lemma StatsTickKeepsBooks(c: Config, s: State, a: Action)
    requires Books(c, s) && Enabled(c, s, a) && a.StatsTick?
    ensures Books(c, Next(c, s, a))
  {
  }

  lemma ClearKeepsBooks(c: Config, s: State)
    requires Books(c, s) && Enabled(c, s, ClearOutbox)
    ensures Books(c, Next(c, s, ClearOutbox))
  {
  }

  lemma TakeKeepsBooks(c: Config, s: State, chance: Chance)
    requires Books(c, s) && Enabled(c, s, Take(chance))
    ensures Books(c, Next(c, s, Take(chance)))
  {
    var t := s.(inbox := s.inbox[1..], h := s.h.(taken := s.h.taken + [s.inbox[0]]));
    assert t.h.posted == t.h.taken + t.inbox;
    MessageKeepsBooks(c, t, s.inbox[0], chance);
  }

  lemma HandOverKeepsBooks(c: Config, s: State, m: Message, chance: Chance)
    requires Books(c, s) && Enabled(c, s, HandOver(m, chance))
    ensures Books(c, Next(c, s, HandOver(m, chance)))
  {
    var t := s.(h := s.h.(posted := s.h.posted + [m], taken := s.h.taken + [m]));
    MessageKeepsBooks(c, t, m, chance);
  }

  lemma BooksKept(c: Config, s: State, a: Action)
    requires Books(c, s) && Enabled(c, s, a)
    ensures Books(c, Next(c, s, a))
  {
    match a
    case Post(m) =>
    case StreamInitialized(_) =>
    case Take(chance) => TakeKeepsBooks(c, s, chance);
    case HandOver(m, chance) => HandOverKeepsBooks(c, s, m, chance);
    case FlushTick => FlushKeepsBooks(c, s, false);
    case TrySend => SendKeepsBooks(c, s);
    case TakeResult => ResultKeepsBooks(c, s.(resultCh := s.resultCh[1..]), s.resultCh[0]);
    case KeysTick => MainKeepsBooks(c, s, a);
    case StatsTick(_) => StatsTickKeepsBooks(c, s, a);
    case StartDiagnostics => MainKeepsBooks(c, s, a);
    case ClearOutbox => ClearKeepsBooks(c, s);
    case UndoAdd => MainKeepsBooks(c, s, a);
    case FinishWait => MainKeepsBooks(c, s, a);
    case _ => WorkerKeepsBooks(c, s, a);
  }

  lemma {:induction false} BooksAlong(c: Config, s: State, acts: seq<Action>, t: State)
    requires Books(c, s) && IsRun(c, s, acts, t)
    ensures Books(c, t)
    decreases |acts|
  {
    if acts != [] {
      BooksKept(c, s, acts[0]);
      BooksAlong(c, Next(c, s, acts[0]), acts[1..], t);
    }
  }

  lemma ReachableBooks(c: Config, s: State)
    requires Reachable(c, s)
    ensures Books(c, s)
  {
    var s0, acts :| Init(c, s0) && IsRun(c, s0, acts, s);
    BooksAtStart(c, s0);
    BooksAlong(c, s0, acts, s);
  }

  /** In every reachable state of every interleaving, the events of all payloads put on the flush channel,
      in that order, then the outbox, then what was discarded when the server shut the processor down,
      are exactly the events that the outbox took, in the order it took them: none is lost, repeated
      or reordered by refused flushes. The evaluations summarized are divided up in the same way, each
      payload's summary being the summary of its share. */
  lemma NothingLostOrRepeated(c: Config, s: State)
    requires Reachable(c, s)
    ensures s.h.accepted == EventsPlaced(s.h.placed) + LiveEvents(s) + s.h.discarded
    ensures s.h.summarized == EvalsPlaced(s.h.placed) + LiveEvals(s) + s.h.discardedEvals
    ensures forall i :: 0 <= i < |s.h.placed| && s.h.placed[i].payload.Analytics? ==>
              s.h.placed[i].payload.summary == SummaryOf(s.h.placed[i].evals)
    ensures if s.d.disabled then LiveEvents(s) == [] && LiveEvals(s) == []
            else s.h.discarded == [] && s.h.discardedEvals == []
  {
    ReachableBooks(c, s);
    forall i | 0 <= i < |s.h.placed| && s.h.placed[i].payload.Analytics?
      ensures s.h.placed[i].payload.summary == SummaryOf(s.h.placed[i].evals)
    {
      assert PlacedWell(s.h.placed[i]);
    }
  }

  /** All that was ever taken is in the payloads put on the channel. */
  predicate AllHandedOver(s: State) {
    s.h.accepted == EventsPlaced(s.h.placed) && s.h.summarized == EvalsPlaced(s.h.placed)
  }

  lemma HandedOverIff(c: Config, s: State)
    requires Books(c, s)
    ensures AllHandedOver(s) <==>
      LiveEvents(s) == [] && LiveEvals(s) == [] && s.h.discarded == [] && s.h.discardedEvals == []
    ensures !s.d.disabled && !s.main.Sent? ==> (AllHandedOver(s) <==> !SomethingToFlush(s.d))
  {
    NoFlagsNoEvaluations(s.h.sinceCleared);
    assert |s.h.accepted| == |EventsPlaced(s.h.placed)| + |LiveEvents(s)| + |s.h.discarded|;
    assert |s.h.summarized| == |EvalsPlaced(s.h.placed)| + |LiveEvals(s)| + |s.h.discardedEvals|;
  }

  // ---------- Summaries of payloads compose ----------

  /** The summaries of all payloads, merged in the order in which they were put on the channel. */
  function MergedSummaries(placed: seq<Placed>): Summary {
    if placed == [] then EMPTY
    else
      var p := placed[|placed| - 1];
      var before := MergedSummaries(placed[..|placed| - 1]);
      if p.payload.Analytics? then Merge(before, p.payload.summary, HasZeroDate(p.evals)) else before
  }

  lemma {:induction false} MergedSummariesAre(placed: seq<Placed>)
    requires AllPlacedWell(placed)
    ensures MergedSummaries(placed) == SummaryOf(EvalsPlaced(placed))
  {
    if placed != [] {
      var front, p := placed[..|placed| - 1], placed[|placed| - 1];
      MergedSummariesAre(front);
      assert PlacedWell(p);
      if p.payload.Analytics? {
        SummariesCompose(EvalsPlaced(front), p.evals);
      } else {
        assert EvalsPlaced(front) + [] == EvalsPlaced(front);
      }
    }
  }

  /** The evaluations that are not in a payload. */
  function NotPlaced(s: State): seq<Evaluation> {
    if s.d.disabled then s.h.discardedEvals else LiveEvals(s)
  }

  lemma PlacedAndRest(c: Config, s: State)
    requires Books(c, s)
    ensures s.h.summarized == EvalsPlaced(s.h.placed) + NotPlaced(s)
  {
  }

  /** In every reachable state, the summaries of all payloads ever put on the channel, merged in that order with
      the live summary (between send and clear, an empty one) or, once the server has shut the processor
      down, with that of what was discarded, give the summary of all evaluations ever summarized. */
  lemma SummariesComposeOverRuns(c: Config, s: State)
    requires Reachable(c, s)
    ensures Merge(MergedSummaries(s.h.placed), SummaryOf(NotPlaced(s)), HasZeroDate(NotPlaced(s))) == SummaryOf(s.h.summarized)
    ensures !s.main.Sent? ==> s.d.outbox.summary == SummaryOf(LiveEvals(s))
  {
    ReachableBooks(c, s);
    PlacedAndRest(c, s);
    MergedSummariesAre(s.h.placed);
    SummariesCompose(EvalsPlaced(s.h.placed), NotPlaced(s));
  }
}
