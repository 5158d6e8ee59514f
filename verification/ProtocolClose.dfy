/** What the reply to a shutdown (or to any message that waits) says about the flush that came before it. */
module ProtocolClose {
  import opened DispatcherSpec
  import opened Protocol
  import opened ProtocolConservation
  import opened ProtocolDelivery

  /** The main loop calls triggerFlush in this step. */
  predicate HandlesFlush(s: State, a: Action) {
    match a
    case FlushTick => true
    case Take(_) => s.inbox != [] && s.inbox[0].Flush?
    case HandOver(m, _) => m.Flush?
    case _ => false
  }

  /** A flush that leaves nothing behind: there is nothing to flush, or the channel has room at the send. */
  predicate Drains(s: State, a: Action) {
    || (HandlesFlush(s, a) && !s.d.disabled && !SomethingToFlush(s.d))
    || (a.TrySend? && s.main.Flushing? && |s.flushCh| < FLUSH_CHANNEL_CAPACITY)
  }

  ghost predicate SomeFlushDrains(c: Config, s: State, acts: seq<Action>)
    decreases |acts|
  {
    acts != [] && Enabled(c, s, acts[0]) && (Drains(s, acts[0]) || SomeFlushDrains(c, Next(c, s, acts[0]), acts[1..]))
  }

  /** The first events and evaluations ever taken, this many of each, are in the payloads. */
  predicate Covered(s: State, events: nat, evals: nat) {
    events <= |EventsPlaced(s.h.placed)| && evals <= |EvalsPlaced(s.h.placed)|
  }

  lemma DrainingCovers(c: Config, s: State, a: Action)
    requires Books(c, s) && Enabled(c, s, a) && Drains(s, a)
    ensures AllHandedOver(Next(c, s, a))
  {
    BooksKept(c, s, a);
    if a.TrySend? {
      FlushWithRoom(c, s, Next(c, s, a));
    } else {
      HandedOverIff(c, s);
      HandlingLeavesBooks(c, s, a);
    }
  }

  lemma HandlingLeavesBooks(c: Config, s: State, a: Action)
    requires Enabled(c, s, a) && HandlesFlush(s, a)
    ensures var t := Next(c, s, a);
      t.h.accepted == s.h.accepted && t.h.summarized == s.h.summarized && t.h.placed == s.h.placed
  {
    match a
    case FlushTick =>
    case Take(_) =>
    case HandOver(_, _) =>
  }

  lemma OtherSendsPlaceNothing(c: Config, s: State)
    requires Books(c, s) && Enabled(c, s, TrySend) && !Drains(s, TrySend)
    ensures var t := AfterTrySend(s);
      EventsPlaced(t.h.placed) == EventsPlaced(s.h.placed) && EvalsPlaced(t.h.placed) == EvalsPlaced(s.h.placed)
  {
    if s.main.SendingDiagnostics? {
      PlacedAddUp(s.h.placed, Placed(s.main.payload, []));
      assert EventsPlaced(s.h.placed) + [] == EventsPlaced(s.h.placed);
      assert EvalsPlaced(s.h.placed) + [] == EvalsPlaced(s.h.placed);
    }
  }

  lemma OthersPlaceNothing(c: Config, s: State, a: Action)
    requires Books(c, s) && Enabled(c, s, a) && !Drains(s, a)
    ensures var t := Next(c, s, a);
      EventsPlaced(t.h.placed) == EventsPlaced(s.h.placed) && EvalsPlaced(t.h.placed) == EvalsPlaced(s.h.placed)
  {
    if a.TrySend? {
      OtherSendsPlaceNothing(c, s);
    } else if ByWorker(a) {
      WorkerLeavesMain(c, s, a);
    } else {
      OthersLeaveTraffic(c, s, a);
    }
  }

  /** What was taken stays taken. */
  predicate Extends(s: State, t: State) {
    s.h.accepted <= t.h.accepted && s.h.summarized <= t.h.summarized
  }

  lemma StepExtends(c: Config, s: State, a: Action)
    requires Enabled(c, s, a)
    ensures Extends(s, Next(c, s, a))
  {
    match a
    case Take(chance) =>
      MessageExtends(c, s.(inbox := s.inbox[1..], h := s.h.(taken := s.h.taken + [s.inbox[0]])), s.inbox[0], chance);
    case HandOver(m, chance) =>
      MessageExtends(c, s.(h := s.h.(posted := s.h.posted + [m], taken := s.h.taken + [m])), m, chance);
    case TrySend => SendExtends(s);
    case TakeResult =>
    case _ => QuietStep(c, s, a);
  }

  lemma MessageExtends(c: Config, s: State, m: Message, chance: Chance)
    ensures Extends(s, Handle(c, s, m, chance))
  {
  }

  lemma SendExtends(s: State)
    requires s.main.Flushing? || s.main.SendingDiagnostics?
    ensures Extends(s, AfterTrySend(s))
  {
  }

  lemma {:induction false} RunExtends(c: Config, s: State, acts: seq<Action>, t: State)
    requires IsRun(c, s, acts, t)
    ensures Extends(s, t)
    decreases |acts|
  {
    if acts != [] {
      StepExtends(c, s, acts[0]);
      RunExtends(c, Next(c, s, acts[0]), acts[1..], t);
    }
  }

  lemma CoveredStep(c: Config, s: State, a: Action, events: nat, evals: nat)
    requires Books(c, s) && Enabled(c, s, a) && events <= |s.h.accepted| && evals <= |s.h.summarized|
    ensures var t := Next(c, s, a);
      && Books(c, t) && events <= |t.h.accepted| && evals <= |t.h.summarized|
      && (Covered(t, events, evals) <==> Covered(s, events, evals) || Drains(s, a))
  {
    BooksKept(c, s, a);
    StepExtends(c, s, a);
    if Drains(s, a) {
      DrainingCovers(c, s, a);
    } else {
      OthersPlaceNothing(c, s, a);
    }
  }

  lemma {:induction false} CoveredAlong(c: Config, s: State, acts: seq<Action>, t: State, events: nat, evals: nat)
    requires Books(c, s) && IsRun(c, s, acts, t) && events <= |s.h.accepted| && evals <= |s.h.summarized|
    ensures Books(c, t)
    ensures Covered(t, events, evals) <==> Covered(s, events, evals) || SomeFlushDrains(c, s, acts)
    decreases |acts|
  {
    if acts != [] {
      CoveredStep(c, s, acts[0], events, evals);
      CoveredAlong(c, Next(c, s, acts[0]), acts[1..], t, events, evals);
    }
  }

  /** Nothing is left only if there is nothing to flush. */
  lemma CoveredBeforeFlush(c: Config, s: State, acts: seq<Action>)
    requires Books(c, s) && s.main.Running? && !s.d.disabled
    requires acts != [] && Enabled(c, s, acts[0]) && HandlesFlush(s, acts[0])
    ensures Covered(s, |s.h.accepted|, |s.h.summarized|) ==> SomeFlushDrains(c, s, acts)
  {
    HandedOverIff(c, s);
  }

  /** Lengths decide, because the payloads hold the first ones taken. */
  lemma CoveredMeansPrefix(c: Config, s: State, t: State)
    requires Books(c, t) && Extends(s, t)
    ensures Covered(t, |s.h.accepted|, |s.h.summarized|) <==>
      s.h.accepted <= EventsPlaced(t.h.placed) && s.h.summarized <= EvalsPlaced(t.h.placed)
  {
    assert EventsPlaced(t.h.placed) <= t.h.accepted;
    assert EvalsPlaced(t.h.placed) <= t.h.summarized;
  }

  /** Close, over every run from the step that handles its flush message (acts[0], in an enabled state s)
      to the reply to its shutdown message (the step FinishWait in t), whatever else is handled in between:
      all events and evaluations taken before the flush have been passed to the sender if and only if some
      flush on the way had nothing to flush or found room on the channel. If no more were taken on the way,
      that is all there ever was. */
  lemma CloseDeliversIff(c: Config, s: State, acts: seq<Action>, t: State)
    requires Reachable(c, s) && s.main.Running? && !s.d.disabled
    requires IsRun(c, s, acts, t) && acts != [] && HandlesFlush(s, acts[0])
    requires Enabled(c, t, FinishWait)
    ensures (s.h.accepted <= EventsPlaced(t.h.placed) && s.h.summarized <= EvalsPlaced(t.h.placed))
       <==> SomeFlushDrains(c, s, acts)
    ensures t.h.accepted == s.h.accepted && t.h.summarized == s.h.summarized ==>
      (AllHandedOver(t) <==> SomeFlushDrains(c, s, acts))
    ensures forall p :: Times(t.h.sent, p) == Times(PayloadsOf(t.h.placed), p)
  {
    ReachableBooks(c, s);
    CoveredAlong(c, s, acts, t, |s.h.accepted|, |s.h.summarized|);
    CoveredBeforeFlush(c, s, acts);
    RunExtends(c, s, acts, t);
    CoveredMeansPrefix(c, s, t);
    if t.h.accepted == s.h.accepted && t.h.summarized == s.h.summarized {
      AllIsAPrefix(c, t);
    }
    forall p ensures Times(t.h.sent, p) == Times(PayloadsOf(t.h.placed), p) {
      ReachableLater(c, s, acts, t);
      RepliesComeAfterDelivery(c, t, p);
    }
  }

  lemma AllIsAPrefix(c: Config, t: State)
    requires Books(c, t)
    ensures AllHandedOver(t) <==>
      t.h.accepted <= EventsPlaced(t.h.placed) && t.h.summarized <= EvalsPlaced(t.h.placed)
  {
    HandedOverIff(c, t);
  }
}
