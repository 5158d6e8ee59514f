/** The transition system takes the same steps as the handlers, cut up where other processes can run: if none does,
    the parts make up the whole. */
module ProtocolHandlers {
  import opened Events
  import OutboxSpec
  import opened DispatcherSpec
  import opened Diagnostics
  import opened DispatcherSteps
  import opened Protocol
  import opened ProtocolControl

  function SnapshotOf(s: State): Snapshot {
    Snapshot(s.d, s.diagnostics, s.flushCh == [])
  }

  /** t is what a step makes of s, as far as the dispatcher, the diagnostics and the channel are concerned. */
  predicate Follows(c: Config, s: State, op: Operation, t: State) {
    && SnapshotOf(t) == After(c, SnapshotOf(s), op)
    && t.flushCh == s.flushCh + Sends(SnapshotOf(s), op)
    && t.workers == s.workers && t.resultCh == s.resultCh && t.inbox == s.inbox
  }

  /** What follows the step after which the main loop is flushing or sending a diagnostic event. */
  function Finished(c: Config, s: State): State {
    match s.main
    case StartingDiagnostics(_) =>
      var sent := AfterTrySend(Next(c, s, StartDiagnostics));
      if sent.main.Refused? then Next(c, sent, UndoAdd) else sent
    case Flushing(_, _) =>
      var sent := AfterTrySend(s);
      Next(c, sent, if sent.main.Refused? then UndoAdd else ClearOutbox)
    case _ => s
  }

  lemma FlushFinished(c: Config, s: State)
    requires s.main.Flushing? && s.main.payload == OutboxSpec.PayloadOf(s.d.outbox) && s.workersGroup > 0 && |s.flushCh| <= 1
    ensures var t := Finished(c, s);
      && t.d == (if s.flushCh == [] then Flushed(s.d) else s.d)
      && t.flushCh == (if s.flushCh == [] then [s.main.payload] else s.flushCh)
      && t.diagnostics == s.diagnostics
      && t.workers == s.workers && t.resultCh == s.resultCh && t.inbox == s.inbox
      && t.main == (if s.main.replies then Waiting(ForFlush(s.flushCh == [])) else Running)
      && t.workersGroup == (if s.flushCh == [] then s.workersGroup else s.workersGroup - 1)
  {
  }

  lemma DiagnosticsFinished(c: Config, s: State)
    requires s.main.StartingDiagnostics? && |s.flushCh| <= 1
    ensures var t := Finished(c, s);
      && t.d == s.d && t.diagnostics == s.diagnostics
      && t.flushCh == (if s.flushCh == [] then [s.main.payload] else s.flushCh)
      && t.workers == s.workers && t.resultCh == s.resultCh && t.inbox == s.inbox
      && t.main == Running
      && t.workersGroup == s.workersGroup + (if s.flushCh == [] then 1 else 0)
  {
  }

  lemma FlushWithoutSend(c: Config, s: State, replies: bool)
    requires s.main.Running? && (s.d.disabled || !SomethingToFlush(s.d))
    ensures var t := TriggerFlush(s, replies);
      && Finished(c, t) == t && Follows(c, s, FlushDue, t)
      && t.main == (if replies then Waiting(ForFlush(!s.d.disabled)) else Running)
      && t.workersGroup == s.workersGroup && Sends(SnapshotOf(s), FlushDue) == []
  {
  }

  lemma FlushWithSend(c: Config, s: State, replies: bool)
    requires s.main.Running? && !s.d.disabled && SomethingToFlush(s.d) && |s.flushCh| <= 1 && s.workersGroup >= 0
    ensures var t := Finished(c, TriggerFlush(s, replies));
      && Follows(c, s, FlushDue, t)
      && t.main == (if replies then Waiting(ForFlush(s.flushCh == [])) else Running)
      && t.workersGroup == s.workersGroup + |Sends(SnapshotOf(s), FlushDue)|
  {
    FlushFinished(c, TriggerFlush(s, replies));
  }

  /** A flush, whether it comes from a tick or a message, is what the handler makes of it; and a message that wants
      a reply leads to a wait for the workers, whatever the state of the processor. */
  lemma FlushFollowsHandler(c: Config, s: State, replies: bool)
    requires s.main.Running? && |s.flushCh| <= 1 && s.workersGroup >= 0
    ensures var t := Finished(c, TriggerFlush(s, replies));
      && Follows(c, s, FlushDue, t)
      && (if replies then t.main.Waiting? && t.main.reason.ForFlush? else t.main == Running)
      && t.workersGroup == s.workersGroup + |Sends(SnapshotOf(s), FlushDue)|
  {
    if s.d.disabled || !SomethingToFlush(s.d) {
      FlushWithoutSend(c, s, replies);
    } else {
      FlushWithSend(c, s, replies);
    }
  }

  lemma StatisticsFollowHandler(c: Config, s: State, now: Time)
    requires s.main.Running? && |s.flushCh| <= 1
    ensures var t := Finished(c, ReportStats(s, now));
      && Follows(c, s, StatisticsDue(now), t) && t.main == Running
      && t.workersGroup == s.workersGroup + |Sends(SnapshotOf(s), StatisticsDue(now))|
  {
    DiagnosticsFinished(c, ReportStats(s, now));
  }

  lemma MessageFollowsHandler(c: Config, s: State, m: Message, chance: Chance)
    requires s.main.Running? && |s.flushCh| <= 1 && s.workersGroup >= 0
    ensures m.SendEvent? ==> Follows(c, s, ProcessEvent(m.evt, chance), Handle(c, s, m, chance))
    ensures m.Flush? ==> Follows(c, s, FlushDue, Finished(c, Handle(c, s, m, chance)))
  {
    if m.Flush? {
      FlushFollowsHandler(c, s, m.replies);
    }
  }

  /** Taking a message, from the inbox or directly. */
  lemma MessagesFollowHandlers(c: Config, s: State, m: Message, chance: Chance)
    requires Reachable(c, s) && s.main.Running?
    requires s.inbox != [] ==> s.inbox[0] == m
    ensures var a := if s.inbox == [] then HandOver(m, chance) else Take(chance);
      var s' := if s.inbox == [] then s else s.(inbox := s.inbox[1..]);
      && Enabled(c, s, a)
      && (m.SendEvent? ==> Follows(c, s', ProcessEvent(m.evt, chance), Next(c, s, a)))
      && (m.Flush? ==> Follows(c, s', FlushDue, Finished(c, Next(c, s, a))))
  {
    ClosingIsSafe(c, s);
    if s.inbox == [] {
      MessageFollowsHandler(c, s.(h := s.h.(posted := s.h.posted + [m], taken := s.h.taken + [m])), m, chance);
    } else {
      MessageFollowsHandler(c, s.(inbox := s.inbox[1..], h := s.h.(taken := s.h.taken + [m])), m, chance);
    }
  }

  lemma ResultFollowsHandler(c: Config, s: State, r: SendResult)
    ensures Follows(c, s, ResultTaken(r), AfterResult(s, r))
  {
  }

  /** Ticks. */
  lemma TicksFollowHandlers(c: Config, s: State, now: Time)
    requires Reachable(c, s) && s.main.Running?
    ensures Follows(c, s, FlushDue, Finished(c, Next(c, s, FlushTick)))
    ensures Enabled(c, s, StatsTick(now)) ==> Follows(c, s, StatisticsDue(now), Finished(c, Next(c, s, StatsTick(now))))
    ensures Follows(c, s, ResetDue, Next(c, s, KeysTick))
  {
    ClosingIsSafe(c, s);
    FlushFollowsHandler(c, s, false);
    StatisticsFollowHandler(c, s, now);
  }

  /** Results. */
  lemma ResultsFollowHandler(c: Config, s: State)
    requires Reachable(c, s) && s.main.Running? && s.resultCh != []
    ensures Follows(c, s.(resultCh := s.resultCh[1..]), ResultTaken(s.resultCh[0]), Next(c, s, TakeResult))
  {
    ResultFollowsHandler(c, s.(resultCh := s.resultCh[1..]), s.resultCh[0]);
  }
}
