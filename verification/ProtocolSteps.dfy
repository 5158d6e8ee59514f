/** No step is skipped: what clients and ticks ask for always happens. */
module ProtocolSteps {
  import Events
  import opened DispatcherSpec
  import opened Diagnostics
  import opened OutboxSpec
  import opened Protocol

  /** A message that is posted while there is room joins the inbox; the first of the inbox, or one handed over directly, is taken. */
  lemma MessagesAreTaken(c: Config, s: State, m: Message, chance: Chance)
    ensures Enabled(c, s, Post(m)) <==> |s.inbox| < c.capacity
    ensures Enabled(c, s, Post(m)) ==> Next(c, s, Post(m)).inbox == s.inbox + [m]
    ensures Enabled(c, s, HandOver(m, chance)) ==> Next(c, s, HandOver(m, chance)).h.taken == s.h.taken + [m]
    ensures Enabled(c, s, Take(chance)) ==>
      && Next(c, s, Take(chance)).h.taken == s.h.taken + [s.inbox[0]]
      && Next(c, s, Take(chance)).inbox == s.inbox[1..]
  {
    if Enabled(c, s, HandOver(m, chance)) {
      HandlingKeepsMessages(c, s.(h := s.h.(posted := s.h.posted + [m], taken := s.h.taken + [m])), m, chance);
    }
    if Enabled(c, s, Take(chance)) {
      HandlingKeepsMessages(c, s.(inbox := s.inbox[1..], h := s.h.(taken := s.h.taken + [s.inbox[0]])), s.inbox[0], chance);
    }
  }

  lemma HandlingKeepsMessages(c: Config, s: State, m: Message, chance: Chance)
    ensures Handle(c, s, m, chance).h.taken == s.h.taken && Handle(c, s, m, chance).inbox == s.inbox
  {
  }

  /** A stream init is kept for the next statistics event. */
  lemma StreamInitsAreKept(c: Config, s: State, i: StreamInit)
    requires HasManager(c)
    ensures Enabled(c, s, StreamInitialized(i))
    ensures Next(c, s, StreamInitialized(i)).diagnostics.streamInits == s.diagnostics.streamInits + [i]
  {
  }

  /** A statistics tick always makes an event, disabled or not, with the current counts and all that is pending, and
      leads to an attempt to send it. */
  lemma StatsTicksMakeEvents(c: Config, s: State, now: Events.Time)
    requires HasManager(c) && s.main.Running?
    ensures Enabled(c, s, StatsTick(now))
    ensures var t := Next(c, s, StatsTick(now));
      && |t.h.stats| == |s.h.stats| + 1 && t.h.stats[..|s.h.stats|] == s.h.stats
      && t.h.stats[|s.h.stats|] == StatsEvent(now, s.diagnostics.dataSinceTime, s.d.outbox.droppedEvents,
                                              s.d.deduplicatedContexts, s.d.eventsInLastBatch, s.diagnostics.streamInits)
      && t.main == StartingDiagnostics(Diagnostic(StatsJson(t.h.stats[|s.h.stats|])))
      && t.diagnostics == Pending(now, [])
  {
    var t := Next(c, s, StatsTick(now));
    assert t.h.stats[..|s.h.stats|] == s.h.stats;
  }

  /** A result that is taken is the first on the channel, and counts. */
  lemma ResultsAreTaken(c: Config, s: State)
    requires Enabled(c, s, TakeResult)
    ensures var t := Next(c, s, TakeResult);
      t.h.results == s.h.results + [s.resultCh[0]] && t.resultCh == s.resultCh[1..]
  {
  }

  /** A worker takes the first payload, passes exactly that to the sender, and posts exactly what came back. */
  lemma WorkersPassThingsOn(c: Config, s: State, i: nat, result: SendResult)
    ensures Enabled(c, s, Receive(i)) ==>
      var t := Next(c, s, Receive(i));
      i < |t.workers| && t.workers[i] == Holding(s.flushCh[0]) && t.flushCh == s.flushCh[1..]
    ensures Enabled(c, s, Deliver(i, result)) ==>
      var p, t := s.workers[i].payload, Next(c, s, Deliver(i, result));
      i < |t.workers|
      && if p.Diagnostic? then t.h.sent == s.h.sent + [p] && t.workers[i] == Finishing
         else if p.events == [] && p.summary.flags.Keys == {} then t.h.sent == s.h.sent && t.workers[i] == Finishing
         else t.h.sent == s.h.sent + [p] && t.workers[i] == HasResult(result)
    ensures Enabled(c, s, PostResult(i)) && !s.resultChClosed ==>
      Next(c, s, PostResult(i)).resultCh == s.resultCh + [s.workers[i].result]
  {
  }
}
