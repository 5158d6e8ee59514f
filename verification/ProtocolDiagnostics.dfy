/** Which diagnostic events reach the flush channel. A statistics event that finds it full is lost, with the
    counts and stream inits that it took over. */
module ProtocolDiagnostics {
  import opened OutboxSpec
  import opened DispatcherSpec
  import opened Diagnostics
  import opened Protocol

  function Tried(tried: seq<Attempt>): seq<Payload> {
    if tried == [] then [] else Tried(tried[..|tried| - 1]) + [tried[|tried| - 1].payload]
  }

  /** Those that found room. */
  function Succeeded(tried: seq<Attempt>): seq<Payload> {
    if tried == [] then []
    else
      var last := tried[|tried| - 1];
      Succeeded(tried[..|tried| - 1]) + if last.placed then [last.payload] else []
  }

  function DiagnosticsIn(placed: seq<Placed>): seq<Payload> {
    if placed == [] then []
    else
      var p := placed[|placed| - 1].payload;
      DiagnosticsIn(placed[..|placed| - 1]) + if p.Diagnostic? then [p] else []
  }

  function StatsPayloads(stats: seq<StatsEvent>): seq<Payload> {
    if stats == [] then []
    else StatsPayloads(stats[..|stats| - 1]) + [Diagnostic(StatsJson(stats[|stats| - 1]))]
  }

  /** The payload that is about to be tried. */
  function ToBeTried(main: MainLoop): seq<Payload> {
    if main.StartingDiagnostics? || main.SendingDiagnostics? then [main.payload] else []
  }

  predicate PayloadsFit(main: MainLoop) {
    && (main.Flushing? ==> main.payload.Analytics?)
    && (main.StartingDiagnostics? || main.SendingDiagnostics? ==> main.payload.Diagnostic?)
  }

  predicate Tracked(main: MainLoop, placed: seq<Placed>, made: seq<Payload>, tried: seq<Attempt>) {
    && PayloadsFit(main)
    && made == Tried(tried) + ToBeTried(main)
    && DiagnosticsIn(placed) == Succeeded(tried)
  }

  /** What is made is the init event and then the statistics events; without a manager it is nothing. */
  predicate Made(c: Config, stats: seq<StatsEvent>, made: seq<Payload>) {
    made == InitPayloads(c) + StatsPayloads(stats) && (stats != [] ==> HasManager(c))
  }

  predicate DiagnosticsTracked(c: Config, s: State) {
    && Tracked(s.main, s.h.placed, s.h.diagnosticsMade, s.h.diagnosticsTried)
    && Made(c, s.h.stats, s.h.diagnosticsMade)
  }

  lemma TriedAppend(tried: seq<Attempt>, x: Attempt)
    ensures Tried(tried + [x]) == Tried(tried) + [x.payload]
    ensures Succeeded(tried + [x]) == Succeeded(tried) + if x.placed then [x.payload] else []
  {
    assert (tried + [x])[..|tried|] == tried;
  }

  lemma DiagnosticsAppend(placed: seq<Placed>, x: Placed)
    ensures DiagnosticsIn(placed + [x]) == DiagnosticsIn(placed) + if x.payload.Diagnostic? then [x.payload] else []
  {
    assert (placed + [x])[..|placed|] == placed;
  }

  lemma TriedWithRoom(main: MainLoop, placed: seq<Placed>, made: seq<Payload>, tried: seq<Attempt>)
    requires Tracked(main, placed, made, tried) && main.SendingDiagnostics?
    ensures Tracked(Running, placed + [Placed(main.payload, [])], made, tried + [Attempt(main.payload, true)])
  {
    TriedAppend(tried, Attempt(main.payload, true));
    DiagnosticsAppend(placed, Placed(main.payload, []));
  }

  lemma TriedWithoutRoom(main: MainLoop, placed: seq<Placed>, made: seq<Payload>, tried: seq<Attempt>)
    requires Tracked(main, placed, made, tried) && main.SendingDiagnostics?
    ensures Tracked(Refused(false), placed, made, tried + [Attempt(main.payload, false)])
  {
    TriedAppend(tried, Attempt(main.payload, false));
  }

  lemma FlushTried(main: MainLoop, placed: seq<Placed>, made: seq<Payload>, tried: seq<Attempt>, evals: seq<Events.Evaluation>)
    requires Tracked(main, placed, made, tried) && main.Flushing?
    ensures Tracked(Sent(main.payload, main.replies), placed + [Placed(main.payload, evals)], made, tried + [])
    ensures Tracked(Refused(main.replies), placed, made, tried + [])
  {
    DiagnosticsAppend(placed, Placed(main.payload, evals));
    assert tried + [] == tried;
  }

  lemma SendKeepsTracked(c: Config, s: State)
    requires DiagnosticsTracked(c, s) && (s.main.Flushing? || s.main.SendingDiagnostics?)
    ensures DiagnosticsTracked(c, AfterTrySend(s))
  {
    var placed, made, tried := s.h.placed, s.h.diagnosticsMade, s.h.diagnosticsTried;
    if s.main.Flushing? {
      FlushTried(s.main, placed, made, tried, s.h.sinceCleared);
    } else if |s.flushCh| < FLUSH_CHANNEL_CAPACITY {
      TriedWithRoom(s.main, placed, made, tried);
    } else {
      TriedWithoutRoom(s.main, placed, made, tried);
    }
  }

  lemma TrackedWhenMade(placed: seq<Placed>, made: seq<Payload>, tried: seq<Attempt>, p: Payload)
    requires Tracked(Running, placed, made, tried) && p.Diagnostic?
    ensures Tracked(StartingDiagnostics(p), placed, made + [p], tried)
  {
    assert Tried(tried) + [] == Tried(tried);
  }

  lemma MadeOneMore(c: Config, stats: seq<StatsEvent>, made: seq<Payload>, e: StatsEvent)
    requires Made(c, stats, made) && HasManager(c)
    ensures Made(c, stats + [e], made + [Diagnostic(StatsJson(e))])
  {
    assert (stats + [e])[..|stats|] == stats;
  }

  lemma ReportKeepsTracked(c: Config, s: State, now: Events.Time)
    requires DiagnosticsTracked(c, s) && s.main.Running? && HasManager(c)
    ensures DiagnosticsTracked(c, ReportStats(s, now))
  {
    var e := Reported(s.diagnostics, now, s.d.outbox.droppedEvents, s.d.deduplicatedContexts, s.d.eventsInLastBatch);
    TrackedWhenMade(s.h.placed, s.h.diagnosticsMade, s.h.diagnosticsTried, Diagnostic(StatsJson(e)));
    MadeOneMore(c, s.h.stats, s.h.diagnosticsMade, e);
  }

  /** What the tracking is about. */
  predicate SameTracks(s: State, t: State) {
    && t.h.placed == s.h.placed && t.h.stats == s.h.stats
    && t.h.diagnosticsMade == s.h.diagnosticsMade && t.h.diagnosticsTried == s.h.diagnosticsTried
    && ToBeTried(t.main) == ToBeTried(s.main) && (PayloadsFit(s.main) ==> PayloadsFit(t.main))
  }

  lemma MessageLeavesTracks(c: Config, s: State, m: Message, chance: Chance)
    requires s.main.Running?
    ensures SameTracks(s, Handle(c, s, m, chance))
  {
    match m
    case SendEvent(_) =>
    case Flush(replies) => FlushLeavesTracks(s, replies);
    case Sync =>
    case Shutdown =>
  }

  lemma FlushLeavesTracks(s: State, replies: bool)
    requires s.main.Running?
    ensures SameTracks(s, TriggerFlush(s, replies))
  {
  }

  lemma TakeLeavesTracks(c: Config, s: State, chance: Chance)
    requires Enabled(c, s, Take(chance))
    ensures SameTracks(s, Next(c, s, Take(chance)))
  {
    MessageLeavesTracks(c, s.(inbox := s.inbox[1..], h := s.h.(taken := s.h.taken + [s.inbox[0]])), s.inbox[0], chance);
  }

  lemma HandOverLeavesTracks(c: Config, s: State, m: Message, chance: Chance)
    requires Enabled(c, s, HandOver(m, chance))
    ensures SameTracks(s, Next(c, s, HandOver(m, chance)))
  {
    MessageLeavesTracks(c, s.(h := s.h.(posted := s.h.posted + [m], taken := s.h.taken + [m])), m, chance);
  }

  lemma MainLeavesTracks(c: Config, s: State, a: Action)
    requires Enabled(c, s, a) && !ByWorker(a) && !(a.TrySend? || a.StatsTick?)
    ensures SameTracks(s, Next(c, s, a))
  {
    match a
    case Take(chance) => TakeLeavesTracks(c, s, chance);
    case HandOver(m, chance) => HandOverLeavesTracks(c, s, m, chance);
    case TakeResult => TicksLeaveTracks(c, s, a);
    case FlushTick => TicksLeaveTracks(c, s, a);
    case KeysTick => TicksLeaveTracks(c, s, a);
    case Post(_) =>
    case StreamInitialized(_) =>
    case StartDiagnostics =>
    case ClearOutbox =>
    case UndoAdd =>
    case FinishWait =>
  }

  lemma TicksLeaveTracks(c: Config, s: State, a: Action)
    requires Enabled(c, s, a) && (a.TakeResult? || a.FlushTick? || a.KeysTick?)
    ensures SameTracks(s, Next(c, s, a))
  {
    match a
    case TakeResult =>
    case FlushTick =>
    case KeysTick =>
  }

  lemma TrackedKept(c: Config, s: State, a: Action)
    requires DiagnosticsTracked(c, s) && Enabled(c, s, a)
    ensures DiagnosticsTracked(c, Next(c, s, a))
  {
    if ByWorker(a) {
      WorkerLeavesMain(c, s, a);
    } else if a.TrySend? {
      SendKeepsTracked(c, s);
    } else if a.StatsTick? {
      ReportKeepsTracked(c, s, a.now);
    } else {
      MainLeavesTracks(c, s, a);
    }
  }

  lemma {:induction false} TrackedAlong(c: Config, s: State, acts: seq<Action>, t: State)
    requires DiagnosticsTracked(c, s) && IsRun(c, s, acts, t)
    ensures DiagnosticsTracked(c, t)
    decreases |acts|
  {
    if acts != [] {
      TrackedKept(c, s, acts[0]);
      TrackedAlong(c, Next(c, s, acts[0]), acts[1..], t);
    }
  }

  /** In every reachable state: the diagnostic events made are, in order, the init event and the statistics
      events, or none if there is no diagnostics manager; each was tried once, except the one in hand; and
      those put on the flush channel are exactly those that found room there. */
  lemma DiagnosticsPlacedIffRoom(c: Config, s: State)
    requires Reachable(c, s)
    ensures if HasManager(c) then s.h.diagnosticsMade == [Diagnostic(c.initEvent.value)] + StatsPayloads(s.h.stats)
            else s.h.diagnosticsMade == [] && s.h.stats == []
    ensures s.h.diagnosticsMade == Tried(s.h.diagnosticsTried) + ToBeTried(s.main)
    ensures DiagnosticsIn(s.h.placed) == Succeeded(s.h.diagnosticsTried)
  {
    var s0, acts :| Init(c, s0) && IsRun(c, s0, acts, s);
    assert DiagnosticsTracked(c, s0);
    TrackedAlong(c, s0, acts, s);
  }
}
