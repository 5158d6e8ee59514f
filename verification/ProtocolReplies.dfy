/** Replies: every message that wants one gets it, in the order in which the messages were taken. */
module ProtocolReplies {
  import opened DispatcherSpec
  import opened Protocol

  predicate WantsReply(m: Message) {
    m == Flush(true) || m == Sync || m == Shutdown
  }

  function WantingReply(ms: seq<Message>): seq<Message> {
    if ms == [] then []
    else WantingReply(ms[..|ms| - 1]) + if WantsReply(ms[|ms| - 1]) then [ms[|ms| - 1]] else []
  }

  /** The message that the main loop is dealing with, if a reply to it is due. */
  function Owed(main: MainLoop): seq<Message> {
    match main
    case Flushing(_, replies) => if replies then [Flush(true)] else []
    case Sent(_, replies) => if replies then [Flush(true)] else []
    case Refused(replies) => if replies then [Flush(true)] else []
    case Waiting(ForFlush(_)) => [Flush(true)]
    case Waiting(ForSync) => [Sync]
    case Waiting(ForShutdown) => [Shutdown]
    case _ => []
  }

  predicate RepliesAddUp(taken: seq<Message>, replied: seq<Message>, main: MainLoop) {
    && WantingReply(taken) == replied + Owed(main)
    && (main.Closed? <==> Shutdown in replied)
  }

  predicate Replies(s: State) {
    RepliesAddUp(s.h.taken, s.h.replied, s.main)
  }

  lemma WantingAppend(ms: seq<Message>, m: Message)
    ensures WantingReply(ms + [m]) == WantingReply(ms) + if WantsReply(m) then [m] else []
  {
    assert (ms + [m])[..|ms|] == ms;
  }

  lemma SameOwed(taken: seq<Message>, replied: seq<Message>, main: MainLoop, next: MainLoop)
    requires RepliesAddUp(taken, replied, main) && Owed(next) == Owed(main) && !main.Closed? && !next.Closed?
    ensures RepliesAddUp(taken, replied, next)
  {
  }

  lemma OneTaken(taken: seq<Message>, replied: seq<Message>, m: Message, next: MainLoop)
    requires RepliesAddUp(taken, replied, Running) && !next.Closed?
    requires Owed(next) == if WantsReply(m) then [m] else []
    ensures RepliesAddUp(taken + [m], replied, next)
  {
    WantingAppend(taken, m);
    assert replied + [] == replied;
  }

  lemma OneReplied(taken: seq<Message>, replied: seq<Message>, reason: Wait, next: MainLoop)
    requires RepliesAddUp(taken, replied, Waiting(reason)) && Owed(next) == []
    requires next.Closed? <==> reason.ForShutdown?
    ensures RepliesAddUp(taken, replied + Owed(Waiting(reason)), next)
  {
    assert replied + Owed(Waiting(reason)) + [] == replied + Owed(Waiting(reason));
  }

  lemma MessageIsOwed(c: Config, s: State, m: Message, chance: Chance)
    requires s.main.Running?
    ensures var t := Handle(c, s, m, chance);
      && Owed(t.main) == (if WantsReply(m) then [m] else []) && !t.main.Closed?
      && t.h.taken == s.h.taken && t.h.replied == s.h.replied
  {
    match m
    case SendEvent(_) =>
    case Flush(_) =>
    case Sync =>
    case Shutdown =>
  }

  lemma TakeKeepsReplies(c: Config, s: State, chance: Chance)
    requires Replies(s) && Enabled(c, s, Take(chance))
    ensures Replies(Next(c, s, Take(chance)))
  {
    var s1 := s.(inbox := s.inbox[1..], h := s.h.(taken := s.h.taken + [s.inbox[0]]));
    MessageIsOwed(c, s1, s.inbox[0], chance);
    OneTaken(s.h.taken, s.h.replied, s.inbox[0], Next(c, s, Take(chance)).main);
  }

  lemma HandOverKeepsReplies(c: Config, s: State, m: Message, chance: Chance)
    requires Replies(s) && Enabled(c, s, HandOver(m, chance))
    ensures Replies(Next(c, s, HandOver(m, chance)))
  {
    var s1 := s.(h := s.h.(posted := s.h.posted + [m], taken := s.h.taken + [m]));
    MessageIsOwed(c, s1, m, chance);
    OneTaken(s.h.taken, s.h.replied, m, Next(c, s, HandOver(m, chance)).main);
  }

  lemma FinishKeepsReplies(c: Config, s: State)
    requires Replies(s) && Enabled(c, s, FinishWait)
    ensures Replies(Next(c, s, FinishWait))
  {
    OneReplied(s.h.taken, s.h.replied, s.main.reason, Next(c, s, FinishWait).main);
  }

  /** What replies are about. */
  predicate SameReplies(s: State, t: State) {
    && t.h.taken == s.h.taken && t.h.replied == s.h.replied
    && Owed(t.main) == Owed(s.main) && (t.main.Closed? <==> s.main.Closed?)
  }

  lemma TicksLeaveReplies(c: Config, s: State, a: Action)
    requires Enabled(c, s, a) && (a.TakeResult? || a.FlushTick? || a.KeysTick? || a.StatsTick?)
    ensures SameReplies(s, Next(c, s, a))
  {
    match a
    case TakeResult =>
    case FlushTick =>
    case KeysTick =>
    case StatsTick(_) =>
  }

  lemma SendLeavesReplies(s: State)
    requires s.main.Flushing? || s.main.SendingDiagnostics?
    ensures SameReplies(s, AfterTrySend(s))
  {
  }

  lemma OthersLeaveReplies(c: Config, s: State, a: Action)
    requires Enabled(c, s, a) && !ByWorker(a)
    requires a.Post? || a.StreamInitialized? || a.StartDiagnostics? || a.ClearOutbox? || a.UndoAdd?
    ensures SameReplies(s, Next(c, s, a))
  {
    match a
    case Post(_) =>
    case StreamInitialized(_) =>
    case StartDiagnostics =>
    case ClearOutbox =>
    case UndoAdd =>
  }

  lemma RepliesKept(c: Config, s: State, a: Action)
    requires Replies(s) && Enabled(c, s, a)
    ensures Replies(Next(c, s, a))
  {
    if ByWorker(a) {
      WorkerLeavesMain(c, s, a);
    } else {
      match a
      case Take(chance) => TakeKeepsReplies(c, s, chance);
      case HandOver(m, chance) => HandOverKeepsReplies(c, s, m, chance);
      case FinishWait => FinishKeepsReplies(c, s);
      case TrySend => SendLeavesReplies(s);
      case TakeResult => TicksLeaveReplies(c, s, a);
      case FlushTick => TicksLeaveReplies(c, s, a);
      case KeysTick => TicksLeaveReplies(c, s, a);
      case StatsTick(_) => TicksLeaveReplies(c, s, a);
      case _ => OthersLeaveReplies(c, s, a);
    }
  }

  lemma {:induction false} RepliesAlong(c: Config, s: State, acts: seq<Action>, t: State)
    requires Replies(s) && IsRun(c, s, acts, t)
    ensures Replies(t)
    decreases |acts|
  {
    if acts != [] {
      RepliesKept(c, s, acts[0]);
      RepliesAlong(c, Next(c, s, acts[0]), acts[1..], t);
    }
  }

  /** In every reachable state, enabled or not: the messages taken that want a reply (blocking flushes, syncs and
      shutdowns) are, in that order, those replied to and then the one that the main loop is waiting or flushing
      for, if there is one; and the main loop is closed exactly when it has replied to a shutdown. */
  lemma EveryRequestIsReplied(c: Config, s: State)
    requires Reachable(c, s)
    ensures WantingReply(s.h.taken) == s.h.replied + Owed(s.main)
    ensures s.main.Closed? <==> Shutdown in s.h.replied
  {
    var s0, acts :| Init(c, s0) && IsRun(c, s0, acts, s);
    assert Replies(s0);
    RepliesAlong(c, s0, acts, s);
  }

  /** The main loop never gets stuck except in a wait: while it is open and not waiting it can go on, and while it
      is running it can take the next message or result if there is one. */
  lemma OnlyWaitsHoldUpTheMainLoop(c: Config, s: State, chance: Chance)
    requires Reachable(c, s) && !s.main.Closed? && !s.main.Waiting?
    ensures exists a :: !ByWorker(a) && !a.Post? && !a.StreamInitialized? && Enabled(c, s, a)
    ensures s.main.Running? ==>
      && (if s.inbox != [] then Enabled(c, s, Take(chance)) else forall m :: Enabled(c, s, HandOver(m, chance)))
      && (s.resultCh != [] ==> Enabled(c, s, TakeResult))
  {
    var a := match s.main
      case Running => FlushTick
      case Flushing(_, _) => TrySend
      case Sent(_, _) => ClearOutbox
      case StartingDiagnostics(_) => StartDiagnostics
      case SendingDiagnostics(_) => TrySend
      case _ => UndoAdd;
    assert Enabled(c, s, a);
  }
}
