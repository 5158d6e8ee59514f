/** What the workers have passed to the event sender: at each reply, and after a shutdown by the server. */
module ProtocolDelivery {
  import opened Events
  import opened OutboxSpec
  import opened DispatcherSpec
  import opened Protocol
  import opened ProtocolControl
  import opened ProtocolConservation

  function PayloadsOf(placed: seq<Placed>): seq<Payload> {
    if placed == [] then [] else PayloadsOf(placed[..|placed| - 1]) + [placed[|placed| - 1].payload]
  }

  /** How many times p occurs. */
  function Times(ps: seq<Payload>, p: Payload): nat {
    if ps == [] then 0 else Times(ps[..|ps| - 1], p) + if ps[|ps| - 1] == p then 1 else 0
  }

  function InHand(w: Worker, p: Payload): nat {
    if w.Holding? && w.payload == p then 1 else 0
  }

  /** The number of workers that have received p and not sent it yet. */
  function Held(ws: seq<Worker>, p: Payload): nat {
    if ws == [] then 0 else Held(ws[..|ws| - 1], p) + InHand(ws[|ws| - 1], p)
  }

  predicate WorthSending(p: Payload) {
    p.Analytics? ==> EventCount(p) > 0
  }

  /** The channel is first in, first out. */
  predicate Fifo(placed: seq<Placed>, received: seq<Payload>, flushCh: seq<Payload>) {
    PayloadsOf(placed) == received + flushCh
  }

  predicate AllReal(flushCh: seq<Payload>, ws: seq<Worker>) {
    && (forall i :: 0 <= i < |flushCh| ==> WorthSending(flushCh[i]))
    && (forall i :: 0 <= i < |ws| && ws[i].Holding? ==> WorthSending(ws[i].payload))
  }

  /** What was received of p is sent or in the hands of a worker. */
  predicate Balanced(sent: seq<Payload>, ws: seq<Worker>, received: seq<Payload>, p: Payload) {
    Times(sent, p) + Held(ws, p) == Times(received, p)
  }

  predicate Delivery(s: State, p: Payload) {
    && Fifo(s.h.placed, s.h.received, s.flushCh)
    && AllReal(s.flushCh, s.workers)
    && Balanced(s.h.sent, s.workers, s.h.received, p)
  }

  lemma {:induction false} HeldUpdate(ws: seq<Worker>, i: nat, w: Worker, p: Payload)
    requires i < |ws|
    ensures Held(ws[i := w], p) + InHand(ws[i], p) == Held(ws, p) + InHand(w, p)
  {
    var n := |ws| - 1;
    if i < n {
      HeldUpdate(ws[..n], i, w, p);
      assert ws[i := w][..n] == ws[..n][i := w];
    } else {
      assert ws[i := w][..n] == ws[..n];
    }
  }

  lemma {:induction false} NothingHeld(ws: seq<Worker>, p: Payload)
    requires forall i :: 0 <= i < |ws| ==> !ws[i].Holding?
    ensures Held(ws, p) == 0
  {
    if ws != [] {
      NothingHeld(ws[..|ws| - 1], p);
    }
  }

  lemma TimesAppend(ps: seq<Payload>, q: Payload, p: Payload)
    ensures Times(ps + [q], p) == Times(ps, p) + if q == p then 1 else 0
  {
    assert (ps + [q])[..|ps|] == ps;
  }

  lemma {:induction false} TimesConcat(a: seq<Payload>, b: seq<Payload>, p: Payload)
    ensures Times(a + b, p) == Times(a, p) + Times(b, p)
  {
    if b == [] {
      assert a + b == a;
    } else {
      assert (a + b)[..|a + b| - 1] == a + b[..|b| - 1];
      TimesConcat(a, b[..|b| - 1], p);
    }
  }

  lemma {:induction false} TimesPositive(ps: seq<Payload>, p: Payload)
    ensures p in ps <==> Times(ps, p) > 0
  {
    if ps != [] {
      TimesPositive(ps[..|ps| - 1], p);
      assert ps == ps[..|ps| - 1] + [ps[|ps| - 1]];
    }
  }

  lemma FifoAfterReceive(placed: seq<Placed>, received: seq<Payload>, flushCh: seq<Payload>)
    requires Fifo(placed, received, flushCh) && flushCh != []
    ensures Fifo(placed, received + [flushCh[0]], flushCh[1..])
  {
    assert received + flushCh == (received + [flushCh[0]]) + flushCh[1..];
  }

  lemma FifoAfterSend(placed: seq<Placed>, received: seq<Payload>, flushCh: seq<Payload>, x: Placed)
    requires Fifo(placed, received, flushCh)
    ensures Fifo(placed + [x], received, flushCh + [x.payload])
  {
    PayloadsAppend(placed, x);
    assert received + (flushCh + [x.payload]) == (received + flushCh) + [x.payload];
  }

  lemma BalancedAfterReceive(sent: seq<Payload>, ws: seq<Worker>, received: seq<Payload>, p: Payload, i: nat, q: Payload)
    requires Balanced(sent, ws, received, p) && i < |ws| && ws[i].Idle?
    ensures Balanced(sent, ws[i := Holding(q)], received + [q], p)
  {
    TimesAppend(received, q, p);
    HeldUpdate(ws, i, Holding(q), p);
  }

  lemma BalancedAfterDelivery(sent: seq<Payload>, ws: seq<Worker>, received: seq<Payload>, p: Payload, i: nat, w: Worker)
    requires Balanced(sent, ws, received, p) && i < |ws| && ws[i].Holding? && !w.Holding?
    ensures Balanced(sent + [ws[i].payload], ws[i := w], received, p)
  {
    TimesAppend(sent, ws[i].payload, p);
    HeldUpdate(ws, i, w, p);
  }

  lemma PayloadsAppend(placed: seq<Placed>, x: Placed)
    ensures PayloadsOf(placed + [x]) == PayloadsOf(placed) + [x.payload]
  {
    assert (placed + [x])[..|placed|] == placed;
  }

  lemma RealAfterReceive(flushCh: seq<Payload>, ws: seq<Worker>, i: nat)
    requires AllReal(flushCh, ws) && flushCh != [] && i < |ws|
    ensures AllReal(flushCh[1..], ws[i := Holding(flushCh[0])])
  {
    assert WorthSending(flushCh[0]);
  }

  lemma ReceiveKeepsDelivery(c: Config, s: State, i: nat, p: Payload)
    requires Delivery(s, p) && Enabled(c, s, Receive(i))
    ensures Delivery(Next(c, s, Receive(i)), p)
  {
    FifoAfterReceive(s.h.placed, s.h.received, s.flushCh);
    BalancedAfterReceive(s.h.sent, s.workers, s.h.received, p, i, s.flushCh[0]);
    RealAfterReceive(s.flushCh, s.workers, i);
    var t := Next(c, s, Receive(i));
    assert t.workers == s.workers[i := Holding(s.flushCh[0])] && t.flushCh == s.flushCh[1..];
    assert t.h.received == s.h.received + [s.flushCh[0]] && t.h.placed == s.h.placed && t.h.sent == s.h.sent;
  }

  lemma DeliverKeepsDelivery(c: Config, s: State, i: nat, result: SendResult, p: Payload)
    requires Delivery(s, p) && Enabled(c, s, Deliver(i, result))
    ensures Delivery(Next(c, s, Deliver(i, result)), p)
  {
    assert WorthSending(s.workers[i].payload);
    var w := if s.workers[i].payload.Diagnostic? then Finishing else HasResult(result);
    BalancedAfterDelivery(s.h.sent, s.workers, s.h.received, p, i, w);
    assert AllReal(s.flushCh, s.workers[i := w]);
  }

  lemma FinishKeepsDelivery(c: Config, s: State, a: Action, p: Payload)
    requires Delivery(s, p) && Enabled(c, s, a) && (a.PostResult? || a.Done? || a.ReceiveClosed?)
    ensures Delivery(Next(c, s, a), p)
  {
    match a
    case PostResult(i) => HeldUpdate(s.workers, i, Finishing, p);
    case Done(i) => HeldUpdate(s.workers, i, Idle, p);
    case ReceiveClosed(i) => HeldUpdate(s.workers, i, Terminated, p);
  }

  lemma OnlyRealPayloadsAreSent(c: Config, main: MainLoop, d: Dispatcher, evals: seq<Evaluation>)
    requires OutboxConsistent(c, main, d, evals) && (main.Flushing? || main.SendingDiagnostics?)
    ensures WorthSending(main.payload)
  {
  }

  lemma RealAfterSend(flushCh: seq<Payload>, ws: seq<Worker>, q: Payload)
    requires AllReal(flushCh, ws) && WorthSending(q)
    ensures AllReal(flushCh + [q], ws)
  {
  }

  lemma SendKeepsDelivery(c: Config, s: State, p: Payload)
    requires Books(c, s) && Delivery(s, p) && (s.main.Flushing? || s.main.SendingDiagnostics?)
    ensures Delivery(AfterTrySend(s), p)
  {
    if |s.flushCh| < FLUSH_CHANNEL_CAPACITY {
      var x := Placed(s.main.payload, if s.main.Flushing? then s.h.sinceCleared else []);
      var t := AfterTrySend(s);
      assert t.flushCh == s.flushCh + [s.main.payload] && t.h.placed == s.h.placed + [x];
      FifoAfterSend(s.h.placed, s.h.received, s.flushCh, x);
      OnlyRealPayloadsAreSent(c, s.main, s.d, s.h.sinceCleared);
      RealAfterSend(s.flushCh, s.workers, s.main.payload);
    }
  }

  predicate ByMainOrClient(a: Action) {
    !a.TrySend? && !ByWorker(a)
  }

  /** What the invariants of delivery are about. */
  predicate SameTraffic(s: State, t: State) {
    && t.workers == s.workers && t.flushCh == s.flushCh
    && t.h.placed == s.h.placed && t.h.received == s.h.received && t.h.sent == s.h.sent
  }

  lemma MessageLeavesTraffic(c: Config, s: State, m: Message, chance: Chance)
    ensures SameTraffic(s, Handle(c, s, m, chance))
  {
  }

  lemma TakeLeavesTraffic(c: Config, s: State, chance: Chance)
    requires Enabled(c, s, Take(chance))
    ensures SameTraffic(s, Next(c, s, Take(chance)))
  {
    MessageLeavesTraffic(c, s.(inbox := s.inbox[1..], h := s.h.(taken := s.h.taken + [s.inbox[0]])), s.inbox[0], chance);
  }

  lemma HandOverLeavesTraffic(c: Config, s: State, m: Message, chance: Chance)
    requires Enabled(c, s, HandOver(m, chance))
    ensures SameTraffic(s, Next(c, s, HandOver(m, chance)))
  {
    MessageLeavesTraffic(c, s.(h := s.h.(posted := s.h.posted + [m], taken := s.h.taken + [m])), m, chance);
  }

  lemma TicksLeaveTraffic(c: Config, s: State, a: Action)
    requires Enabled(c, s, a) && (a.TakeResult? || a.FlushTick? || a.KeysTick? || a.StatsTick?)
    ensures SameTraffic(s, Next(c, s, a))
  {
    match a
    case TakeResult =>
    case FlushTick =>
    case KeysTick =>
    case StatsTick(_) =>
  }

  /** Only sends and the workers touch it. */
  lemma OthersLeaveTraffic(c: Config, s: State, a: Action)
    requires Enabled(c, s, a) && ByMainOrClient(a)
    ensures SameTraffic(s, Next(c, s, a))
  {
    match a
    case Take(chance) => TakeLeavesTraffic(c, s, chance);
    case HandOver(m, chance) => HandOverLeavesTraffic(c, s, m, chance);
    case TakeResult => TicksLeaveTraffic(c, s, a);
    case FlushTick => TicksLeaveTraffic(c, s, a);
    case KeysTick => TicksLeaveTraffic(c, s, a);
    case StatsTick(_) => TicksLeaveTraffic(c, s, a);
    case Post(_) =>
    case StreamInitialized(_) =>
    case StartDiagnostics =>
    case ClearOutbox =>
    case UndoAdd =>
    case FinishWait =>
  }

  lemma DeliveryKept(c: Config, s: State, a: Action, p: Payload)
    requires Books(c, s) && Delivery(s, p) && Enabled(c, s, a)
    ensures Delivery(Next(c, s, a), p)
  {
    match a
    case Receive(i) => ReceiveKeepsDelivery(c, s, i, p);
    case Deliver(i, result) => DeliverKeepsDelivery(c, s, i, result, p);
    case PostResult(_) => FinishKeepsDelivery(c, s, a, p);
    case Done(_) => FinishKeepsDelivery(c, s, a, p);
    case ReceiveClosed(_) => FinishKeepsDelivery(c, s, a, p);
    case TrySend => SendKeepsDelivery(c, s, p);
    case _ => OthersLeaveTraffic(c, s, a);
  }

  lemma {:induction false} DeliveryAlong(c: Config, s: State, acts: seq<Action>, t: State, p: Payload)
    requires Books(c, s) && Delivery(s, p) && IsRun(c, s, acts, t)
    ensures Books(c, t) && Delivery(t, p)
    decreases |acts|
  {
    if acts != [] {
      BooksKept(c, s, acts[0]);
      DeliveryKept(c, s, acts[0], p);
      DeliveryAlong(c, Next(c, s, acts[0]), acts[1..], t, p);
    }
  }

  lemma ReachableDelivery(c: Config, s: State, p: Payload)
    requires Reachable(c, s)
    ensures Books(c, s) && Delivery(s, p)
  {
    var s0, acts :| Init(c, s0) && IsRun(c, s0, acts, s);
    BooksAtStart(c, s0);
    NothingHeld(s0.workers, p);
    DeliveryAlong(c, s0, acts, s, p);
  }

  lemma NoneInHand(c: Config, s: State, p: Payload)
    requires Reachable(c, s) && Enabled(c, s, FinishWait)
    ensures Held(s.workers, p) == 0 && s.flushCh == []
  {
    ClosingIsSafe(c, s);
    forall i | 0 <= i < |s.workers| ensures !s.workers[i].Holding? {
      if s.workers[i].Holding? {
        SomeBusy(s.workers, i);
      }
    }
    NothingHeld(s.workers, p);
  }

  /** When the reply to a flush, sync or shutdown message is sent (the step FinishWait), every payload put
      on the flush channel so far has been passed to the sender, exactly as often as it was put there. */
  lemma RepliesComeAfterDelivery(c: Config, s: State, p: Payload)
    requires Reachable(c, s) && Enabled(c, s, FinishWait)
    ensures Times(s.h.sent, p) == Times(PayloadsOf(s.h.placed), p)
    ensures p in s.h.sent <==> p in PayloadsOf(s.h.placed)
  {
    ReachableDelivery(c, s, p);
    NoneInHand(c, s, p);
    assert s.h.received + [] == s.h.received;
    TimesPositive(s.h.sent, p);
    TimesPositive(PayloadsOf(s.h.placed), p);
  }

  /** At the reply to a flush handled while enabled, the payloads passed to the sender hold every event the
      outbox ever took and every evaluation ever summarized if and only if the flush drained the outbox:
      its payload was taken, or there was nothing to flush. Once the server has shut the processor down,
      they do if and only if nothing was discarded then. */
  lemma RepliesCoverWhatWasAccepted(c: Config, s: State)
    requires Reachable(c, s) && Enabled(c, s, FinishWait)
    ensures !s.d.disabled && s.main.reason.ForFlush? ==> (AllHandedOver(s) <==> s.main.reason.drained)
    ensures !s.d.disabled ==> (AllHandedOver(s) <==> !SomethingToFlush(s.d))
    ensures s.d.disabled ==> (AllHandedOver(s) <==> s.h.discarded == [] && s.h.discardedEvals == [])
    ensures s.h.posted == s.h.taken + s.inbox
  {
    ReachableBooks(c, s);
    HandedOverIff(c, s);
    NoFlagsNoEvaluations(s.h.sinceCleared);
  }

  lemma FlushWithRoom(c: Config, s: State, t: State)
    requires Books(c, s) && s.main.Flushing? && |s.flushCh| < FLUSH_CHANNEL_CAPACITY && t == AfterTrySend(s)
    ensures t.main == Sent(s.main.payload, s.main.replies) && AllHandedOver(t)
  {
    SendKeepsBooks(c, s);
    HandedOverIff(c, t);
  }

  lemma FlushWithoutRoom(c: Config, s: State, t: State)
    requires Books(c, s) && s.main.Flushing? && |s.flushCh| >= FLUSH_CHANNEL_CAPACITY && t == AfterTrySend(s)
    ensures t.main == Refused(s.main.replies) && !AllHandedOver(t)
  {
    SendKeepsBooks(c, s);
    HandedOverIff(c, t);
  }

  lemma EndOfFlush(c: Config, t: State, u: State)
    requires t.main.Sent? || t.main.Refused?
    requires u == Next(c, t, if t.main.Sent? then ClearOutbox else UndoAdd)
    ensures u.h.accepted == t.h.accepted && u.h.summarized == t.h.summarized && u.h.placed == t.h.placed
    ensures u.main == AfterFlush(t.main.replies, t.main.Sent?)
  {
  }

  /** A flush with something to flush has handed everything over when it ends if and only if the channel
      has room at the send: s is the state before the send, t the one after it, and u the one in which
      the flush has ended. */
  lemma FlushDeliversIff(c: Config, s: State, t: State, u: State)
    requires Reachable(c, s) && s.main.Flushing? && t == Next(c, s, TrySend)
    requires u == Next(c, t, if t.main.Sent? then ClearOutbox else UndoAdd)
    ensures AllHandedOver(u) <==> |s.flushCh| < FLUSH_CHANNEL_CAPACITY
    ensures u.main == AfterFlush(s.main.replies, |s.flushCh| < FLUSH_CHANNEL_CAPACITY)
  {
    ReachableBooks(c, s);
    EndOfFlush(c, t, u);
    if |s.flushCh| < FLUSH_CHANNEL_CAPACITY {
      FlushWithRoom(c, s, t);
    } else {
      FlushWithoutRoom(c, s, t);
    }
  }

  // ---------- Shutdown by the server ----------

  /** How often p is on the channel or in the hands of a worker. */
  function InFlight(s: State, p: Payload): nat {
    Times(s.flushCh, p) + Held(s.workers, p)
  }

  lemma DisabledMessage(c: Config, s: State, m: Message, chance: Chance)
    requires s.d.disabled
    ensures var t := Handle(c, s, m, chance);
      t.d.disabled && t.h.accepted == s.h.accepted && t.h.placed == s.h.placed
  {
    if m.SendEvent? {
      ProcessKeeps(c, s.d, m.evt, chance);
      assert s.h.accepted + [] == s.h.accepted;
    }
  }

  lemma DisabledSend(c: Config, s: State, p: Payload)
    requires Books(c, s) && s.d.disabled && (s.main.Flushing? || s.main.SendingDiagnostics?) && p.Analytics?
    ensures var t := AfterTrySend(s);
      t.d.disabled && t.h.accepted == s.h.accepted && Times(PayloadsOf(t.h.placed), p) == Times(PayloadsOf(s.h.placed), p)
  {
    if |s.flushCh| < FLUSH_CHANNEL_CAPACITY {
      PayloadsAppend(s.h.placed, Placed(s.main.payload, []));
      TimesAppend(PayloadsOf(s.h.placed), s.main.payload, p);
    }
  }

  /** The steps that neither process a message or result nor send. */
  lemma QuietStep(c: Config, s: State, a: Action)
    requires Enabled(c, s, a) && !(a.Take? || a.HandOver? || a.TrySend? || a.TakeResult?)
    ensures var t := Next(c, s, a);
      t.d.disabled == s.d.disabled && t.h.accepted == s.h.accepted && t.h.placed == s.h.placed
    ensures Next(c, s, a).h.summarized == s.h.summarized
  {
    if ByWorker(a) {
      WorkerLeavesMain(c, s, a);
    } else {
      QuietMainStep(c, s, a);
    }
  }

  lemma QuietMainStep(c: Config, s: State, a: Action)
    requires Enabled(c, s, a) && !ByWorker(a) && !(a.Take? || a.HandOver? || a.TrySend? || a.TakeResult?)
    ensures var t := Next(c, s, a);
      t.d.disabled == s.d.disabled && t.h.accepted == s.h.accepted && t.h.placed == s.h.placed
    ensures Next(c, s, a).h.summarized == s.h.summarized
  {
    match a
    case Post(_) =>
    case StreamInitialized(_) =>
    case FlushTick =>
    case KeysTick =>
    case StatsTick(_) =>
    case StartDiagnostics =>
    case ClearOutbox =>
    case UndoAdd =>
    case FinishWait =>
  }

  lemma DisabledStep(c: Config, s: State, a: Action, p: Payload)
    requires Books(c, s) && s.d.disabled && Enabled(c, s, a) && p.Analytics?
    ensures var t := Next(c, s, a);
      t.d.disabled && t.h.accepted == s.h.accepted && Times(PayloadsOf(t.h.placed), p) == Times(PayloadsOf(s.h.placed), p)
  {
    match a
    case Take(chance) =>
      DisabledMessage(c, s.(inbox := s.inbox[1..], h := s.h.(taken := s.h.taken + [s.inbox[0]])), s.inbox[0], chance);
    case HandOver(m, chance) =>
      DisabledMessage(c, s.(h := s.h.(posted := s.h.posted + [m], taken := s.h.taken + [m])), m, chance);
    case TrySend => DisabledSend(c, s, p);
    case TakeResult =>
    case _ => QuietStep(c, s, a);
  }

  lemma {:induction false} DisabledAlong(c: Config, s: State, acts: seq<Action>, t: State, p: Payload)
    requires Books(c, s) && s.d.disabled && IsRun(c, s, acts, t) && p.Analytics?
    ensures t.d.disabled && Books(c, t) && t.h.accepted == s.h.accepted
    ensures Times(PayloadsOf(t.h.placed), p) == Times(PayloadsOf(s.h.placed), p)
    decreases |acts|
  {
    if acts != [] {
      BooksKept(c, s, acts[0]);
      DisabledStep(c, s, acts[0], p);
      DisabledAlong(c, Next(c, s, acts[0]), acts[1..], t, p);
    }
  }

  lemma SentPlusInFlight(s: State, p: Payload)
    requires Delivery(s, p)
    ensures Times(s.h.sent, p) + InFlight(s, p) == Times(PayloadsOf(s.h.placed), p)
  {
    TimesConcat(s.h.received, s.flushCh, p);
  }

  lemma DisabledMeansEmpty(c: Config, t: State)
    requires Books(c, t) && t.d.disabled
    ensures !SomethingToFlush(t.d)
  {
    NoFlagsNoEvaluations(t.h.sinceCleared);
  }

  /** Once the server has shut the processor down, that is so for ever: the outbox stays empty and takes
      nothing more, no analytics payload enters the flush channel, and whatever is sent afterwards was
      in flight at the time. */
  lemma ShutdownIsPermanent(c: Config, s: State, acts: seq<Action>, t: State, p: Payload)
    requires Reachable(c, s) && s.d.disabled && IsRun(c, s, acts, t) && p.Analytics?
    ensures t.d.disabled && !SomethingToFlush(t.d)
    ensures t.h.accepted == s.h.accepted
    ensures Times(PayloadsOf(t.h.placed), p) == Times(PayloadsOf(s.h.placed), p)
    ensures Times(t.h.sent, p) + InFlight(t, p) == Times(s.h.sent, p) + InFlight(s, p)
  {
    ReachableDelivery(c, s, p);
    DisabledAlong(c, s, acts, t, p);
    DeliveryAlong(c, s, acts, t, p);
    SentPlusInFlight(s, p);
    SentPlusInFlight(t, p);
    DisabledMeansEmpty(c, t);
  }
}
