/** Results of sends: each one that SendEventData returns for an analytics payload reaches the main loop, and what
    the main loop has made of those it took. */
module ProtocolResults {
  import opened Events
  import opened OutboxSpec
  import opened DispatcherSpec
  import opened Protocol

  function Occurrences(rs: seq<SendResult>, r: SendResult): nat {
    if rs == [] then 0 else Occurrences(rs[..|rs| - 1], r) + if rs[|rs| - 1] == r then 1 else 0
  }

  function HasIt(w: Worker, r: SendResult): nat {
    if w == HasResult(r) then 1 else 0
  }

  /** The number of workers that still have r to post. */
  function ToPost(ws: seq<Worker>, r: SendResult): nat {
    if ws == [] then 0 else ToPost(ws[..|ws| - 1], r) + HasIt(ws[|ws| - 1], r)
  }

  predicate Underway(returned: seq<SendResult>, results: seq<SendResult>, resultCh: seq<SendResult>, ws: seq<Worker>, r: SendResult) {
    Occurrences(returned, r) == Occurrences(results, r) + Occurrences(resultCh, r) + ToPost(ws, r)
  }

  /** Some result has told the processor to shut down. */
  predicate ToldToShutDown(rs: seq<SendResult>) {
    exists i :: 0 <= i < |rs| && rs[i].mustShutDown
  }

  /** The latest time that a result has brought before the processor was shut down. */
  function TimeFrom(rs: seq<SendResult>): Time {
    if rs == [] then 0
    else
      var front, r := rs[..|rs| - 1], rs[|rs| - 1];
      if ToldToShutDown(front) || r.mustShutDown || r.timeFromServer == 0 then TimeFrom(front) else r.timeFromServer
  }

  predicate Learned(d: Dispatcher, results: seq<SendResult>) {
    && (d.disabled <==> ToldToShutDown(results))
    && d.lastKnownPastTime == TimeFrom(results)
  }

  predicate Results(s: State, r: SendResult) {
    && Underway(s.h.returned, s.h.results, s.resultCh, s.workers, r)
    && Learned(s.d, s.h.results)
  }

  lemma OccurrencesAppend(rs: seq<SendResult>, x: SendResult, r: SendResult)
    ensures Occurrences(rs + [x], r) == Occurrences(rs, r) + if x == r then 1 else 0
  {
    assert (rs + [x])[..|rs|] == rs;
  }

  lemma {:induction false} OccurrencesOfFirst(rs: seq<SendResult>, r: SendResult)
    requires rs != []
    ensures Occurrences(rs, r) == Occurrences(rs[1..], r) + if rs[0] == r then 1 else 0
  {
    if |rs| > 1 {
      OccurrencesOfFirst(rs[..|rs| - 1], r);
      assert rs[1..][..|rs| - 2] == rs[..|rs| - 1][1..];
    }
  }

  lemma {:induction false} OccurrencesPositive(rs: seq<SendResult>, r: SendResult)
    ensures r in rs <==> Occurrences(rs, r) > 0
  {
    if rs != [] {
      OccurrencesPositive(rs[..|rs| - 1], r);
      assert rs == rs[..|rs| - 1] + [rs[|rs| - 1]];
    }
  }

  lemma {:induction false} ToPostPositive(ws: seq<Worker>, r: SendResult)
    ensures HasResult(r) in ws <==> ToPost(ws, r) > 0
  {
    if ws != [] {
      ToPostPositive(ws[..|ws| - 1], r);
      assert ws == ws[..|ws| - 1] + [ws[|ws| - 1]];
    }
  }

  lemma {:induction false} ToPostUpdate(ws: seq<Worker>, i: nat, w: Worker, r: SendResult)
    requires i < |ws|
    ensures ToPost(ws[i := w], r) + HasIt(ws[i], r) == ToPost(ws, r) + HasIt(w, r)
  {
    var n := |ws| - 1;
    if i < n {
      ToPostUpdate(ws[..n], i, w, r);
      assert ws[i := w][..n] == ws[..n][i := w];
    } else {
      assert ws[i := w][..n] == ws[..n];
    }
  }

  lemma {:induction false} NoneToPost(ws: seq<Worker>, r: SendResult)
    requires forall i :: 0 <= i < |ws| ==> !ws[i].HasResult?
    ensures ToPost(ws, r) == 0
  {
    if ws != [] {
      NoneToPost(ws[..|ws| - 1], r);
    }
  }

  lemma ToldAppend(rs: seq<SendResult>, x: SendResult)
    ensures ToldToShutDown(rs + [x]) <==> ToldToShutDown(rs) || x.mustShutDown
  {
    assert (rs + [x])[|rs|] == x;
    assert forall i :: 0 <= i < |rs| ==> (rs + [x])[i] == rs[i];
  }

  lemma LearnedAfterResult(d: Dispatcher, results: seq<SendResult>, r: SendResult)
    requires Learned(d, results)
    ensures Learned(HandleResult(d, r), results + [r])
  {
    ToldAppend(results, r);
    assert (results + [r])[..|results|] == results;
  }

  lemma TakeResultKeeps(c: Config, s: State, r: SendResult)
    requires Results(s, r) && Enabled(c, s, TakeResult)
    ensures Results(Next(c, s, TakeResult), r)
  {
    OccurrencesOfFirst(s.resultCh, r);
    OccurrencesAppend(s.h.results, s.resultCh[0], r);
    LearnedAfterResult(s.d, s.h.results, s.resultCh[0]);
  }

  lemma UnderwayAfterReturn(returned: seq<SendResult>, results: seq<SendResult>, resultCh: seq<SendResult>, ws: seq<Worker>,
                            i: nat, result: SendResult, r: SendResult)
    requires Underway(returned, results, resultCh, ws, r) && i < |ws| && ws[i].Holding?
    ensures Underway(returned + [result], results, resultCh, ws[i := HasResult(result)], r)
    ensures Underway(returned, results, resultCh, ws[i := Finishing], r)
  {
    OccurrencesAppend(returned, result, r);
    ToPostUpdate(ws, i, HasResult(result), r);
    ToPostUpdate(ws, i, Finishing, r);
  }

  lemma DeliverKeepsResults(c: Config, s: State, i: nat, result: SendResult, r: SendResult)
    requires Results(s, r) && Enabled(c, s, Deliver(i, result))
    ensures Results(Next(c, s, Deliver(i, result)), r)
  {
    UnderwayAfterReturn(s.h.returned, s.h.results, s.resultCh, s.workers, i, result, r);
    DeliveryEffect(s, i, s.workers[i].payload, result);
  }

  lemma DeliveryEffect(s: State, i: nat, p: Payload, result: SendResult)
    requires i < |s.workers|
    ensures var t := AfterDelivery(s, i, p, result);
      && t.d == s.d && t.h.results == s.h.results && t.resultCh == s.resultCh
      && ((t.h.returned == s.h.returned && t.workers == s.workers[i := Finishing])
          || (t.h.returned == s.h.returned + [result] && t.workers == s.workers[i := HasResult(result)]))
  {
  }

  lemma PostKeepsResults(c: Config, s: State, i: nat, r: SendResult)
    requires Results(s, r) && Enabled(c, s, PostResult(i))
    ensures Results(Next(c, s, PostResult(i)), r)
  {
    OccurrencesAppend(s.resultCh, s.workers[i].result, r);
    ToPostUpdate(s.workers, i, Finishing, r);
  }

  lemma OtherWorkersKeepResults(c: Config, s: State, a: Action, r: SendResult)
    requires Results(s, r) && Enabled(c, s, a) && (a.Receive? || a.ReceiveClosed? || a.Done?)
    ensures Results(Next(c, s, a), r)
  {
    match a
    case Receive(i) => ToPostUpdate(s.workers, i, Holding(s.flushCh[0]), r);
    case ReceiveClosed(i) => ToPostUpdate(s.workers, i, Terminated, r);
    case Done(i) => ToPostUpdate(s.workers, i, Idle, r);
  }

  /** What results are about. */
  predicate SameResults(s: State, t: State) {
    && t.h.returned == s.h.returned && t.h.results == s.h.results
    && t.resultCh == s.resultCh && t.workers == s.workers
    && t.d.disabled == s.d.disabled && t.d.lastKnownPastTime == s.d.lastKnownPastTime
  }

  lemma MessageLeavesResults(c: Config, s: State, m: Message, chance: Chance)
    ensures SameResults(s, Handle(c, s, m, chance))
  {
    if m.SendEvent? {
      ProcessKeeps(c, s.d, m.evt, chance);
    }
  }

  lemma TakeLeavesResults(c: Config, s: State, chance: Chance)
    requires Enabled(c, s, Take(chance))
    ensures SameResults(s, Next(c, s, Take(chance)))
  {
    MessageLeavesResults(c, s.(inbox := s.inbox[1..], h := s.h.(taken := s.h.taken + [s.inbox[0]])), s.inbox[0], chance);
  }

  lemma HandOverLeavesResults(c: Config, s: State, m: Message, chance: Chance)
    requires Enabled(c, s, HandOver(m, chance))
    ensures SameResults(s, Next(c, s, HandOver(m, chance)))
  {
    MessageLeavesResults(c, s.(h := s.h.(posted := s.h.posted + [m], taken := s.h.taken + [m])), m, chance);
  }

  lemma TicksLeaveResults(c: Config, s: State, a: Action)
    requires Enabled(c, s, a) && (a.FlushTick? || a.KeysTick? || a.StatsTick?)
    ensures SameResults(s, Next(c, s, a))
  {
    match a
    case FlushTick =>
    case KeysTick =>
    case StatsTick(_) =>
  }

  lemma SendLeavesResults(s: State)
    requires s.main.Flushing? || s.main.SendingDiagnostics?
    ensures SameResults(s, AfterTrySend(s))
  {
  }

  lemma OthersLeaveResults(c: Config, s: State, a: Action)
    requires Enabled(c, s, a)
    requires a.Post? || a.StreamInitialized? || a.StartDiagnostics? || a.ClearOutbox? || a.UndoAdd? || a.FinishWait?
    ensures SameResults(s, Next(c, s, a))
  {
    match a
    case Post(_) =>
    case StreamInitialized(_) =>
    case StartDiagnostics =>
    case ClearOutbox =>
    case UndoAdd =>
    case FinishWait =>
  }

  lemma ResultsKept(c: Config, s: State, a: Action, r: SendResult)
    requires Results(s, r) && Enabled(c, s, a)
    ensures Results(Next(c, s, a), r)
  {
    match a
    case TakeResult => TakeResultKeeps(c, s, r);
    case Deliver(i, result) => DeliverKeepsResults(c, s, i, result, r);
    case PostResult(i) => PostKeepsResults(c, s, i, r);
    case Receive(_) => OtherWorkersKeepResults(c, s, a, r);
    case ReceiveClosed(_) => OtherWorkersKeepResults(c, s, a, r);
    case Done(_) => OtherWorkersKeepResults(c, s, a, r);
    case Take(chance) => TakeLeavesResults(c, s, chance);
    case HandOver(m, chance) => HandOverLeavesResults(c, s, m, chance);
    case TrySend => SendLeavesResults(s);
    case FlushTick => TicksLeaveResults(c, s, a);
    case KeysTick => TicksLeaveResults(c, s, a);
    case StatsTick(_) => TicksLeaveResults(c, s, a);
    case _ => OthersLeaveResults(c, s, a);
  }

  lemma {:induction false} ResultsAlong(c: Config, s: State, acts: seq<Action>, t: State, r: SendResult)
    requires Results(s, r) && IsRun(c, s, acts, t)
    ensures Results(t, r)
    decreases |acts|
  {
    if acts != [] {
      ResultsKept(c, s, acts[0], r);
      ResultsAlong(c, Next(c, s, acts[0]), acts[1..], t, r);
    }
  }

  /** In every reachable state: each result that SendEventData has returned for an analytics payload is in the hands
      of the worker that got it, on the result channel, or taken by the main loop, as often as it was returned;
      the processor is disabled exactly if a taken result said so; and the last known time is the one that the
      latest taken result with a time has brought, as long as the processor was not shut down. */
  lemma ResultsTakeEffect(c: Config, s: State, r: SendResult)
    requires Reachable(c, s)
    ensures Occurrences(s.h.returned, r) == Occurrences(s.h.results, r) + Occurrences(s.resultCh, r) + ToPost(s.workers, r)
    ensures r in s.h.returned <==> r in s.h.results || r in s.resultCh || HasResult(r) in s.workers
    ensures s.d.disabled <==> ToldToShutDown(s.h.results)
    ensures s.d.lastKnownPastTime == TimeFrom(s.h.results)
  {
    var s0, acts :| Init(c, s0) && IsRun(c, s0, acts, s);
    NoneToPost(s0.workers, r);
    ResultsAlong(c, s0, acts, s, r);
    OccurrencesPositive(s.h.returned, r);
    OccurrencesPositive(s.h.results, r);
    OccurrencesPositive(s.resultCh, r);
    ToPostPositive(s.workers, r);
  }

  /** In words: before the shutdown, the last result with a time, if there is one, gives the last known time. */
  lemma LatestTimeCounts(rs: seq<SendResult>, i: nat)
    requires i < |rs| && rs[i].timeFromServer > 0 && !ToldToShutDown(rs)
    requires forall j :: i < j < |rs| ==> rs[j].timeFromServer == 0
    ensures TimeFrom(rs) == rs[i].timeFromServer
    decreases |rs|
  {
    var front := rs[..|rs| - 1];
    assert rs == front + [rs[|rs| - 1]];
    ToldAppend(front, rs[|rs| - 1]);
    if i < |rs| - 1 {
      LatestTimeCounts(front, i);
    }
  }
}
