/** Runs of the heap dispatcher: whatever sequence of steps its main loop takes, it goes on doing what the
    functions on values say, and every message that it has sent stays as it was. */
module DispatcherRuns {
  import opened Events
  import OutboxSpec
  import opened DispatcherSpec
  import opened Diagnostics
  import opened DispatcherSteps
  import EventDispatcher

  type Message = EventDispatcher.Message

  ghost predicate Ready(d: EventDispatcher.Dispatcher, m: DiagnosticsManager)
    reads d, d.outbox, d.outbox.buffer, d.outbox.summarizer, d.outbox.summarizer.state.flags,
          d.outbox.summarizer.state.flags.Repr, d.userKeys, d.userKeys.lruList, d.userKeys.Repr(), m
  {
    d.Valid() && m.Valid() && m as object !in d.Repr()
  }

  ghost function SnapshotOf(d: EventDispatcher.Dispatcher, m: DiagnosticsManager): Snapshot
    requires d.Valid()
    reads d, d.outbox, d.outbox.buffer, d.outbox.summarizer, d.outbox.summarizer.state.flags,
          d.outbox.summarizer.state.flags.Repr, d.userKeys, d.userKeys.lruList, d.userKeys.Repr(), m, d.flushCh
  {
    Snapshot(d.Value(), m.Value(), d.flushCh.queue == [])
  }

  ghost predicate IsAt(d: EventDispatcher.Dispatcher, m: DiagnosticsManager, s: Snapshot)
    reads d, d.outbox, d.outbox.buffer, d.outbox.summarizer, d.outbox.summarizer.state.flags,
          d.outbox.summarizer.state.flags.Repr, d.userKeys, d.userKeys.lruList, d.userKeys.Repr(), m, d.flushCh
  {
    Ready(d, m) && SnapshotOf(d, m) == s
  }

  /** The same, in a form that the verifier looks into only where IsAt is mentioned. */
  ghost predicate HasReached(d: EventDispatcher.Dispatcher, m: DiagnosticsManager, s: Snapshot)
    reads d, d.outbox, d.outbox.buffer, d.outbox.summarizer, d.outbox.summarizer.state.flags,
          d.outbox.summarizer.state.flags.Repr, d.userKeys, d.userKeys.lruList, d.userKeys.Repr(), m, d.flushCh
  {
    forall x {:trigger IsAt(d, m, x)} :: x == s ==> IsAt(d, m, x)
  }

  /** A worker reads v from the message, and nothing in away is part of it. */
  ghost predicate IsIntact(message: Message, v: OutboxSpec.Payload, away: set<object>)
    reads if message.AnalyticsMessage? then {message.payload.summary.flags} + message.payload.Repr() else {}
  {
    message.Valid() && message.Value() == v && message.Repr() !! away
  }

  ghost predicate AreIntact(messages: seq<Message>, vs: seq<OutboxSpec.Payload>, away: set<object>)
    reads *
  {
    && |messages| == |vs|
    && forall i {:trigger IsIntact(messages[i], vs[i], away)} :: 0 <= i < |messages| ==> IsIntact(messages[i], vs[i], away)
  }

  method Flush(d: EventDispatcher.Dispatcher, m: DiagnosticsManager) returns (ghost sent: seq<Message>)
    requires Ready(d, m)
    modifies d.Repr()
    ensures Ready(d, m) && fresh(d.Repr() - old(d.Repr()))
    ensures SnapshotOf(d, m) == After(d.config, old(SnapshotOf(d, m)), FlushDue)
    ensures AreIntact(sent, Sends(old(SnapshotOf(d, m)), FlushDue), d.Repr() + {m})
  {
    ghost var s := SnapshotOf(d, m);
    d.TriggerFlush();
    sent := if FlushIsSent(s) then d.flushCh.queue else [];
  }

  method SendStatistics(d: EventDispatcher.Dispatcher, m: DiagnosticsManager, now: Time) returns (ghost sent: seq<Message>)
    requires Ready(d, m)
    modifies d.Repr(), m
    ensures Ready(d, m) && fresh(d.Repr() - old(d.Repr()))
    ensures SnapshotOf(d, m) == After(d.config, old(SnapshotOf(d, m)), StatisticsDue(now))
    ensures AreIntact(sent, Sends(old(SnapshotOf(d, m)), StatisticsDue(now)), d.Repr() + {m})
  {
    ghost var s := SnapshotOf(d, m);
    d.SendStatistics(m, now);
    sent := if s.free then d.flushCh.queue else [];
  }

  /** A step that sends nothing. */
  method Quiet(d: EventDispatcher.Dispatcher, m: DiagnosticsManager, op: Operation)
    requires Ready(d, m) && !op.FlushDue? && !op.StatisticsDue?
    modifies d.Repr(), m
    ensures Ready(d, m) && fresh(d.Repr() - old(d.Repr()))
    ensures SnapshotOf(d, m) == After(d.config, old(SnapshotOf(d, m)), op)
  {
    match op
    case ProcessEvent(evt, chance) => d.ProcessEvent(evt, chance);
    case ResultTaken(r) => d.HandleSendResult(r);
    case ResetDue => d.ResetUserKeys();
    case InitRecorded(i) => m.RecordStreamInit(i.timestamp, i.failed, i.durationMillis);
    case WorkerReceives => d.flushCh.Receive();
  }

  method Handle(d: EventDispatcher.Dispatcher, m: DiagnosticsManager, op: Operation) returns (ghost sent: seq<Message>)
    requires Ready(d, m)
    modifies d.Repr(), m
    ensures Ready(d, m) && fresh(d.Repr() - old(d.Repr()))
    ensures SnapshotOf(d, m) == After(d.config, old(SnapshotOf(d, m)), op)
    ensures AreIntact(sent, Sends(old(SnapshotOf(d, m)), op), d.Repr() + {m})
  {
    match op {
      case FlushDue => sent := Flush(d, m);
      case StatisticsDue(now) => sent := SendStatistics(d, m, now);
      case _ =>
        Quiet(d, m, op);
        sent := [];
    }
  }

  /** One step, beside all the messages that were sent before it. */
  method Step(d: EventDispatcher.Dispatcher, m: DiagnosticsManager, op: Operation, ghost before: seq<Message>, ghost vs: seq<OutboxSpec.Payload>)
      returns (ghost messages: seq<Message>)
    requires Ready(d, m) && AreIntact(before, vs, d.Repr() + {m})
    modifies d.Repr(), m
    ensures Ready(d, m) && fresh(d.Repr() - old(d.Repr()))
    ensures SnapshotOf(d, m) == After(d.config, old(SnapshotOf(d, m)), op)
    ensures before <= messages && AreIntact(messages, vs + Sends(old(SnapshotOf(d, m)), op), d.Repr() + {m})
  {
    ghost var footprint := d.Repr() + {m};
    ghost var sent := Handle(d, m, op);
    ghost var away := d.Repr() + {m};
    assert fresh(away - footprint);
    forall i | 0 <= i < |before| ensures IsIntact(before[i], vs[i], away) {
      assert old(IsIntact(before[i], vs[i], footprint));
    }
    messages := before + sent;
    IntactTogether(before, vs, sent, Sends(old(SnapshotOf(d, m)), op), away);
  }

  lemma IntactTogether(a: seq<Message>, vs: seq<OutboxSpec.Payload>, b: seq<Message>, ws: seq<OutboxSpec.Payload>, away: set<object>)
    requires AreIntact(a, vs, away) && AreIntact(b, ws, away)
    ensures AreIntact(a + b, vs + ws, away)
  {
    forall i | 0 <= i < |a + b| ensures IsIntact((a + b)[i], (vs + ws)[i], away) {
      assert i >= |a| ==> IsIntact(b[i - |a|], ws[i - |a|], away);
      assert i < |a| ==> IsIntact(a[i], vs[i], away);
    }
  }

  lemma RunStep(c: Config, s: Snapshot, ops: seq<Operation>, i: nat, vs: seq<OutboxSpec.Payload>)
    requires i < |ops|
    ensures AfterAll(c, s, ops[..i + 1]) == After(c, AfterAll(c, s, ops[..i]), ops[i])
    ensures vs + SendsAll(c, s, ops[..i + 1]) == (vs + SendsAll(c, s, ops[..i])) + Sends(AfterAll(c, s, ops[..i]), ops[i])
  {
    assert ops[..i + 1][..i] == ops[..i];
  }

  method StepAt(d: EventDispatcher.Dispatcher, m: DiagnosticsManager, ops: seq<Operation>, i: nat,
                ghost s: Snapshot, ghost before: seq<Message>, ghost vs: seq<OutboxSpec.Payload>) returns (ghost messages: seq<Message>)
    requires i < |ops| && HasReached(d, m, AfterAll(d.config, s, ops[..i]))
    requires AreIntact(before, vs + SendsAll(d.config, s, ops[..i]), d.Repr() + {m})
    modifies d.Repr(), m
    ensures HasReached(d, m, AfterAll(d.config, s, ops[..i + 1])) && fresh(d.Repr() - old(d.Repr()))
    ensures before <= messages && AreIntact(messages, vs + SendsAll(d.config, s, ops[..i + 1]), d.Repr() + {m})
  {
    assert IsAt(d, m, AfterAll(d.config, s, ops[..i]));
    RunStep(d.config, s, ops, i, vs);
    messages := Step(d, m, ops[i], before, vs + SendsAll(d.config, s, ops[..i]));
  }

  /** Any sequence of steps refines the functions on values; every message sent on the way, or before (with the
      contents vs), shares nothing with the dispatcher and still holds what was sent. */
  method Run(d: EventDispatcher.Dispatcher, m: DiagnosticsManager, ops: seq<Operation>, ghost before: seq<Message>, ghost vs: seq<OutboxSpec.Payload>)
      returns (ghost messages: seq<Message>)
    requires Ready(d, m) && AreIntact(before, vs, d.Repr() + {m})
    modifies d.Repr(), m
    ensures Ready(d, m) && fresh(d.Repr() - old(d.Repr()))
    ensures SnapshotOf(d, m) == AfterAll(d.config, old(SnapshotOf(d, m)), ops)
    ensures before <= messages
    ensures AreIntact(messages, vs + SendsAll(d.config, old(SnapshotOf(d, m)), ops), d.Repr() + {m})
  {
    ghost var s := SnapshotOf(d, m);
    messages := RunFrom(d, m, ops, s, before, vs);
    assert ops[..|ops|] == ops;
    assert IsAt(d, m, AfterAll(d.config, s, ops));
  }

  method RunFrom(d: EventDispatcher.Dispatcher, m: DiagnosticsManager, ops: seq<Operation>,
                 ghost s: Snapshot, ghost before: seq<Message>, ghost vs: seq<OutboxSpec.Payload>) returns (ghost messages: seq<Message>)
    requires HasReached(d, m, s) && AreIntact(before, vs, d.Repr() + {m})
    modifies d.Repr(), m
    ensures HasReached(d, m, AfterAll(d.config, s, ops[..|ops|])) && fresh(d.Repr() - old(d.Repr()))
    ensures before <= messages && AreIntact(messages, vs + SendsAll(d.config, s, ops[..|ops|]), d.Repr() + {m})
  {
    messages := before;
    ghost var footprint := d.Repr();
    assert vs + [] == vs;
    for i := 0 to |ops|
      invariant HasReached(d, m, AfterAll(d.config, s, ops[..i])) && fresh(d.Repr() - footprint)
      invariant before <= messages && AreIntact(messages, vs + SendsAll(d.config, s, ops[..i]), d.Repr() + {m})
    {
      messages := StepAt(d, m, ops, i, s, messages, vs);
    }
  }

  function Initially(startTime: Time): Snapshot {
    Snapshot(INITIAL, Pending(startTime, []), true)
  }

  method Start(config: Config, startTime: Time) returns (d: EventDispatcher.Dispatcher, m: DiagnosticsManager)
    ensures HasReached(d, m, Initially(startTime)) && d.config == config
    ensures fresh(d.Repr()) && fresh(m)
  {
    d := new EventDispatcher.Dispatcher(config);
    m := new DiagnosticsManager(startTime);
    assert IsAt(d, m, Initially(startTime));
  }

  /** From the start: a new dispatcher and manager. */
  method RunFromStart(config: Config, startTime: Time, ops: seq<Operation>)
      returns (d: EventDispatcher.Dispatcher, m: DiagnosticsManager, ghost messages: seq<Message>)
    ensures HasReached(d, m, AfterAll(config, Initially(startTime), ops)) && d.config == config
    ensures fresh(d.Repr()) && fresh(m)
    ensures AreIntact(messages, SendsAll(config, Initially(startTime), ops), d.Repr() + {m})
  {
    d, m := Start(config, startTime);
    messages := RunFrom(d, m, ops, Initially(startTime), [], []);
    assert ops[..|ops|] == ops;
    ghost var vs := SendsAll(config, Initially(startTime), ops);
    assert [] + vs == vs;
  }
}
