/** The outbox: a fixed buffer of events beside the summarizer. */
module EventsOutbox {
  import opened Wrappers
  import opened Events
  import opened OutboxSpec
  import opened Summarizer

  type Slots = array<Option<Output>>

  ghost predicate AllFull(slots: seq<Option<Output>>) {
    forall i :: 0 <= i < |slots| ==> slots[i].Some?
  }

  ghost function EventsIn(slots: seq<Option<Output>>): (s: seq<Output>)
    requires AllFull(slots)
  {
    seq(|slots|, i requires 0 <= i < |slots| => slots[i].value)
  }

  /** A payload as it is passed to a worker: its own copy of the events (nil if there are none),
      and the maps of the summary, which it shares with whoever took the snapshot. */
  datatype PayloadRef = PayloadRef(events: array?<Option<Output>>, summary: SharedSummary) {
    ghost function Repr(): set<object>
      reads summary.flags
    {
      summary.flags.Repr + if events == null then {} else {events}
    }

    ghost predicate Valid()
      reads summary.flags, summary.flags.Repr, events
    {
      && summary.flags.Valid()
      && (events != null ==> AllFull(events[..]) && events !in summary.flags.Repr)
    }

    /** What a worker reads from it. */
    ghost function Value(): Payload
      requires Valid()
      reads summary.flags, summary.flags.Repr, events
    {
      Analytics(if events == null then [] else EventsIn(events[..]), SummaryValue(summary))
    }
  }

  /** The number of output events that a payload makes. */
  method CountEvents(p: PayloadRef) returns (total: nat)
    requires p.Valid()
    ensures total == EventCount(p.Value())
  {
    total := if p.events == null then 0 else p.events.Length;
    var counters := SharedHasCounters(p.summary);
    if counters {
      total := total + 1;
    }
  }

  class Outbox {
    const buffer: Slots
    var len: nat
    const summarizer: EventSummarizer
    const capacity: nat
    var capacityExceeded: bool
    var droppedEvents: nat

    ghost function Repr(): set<object>
      reads this, summarizer, summarizer.state.flags
    {
      {this, buffer} + summarizer.Repr()
    }

    ghost predicate Valid()
      reads this, buffer, summarizer, summarizer.state.flags, summarizer.state.flags.Repr
    {
      && len <= buffer.Length == capacity
      && AllFull(buffer[..len])
      && this as object !in summarizer.Repr() && buffer as object !in summarizer.Repr()
      && summarizer.Valid()
    }

    ghost function Value(): OutboxSpec.Outbox
      requires Valid()
      reads this, buffer, summarizer, summarizer.state.flags, summarizer.state.flags.Repr
    {
      OutboxSpec.Outbox(EventsIn(buffer[..len]), summarizer.Value(), capacityExceeded, droppedEvents)
    }

    constructor (capacity: nat)
      ensures Valid() && fresh(Repr()) && this.capacity == capacity
      ensures Value() == EMPTY_OUTBOX
    {
      buffer := new Option<Output>[capacity](i => None);
      len := 0;
      summarizer := new EventSummarizer();
      this.capacity := capacity;
      capacityExceeded := false;
      droppedEvents := 0;
    }

    method AddEvent(e: Output)
      requires Valid()
      modifies this, buffer
      ensures Valid() && Repr() == old(Repr())
      ensures Value() == WithEvent(capacity, old(Value()), e)
    {
      if len >= capacity {
        if !capacityExceeded {
          capacityExceeded := true;
        }
        droppedEvents := droppedEvents + 1;
        return;
      }
      capacityExceeded := false;
      buffer[len] := Some(e);
      len := len + 1;
      assert buffer[..len] == old(buffer[..len]) + [Some(e)];
    }

    method AddToSummary(e: Evaluation)
      requires Valid()
      modifies summarizer.Repr()
      ensures Valid() && fresh(Repr() - old(Repr()))
      ensures Value() == WithSummarized(old(Value()), e)
    {
      summarizer.SummarizeEvent(e);
    }

    method GetPayload() returns (p: PayloadRef)
      requires Valid()
      ensures p.Valid() && p.Value() == PayloadOf(Value())
      ensures p.summary == summarizer.state
      ensures p.events != null ==> fresh(p.events)
      // Clear writes to none of the objects that a worker reads from the payload.
      ensures p.Repr() !! {this, buffer, summarizer}
    {
      var copied: array?<Option<Output>> := null;
      if len > 0 {
        copied := new Option<Output>[len];
        for i := 0 to len
          invariant copied[..i] == buffer[..i]
        {
          copied[i] := buffer[i];
        }
        assert copied[..] == buffer[..len];
      }
      var summary := summarizer.Snapshot();
      p := PayloadRef(copied, summary);
    }

    /** Empties the outbox; nothing it could write before is shared with its summary any more. */
    method Clear()
      requires Valid()
      modifies this, buffer, summarizer
      ensures Valid() && Value() == Cleared(old(Value()))
      ensures fresh(summarizer.state.flags.Repr) && fresh(Repr() - old(Repr()))
    {
      for i := 0 to len
        modifies buffer
      {
        buffer[i] := None;
      }
      len := 0;
      summarizer.Reset();
    }

    /** Whatever the main goroutine then does with the outbox, in any order and any number of
        times, a worker goes on reading the same payload. */
    method RunWhilePayloadIsOut(ops: seq<Operation>, ghost p: PayloadRef)
      requires Valid() && p.Valid() && p.Repr() !! Repr()
      modifies Repr()
      ensures Valid() && p.Valid() && p.Repr() !! Repr() && fresh(Repr() - old(Repr()))
      ensures p.Value() == old(p.Value())
      ensures Value() == AfterOperations(capacity, old(Value()), ops)
    {
      for i := 0 to |ops|
        invariant Valid() && p.Valid() && p.Repr() == old(p.Repr()) && p.Repr() !! Repr()
        invariant fresh(Repr() - old(Repr()))
        invariant p.Value() == old(p.Value())
        invariant Value() == AfterOperations(capacity, old(Value()), ops[..i])
      {
        assert ops[..i + 1][..i] == ops[..i];
        match ops[i]
        case Add(e) => AddEvent(e);
        case Summarize(e) => AddToSummary(e);
        case ClearAll => Clear();
      }
      assert ops[..|ops|] == ops;
    }

    /** The accepted case of triggerFlush: from the moment the outbox is cleared, the payload that
        was made from it shares nothing with it. */
    method Flush() returns (p: PayloadRef)
      requires Valid()
      modifies this, buffer, summarizer
      ensures Valid() && Value() == Cleared(old(Value()))
      ensures p.Valid() && p.Value() == PayloadOf(old(Value()))
      ensures p.Repr() !! Repr() && fresh(Repr() - old(Repr()))
    {
      p := GetPayload();
      Clear();
    }
  }

  datatype Operation = Add(event: Output) | Summarize(eval: Evaluation) | ClearAll

  ghost function AfterOperations(capacity: nat, o: OutboxSpec.Outbox, ops: seq<Operation>): OutboxSpec.Outbox {
    if ops == [] then o
    else
      var before := AfterOperations(capacity, o, ops[..|ops| - 1]);
      match ops[|ops| - 1]
      case Add(e) => WithEvent(capacity, before, e)
      case Summarize(e) => WithSummarized(before, e)
      case ClearAll => Cleared(before)
  }
}
