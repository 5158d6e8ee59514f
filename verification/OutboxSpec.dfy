/** The outbox and the payloads made from it, as values. */
module OutboxSpec {
  import opened Json
  import opened Events
  import opened Summaries

  datatype Outbox = Outbox(events: seq<Output>, summary: Summary, capacityExceeded: bool, droppedEvents: nat)

  /** What one flush hands to a worker: a diagnostic event, or analytics events with a summary. */
  datatype Payload =
    | Diagnostic(event: Json)
    | Analytics(events: seq<Output>, summary: Summary)

  const EMPTY_OUTBOX := Outbox([], EMPTY, false, 0)

  function WithEvent(capacity: nat, o: Outbox, e: Output): Outbox {
    if |o.events| >= capacity then o.(capacityExceeded := true, droppedEvents := o.droppedEvents + 1)
    else o.(capacityExceeded := false, events := o.events + [e])
  }

  function WithSummarized(o: Outbox, e: Evaluation): Outbox {
    o.(summary := Summarized(o.summary, e))
  }

  function Cleared(o: Outbox): Outbox {
    o.(events := [], summary := EMPTY)
  }

  function PayloadOf(o: Outbox): Payload {
    Analytics(o.events, o.summary)
  }

  /** The number of output events that a payload makes. */
  function EventCount(p: Payload): nat {
    match p
    case Diagnostic(_) => 1
    case Analytics(events, summary) => |events| + if HasCounters(summary) then 1 else 0
  }
}
