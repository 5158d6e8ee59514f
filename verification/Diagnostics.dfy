/** The diagnostics manager: what happens between two statistics events. */
module Diagnostics {
  import opened Events
  import opened Json

  datatype StreamInit = StreamInit(timestamp: Time, failed: bool, durationMillis: nat)

  datatype StatsEvent = StatsEvent(
    creationDate: Time,
    dataSinceDate: Time,
    droppedEvents: nat,
    deduplicatedUsers: nat,
    eventsInLastBatch: nat,
    streamInits: seq<StreamInit>)

  /** The manager's state as a value. */
  datatype Pending = Pending(dataSinceTime: Time, streamInits: seq<StreamInit>)

  function Reported(p: Pending, now: Time, dropped: nat, deduplicated: nat, lastBatch: nat): StatsEvent {
    StatsEvent(now, p.dataSinceTime, dropped, deduplicated, lastBatch, p.streamInits)
  }

  /** The event as it is sent, apart from the identity of the SDK instance. */
  function StatsJson(e: StatsEvent): Json {
    Obj(map[
      "kind" := Str("diagnostic"),
      "creationDate" := Num(e.creationDate as real),
      "dataSinceDate" := Num(e.dataSinceDate as real),
      "droppedEvents" := Num(e.droppedEvents as real),
      "deduplicatedUsers" := Num(e.deduplicatedUsers as real),
      "eventsInLastBatch" := Num(e.eventsInLastBatch as real),
      "streamInits" := Arr(seq(|e.streamInits|, i requires 0 <= i < |e.streamInits| => StreamInitJson(e.streamInits[i])))])
  }

  function StreamInitJson(i: StreamInit): Json {
    Obj(map[
      "timestamp" := Num(i.timestamp as real),
      "failed" := Bool(i.failed),
      "durationMillis" := Num(i.durationMillis as real)])
  }

  /** What a reader finds in a statistics event. */
  lemma StatsJsonSays(e: StatsEvent)
    ensures var j := StatsJson(e);
      && j.Obj?
      && j.props.Keys == {"kind", "creationDate", "dataSinceDate", "droppedEvents", "deduplicatedUsers", "eventsInLastBatch", "streamInits"}
      && j.props["kind"] == Str("diagnostic")
      && j.props["creationDate"] == Num(e.creationDate as real) && j.props["dataSinceDate"] == Num(e.dataSinceDate as real)
      && j.props["droppedEvents"] == Num(e.droppedEvents as real)
      && j.props["deduplicatedUsers"] == Num(e.deduplicatedUsers as real)
      && j.props["eventsInLastBatch"] == Num(e.eventsInLastBatch as real)
      && j.props["streamInits"].Arr? && |j.props["streamInits"].items| == |e.streamInits|
      && forall i :: 0 <= i < |e.streamInits| ==> StreamInitSays(j.props["streamInits"].items[i], e.streamInits[i])
  {
    assert |"creationDate"| == 12 && |"dataSinceDate"| == 13 && |"droppedEvents"| == 13 && |"deduplicatedUsers"| == 17;
    assert |"eventsInLastBatch"| == 17 && |"streamInits"| == 11 && |"kind"| == 4;
    assert "dataSinceDate"[1] == 'a' && "droppedEvents"[1] == 'r' && "deduplicatedUsers"[0] == 'd' && "eventsInLastBatch"[0] == 'e';
  }

  predicate StreamInitSays(j: Json, i: StreamInit) {
    && j.Obj? && j.props.Keys == {"timestamp", "failed", "durationMillis"}
    && j.props["timestamp"] == Num(i.timestamp as real) && j.props["failed"] == Bool(i.failed)
    && j.props["durationMillis"] == Num(i.durationMillis as real)
  }

  class DiagnosticsManager {
    const startTime: Time
    var dataSinceTime: Time
    var streamInits: seq<StreamInit>
    /** All statistics events made so far, and all stream inits ever recorded. */
    ghost var made: seq<StatsEvent>
    ghost var recorded: seq<StreamInit>

    ghost function Value(): Pending
      reads this
    {
      Pending(dataSinceTime, streamInits)
    }

    ghost predicate Valid()
      reads this
    {
      && WindowsChain(startTime, made, dataSinceTime)
      && recorded == InitsReported(made) + streamInits
    }

    constructor (startTime: Time)
      ensures Valid() && made == [] && recorded == [] && Value() == Pending(startTime, [])
    {
      this.startTime := startTime;
      dataSinceTime, streamInits, made, recorded := startTime, [], [], [];
    }

    method RecordStreamInit(timestamp: Time, failed: bool, durationMillis: nat)
      requires Valid()
      modifies this
      ensures Valid() && made == old(made)
      ensures recorded == old(recorded) + [StreamInit(timestamp, failed, durationMillis)]
      ensures Value() == old(Value()).(streamInits := old(streamInits) + [StreamInit(timestamp, failed, durationMillis)])
    {
      streamInits := streamInits + [StreamInit(timestamp, failed, durationMillis)];
      recorded := recorded + [StreamInit(timestamp, failed, durationMillis)];
    }

    /** now is the reading of the clock. */
    method CreateStatsEventAndReset(droppedEvents: nat, deduplicatedUsers: nat, eventsInLastBatch: nat, now: Time)
        returns (event: StatsEvent)
      requires Valid()
      modifies this
      ensures Valid() && made == old(made) + [event] && recorded == old(recorded)
      ensures event == Reported(old(Value()), now, droppedEvents, deduplicatedUsers, eventsInLastBatch)
      ensures Value() == Pending(now, [])
    {
      event := StatsEvent(now, dataSinceTime, droppedEvents, deduplicatedUsers, eventsInLastBatch, streamInits);
      streamInits := [];
      dataSinceTime := now;
      assert (made + [event])[..|made|] == made;
      made := made + [event];
    }
  }

  /** Each window starts where the one before it ended, and next is where the next one starts. */
  ghost predicate WindowsChain(start: Time, made: seq<StatsEvent>, next: Time) {
    if made == [] then next == start
    else
      var last := made[|made| - 1];
      last.creationDate == next && WindowsChain(start, made[..|made| - 1], last.dataSinceDate)
  }

  function InitsReported(made: seq<StatsEvent>): seq<StreamInit> {
    if made == [] then [] else InitsReported(made[..|made| - 1]) + made[|made| - 1].streamInits
  }

  lemma {:induction false} ChainedWindows(start: Time, made: seq<StatsEvent>, next: Time, i: nat)
    requires WindowsChain(start, made, next) && i < |made|
    ensures made[i].dataSinceDate == if i == 0 then start else made[i - 1].creationDate
    ensures made[|made| - 1].creationDate == next
  {
    if i < |made| - 1 {
      ChainedWindows(start, made[..|made| - 1], made[|made| - 1].dataSinceDate, i);
    } else if |made| > 1 {
      ChainedWindows(start, made[..|made| - 1], made[|made| - 1].dataSinceDate, i - 1);
    }
  }
}
