/** The events that go into the dispatcher and those that it puts in its outbox. */
module Events {
  import opened Wrappers
  import opened Json

  /** What the dispatcher looks at in a context: its fully qualified key, and the kinds of its
      individual contexts (None for one that is not defined). */
  datatype Context = Context(key: string, kinds: seq<Option<string>>)

  /** A point in time in milliseconds; 0 also stands for "not set". */
  type Time = nat

  datatype Evaluation = Evaluation(
    creationDate: Time,
    context: Context,
    flagKey: string,
    variation: Option<int>,
    version: Option<int>,
    value: Json,
    default: Json,
    requireFullEvent: bool,
    debugEventsUntilDate: Time,
    excludeFromSummaries: bool,
    debug: bool)

  datatype Input =
    | Evaluated(eval: Evaluation)
    | Identify(creationDate: Time, context: Context)
    | Custom(creationDate: Time, context: Context, data: Json)
    | MigrationOp(data: Json)
    | Raw(data: Json)

  /** An event of the outbox: an input event, or the index event made for a context. */
  datatype Output =
    | Recorded(input: Input)
    | Index(creationDate: Time, context: Context)
}
