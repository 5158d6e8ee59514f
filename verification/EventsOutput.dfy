/** The data of one analytics payload: its events and its summary event, written as one JSON array. What is
    walked are the maps and cells on the heap that the summarizer has left to the payload. */
module EventsOutput {
  import opened Wrappers
  import opened Json
  import opened JsonReading
  import opened Events
  import opened Summaries
  import opened OutboxSpec
  import opened Summarizer
  import opened EventsOutbox
  import opened SummaryJson

  /** Writes one more property of the object begun before t. */
  method WriteField(w: Writer, name: string, v: Json, ghost start: seq<Token>, ghost props: map<string, Json>, ghost t: seq<Token>)
      returns (ghost u: seq<Token>)
    requires w.tokens == start + t && EncodesFields(props, t) && name !in props
    modifies w
    ensures w.tokens == start + u && EncodesFields(props[name := v], u)
  {
    w.Put(Name(name));
    ghost var written := w.WriteValue(v);
    AppendField(props, t, name, v, written);
    u := t + ([Name(name)] + written);
  }

  method WriteCounter(w: Writer, k: CounterKey, c: Counter) returns (ghost written: seq<Token>)
    modifies w
    ensures w.tokens == old(w.tokens) + written && Encodes(Obj(CounterFields(k, c)), written)
  {
    w.Put(BeginObj);
    ghost var start := w.tokens;
    ghost var t: seq<Token> := [];
    if k.variation.Some? {
      t := WriteField(w, "variation", Num(k.variation.value as real), start, map[], t);
    }
    t := WriteField(w, VersionField(k).0, VersionField(k).1, start, VariationFields(k), t);
    ghost var props := VariationFields(k)[VersionField(k).0 := VersionField(k).1];
    assert "value" !in props && "count" !in props["value" := c.value];
    t := WriteField(w, "value", c.value, start, props, t);
    t := WriteField(w, "count", Num(c.count as real), start, props["value" := c.value], t);
    w.Put(EndObj);
    WrapObject(CounterFields(k, c), t);
    written := [BeginObj] + t + [EndObj];
  }

  lemma ListsOneMore<T(!new)>(keys: seq<T>, all: set<T>, rest: set<T>, k: T)
    requires Lists(keys, all - rest) && rest <= all && k in rest
    ensures Lists(keys + [k], all - (rest - {k}))
  {
    assert k !in keys;
  }

  method WriteCounters(w: Writer, counters: CounterMap) returns (ghost j: Json, ghost written: seq<Token>)
    requires counters.Valid()
    modifies w
    ensures w.tokens == old(w.tokens) + written && Encodes(j, written) && IsCounters(j, counters.contents)
  {
    ghost var contents := counters.contents;
    w.Put(BeginArr);
    ghost var keys: seq<CounterKey>, body: seq<Token> := [], [];
    var rest := counters.cells.Keys;
    assert rest == contents.Keys;
    while rest != {}
      invariant rest <= contents.Keys && Lists(keys, contents.Keys - rest)
      invariant w.tokens == old(w.tokens) + ([BeginArr] + body)
      invariant EncodesItems(CounterItems(contents, keys), body)
      decreases rest
    {
      var k :| k in rest;
      var cell := counters.cells[k];
      ghost var u := WriteCounter(w, k, Counter(cell.count, cell.value));
      CountersStep(contents, keys, rest, body, k, u);
      keys, body, rest := keys + [k], body + u, rest - {k};
    }
    assert contents.Keys - {} == contents.Keys;
    w.Put(EndArr);
    j, written := Arr(CounterItems(contents, keys)), [BeginArr] + body + [EndArr];
    WrapArray(CounterItems(contents, keys), body);
  }

  lemma CountersStep(contents: map<CounterKey, Counter>, keys: seq<CounterKey>, rest: set<CounterKey>, body: seq<Token>,
                     k: CounterKey, u: seq<Token>)
    requires rest <= contents.Keys && Lists(keys, contents.Keys - rest) && k in rest
    requires EncodesItems(CounterItems(contents, keys), body) && Encodes(Obj(CounterFields(k, contents[k])), u)
    ensures Lists(keys + [k], contents.Keys - (rest - {k}))
    ensures EncodesItems(CounterItems(contents, keys + [k]), body + u)
  {
    ListsOneMore(keys, contents.Keys, rest, k);
    AppendItem(CounterItems(contents, keys), body, Obj(CounterFields(k, contents[k])), u);
    assert CounterItems(contents, keys + [k]) == CounterItems(contents, keys) + [Obj(CounterFields(k, contents[k]))];
  }

  method WriteKinds(w: Writer, kinds: set<string>) returns (ghost j: Json, ghost written: seq<Token>)
    modifies w
    ensures w.tokens == old(w.tokens) + written && Encodes(j, written) && IsKinds(j, kinds)
  {
    w.Put(BeginArr);
    ghost var texts: seq<string>, body: seq<Token> := [], [];
    var rest := kinds;
    while rest != {}
      invariant rest <= kinds && Lists(texts, kinds - rest)
      invariant w.tokens == old(w.tokens) + ([BeginArr] + body)
      invariant EncodesItems(Strings(texts), body)
      decreases rest
    {
      var k :| k in rest;
      w.Put(Prim(Str(k)));
      ListsOneMore(texts, kinds, rest, k);
      AppendItem(Strings(texts), body, Str(k), [Prim(Str(k))]);
      assert Strings(texts + [k]) == Strings(texts) + [Str(k)];
      texts, body, rest := texts + [k], body + [Prim(Str(k))], rest - {k};
    }
    assert kinds - {} == kinds;
    w.Put(EndArr);
    j, written := Arr(Strings(texts)), [BeginArr] + body + [EndArr];
    WrapArray(Strings(texts), body);
  }

  method WriteFlag(w: Writer, e: FlagEntry, ghost flag: string, ghost f: FlagSummary) returns (ghost j: Json, ghost written: seq<Token>)
    requires e.Holds(flag, f)
    modifies w
    ensures w.tokens == old(w.tokens) + written && Encodes(j, written) && IsFlag(j, f)
  {
    w.Put(BeginObj);
    ghost var start := w.tokens;
    ghost var t: seq<Token> := WriteField(w, "default", e.default, start, map[], []);
    ghost var counters, kinds;
    counters, t := WriteCountersField(w, e.counters, start, map["default" := e.default], t);
    kinds, t := WriteKindsField(w, e.kinds.kinds, start, map["default" := e.default]["counters" := counters], t);
    w.Put(EndObj);
    ghost var props := map["default" := e.default]["counters" := counters]["contextKinds" := kinds];
    WrapObject(props, t);
    j, written := Obj(props), [BeginObj] + t + [EndObj];
  }

  method WriteCountersField(w: Writer, counters: CounterMap, ghost start: seq<Token>, ghost props: map<string, Json>, ghost t: seq<Token>)
      returns (ghost j: Json, ghost u: seq<Token>)
    requires counters.Valid()
    requires w.tokens == start + t && EncodesFields(props, t) && "counters" !in props
    modifies w
    ensures w.tokens == start + u && EncodesFields(props["counters" := j], u) && IsCounters(j, counters.contents)
  {
    w.Put(Name("counters"));
    ghost var written;
    j, written := WriteCounters(w, counters);
    AppendField(props, t, "counters", j, written);
    u := t + ([Name("counters")] + written);
  }

  method WriteKindsField(w: Writer, kinds: set<string>, ghost start: seq<Token>, ghost props: map<string, Json>, ghost t: seq<Token>)
      returns (ghost j: Json, ghost u: seq<Token>)
    requires w.tokens == start + t && EncodesFields(props, t) && "contextKinds" !in props
    modifies w
    ensures w.tokens == start + u && EncodesFields(props["contextKinds" := j], u) && IsKinds(j, kinds)
  {
    w.Put(Name("contextKinds"));
    ghost var written;
    j, written := WriteKinds(w, kinds);
    AppendField(props, t, "contextKinds", j, written);
    u := t + ([Name("contextKinds")] + written);
  }

  /** What has been written of the features when the flags in rest are still to come. */
  ghost predicate FeaturesProgress(features: map<string, Json>, flags: map<string, FlagSummary>, rest: set<string>, body: seq<Token>) {
    IsFeatures(features, flags - rest) && EncodesFields(features, body)
  }

  lemma FeaturesStep(features: map<string, Json>, flags: map<string, FlagSummary>, rest: set<string>, body: seq<Token>,
                     k: string, j: Json, u: seq<Token>)
    requires k in rest && k in flags && FeaturesProgress(features, flags, rest, body)
    requires IsFlag(j, flags[k]) && Encodes(j, u)
    ensures FeaturesProgress(features[k := j], flags, rest - {k}, body + ([Name(k)] + u))
  {
    AppendField(features, body, k, j, u);
    var done := flags - (rest - {k});
    forall f | f in done ensures IsFlagAt(features[k := j], done, f) {
      assert f != k ==> IsFlagAt(features, flags - rest, f);
    }
  }

  lemma FeaturesStart(flags: map<string, FlagSummary>)
    ensures FeaturesProgress(map[], flags, flags.Keys, [])
  {
    assert flags - flags.Keys == map[];
  }

  lemma FeaturesEnd(features: map<string, Json>, flags: map<string, FlagSummary>, body: seq<Token>)
    requires FeaturesProgress(features, flags, {}, body)
    ensures IsFeatures(features, flags) && Encodes(Obj(features), [BeginObj] + body + [EndObj])
  {
    assert flags - {} == flags;
    WrapObject(features, body);
  }

  method WriteFeature(w: Writer, flags: FlagMap, k: string, ghost contents: map<string, FlagSummary>,
                      ghost features: map<string, Json>, ghost rest: set<string>, ghost body: seq<Token>)
      returns (ghost j: Json, ghost u: seq<Token>)
    requires flags.Valid() && flags.contents == contents && k in flags.entries && k in rest
    requires FeaturesProgress(features, contents, rest, body)
    modifies w
    ensures w.tokens == old(w.tokens) + ([Name(k)] + u)
    ensures FeaturesProgress(features[k := j], contents, rest - {k}, body + ([Name(k)] + u))
  {
    assert flags.Represents(contents);
    var entry := flags.entries[k];
    w.Put(Name(k));
    j, u := WriteFlag(w, entry, k, contents[k]);
    FeaturesStep(features, contents, rest, body, k, j, u);
  }

  method WriteFeatures(w: Writer, flags: FlagMap) returns (ghost features: map<string, Json>, ghost written: seq<Token>)
    requires flags.Valid() && w as object !in flags.Repr
    modifies w
    ensures w.tokens == old(w.tokens) + written && Encodes(Obj(features), written) && IsFeatures(features, flags.contents)
  {
    w.Put(BeginObj);
    ghost var body;
    features, body := WriteAllFeatures(w, flags);
    w.Put(EndObj);
    FeaturesEnd(features, flags.contents, body);
    written := [BeginObj] + body + [EndObj];
  }

  method WriteAllFeatures(w: Writer, flags: FlagMap) returns (ghost features: map<string, Json>, ghost body: seq<Token>)
    requires flags.Valid() && w as object !in flags.Repr
    modifies w
    ensures w.tokens == old(w.tokens) + body && FeaturesProgress(features, flags.contents, {}, body)
  {
    ghost var contents := flags.contents;
    features, body := map[], [];
    var rest := flags.entries.Keys;
    FeaturesStart(contents);
    assert rest == contents.Keys;
    while rest != {}
      invariant rest <= flags.entries.Keys
      invariant FeaturesProgress(features, contents, rest, body)
      invariant w.tokens == old(w.tokens) + body
      decreases rest
    {
      var k :| k in rest;
      ghost var j, u := WriteFeature(w, flags, k, contents, features, rest, body);
      features, body, rest := features[k := j], body + ([Name(k)] + u), rest - {k};
    }
  }

  function SummaryHead(s: Summary): map<string, Json> {
    map["kind" := Str("summary"), "startDate" := Num(s.startDate as real), "endDate" := Num(s.endDate as real)]
  }

  method WriteSummaryHead(w: Writer, startDate: Time, endDate: Time, ghost start: seq<Token>) returns (ghost t: seq<Token>)
    requires w.tokens == start
    modifies w
    ensures w.tokens == start + t
    ensures EncodesFields(SummaryHead(Summary(map[], startDate, endDate)), t)
  {
    t := WriteField(w, "kind", Str("summary"), start, map[], []);
    ghost var props := map["kind" := Str("summary")];
    t := WriteField(w, "startDate", Num(startDate as real), start, props, t);
    props := props["startDate" := Num(startDate as real)];
    t := WriteField(w, "endDate", Num(endDate as real), start, props, t);
  }

  lemma SummaryEnd(s: Summary, t: seq<Token>, features: map<string, Json>, u: seq<Token>)
    requires EncodesFields(SummaryHead(s), t) && IsFeatures(features, s.flags) && Encodes(Obj(features), u)
    ensures var j := Obj(SummaryHead(s)["features" := Obj(features)]);
      IsSummary(j, s) && Encodes(j, [BeginObj] + (t + ([Name("features")] + u)) + [EndObj])
  {
    AppendField(SummaryHead(s), t, "features", Obj(features), u);
    WrapObject(SummaryHead(s)["features" := Obj(features)], t + ([Name("features")] + u));
  }

  /** writeSummaryEvent. */
  method WriteSummaryEvent(w: Writer, snapshot: SharedSummary) returns (ghost j: Json, ghost written: seq<Token>)
    requires snapshot.flags.Valid() && w as object !in snapshot.flags.Repr
    modifies w
    ensures w.tokens == old(w.tokens) + written && Encodes(j, written) && IsSummary(j, SummaryValue(snapshot))
  {
    w.Put(BeginObj);
    ghost var t := WriteSummaryHead(w, snapshot.startDate, snapshot.endDate, w.tokens);
    w.Put(Name("features"));
    ghost var features, u := WriteFeatures(w, snapshot.flags);
    w.Put(EndObj);
    SummaryEnd(SummaryValue(snapshot), t, features, u);
    j := Obj(SummaryHead(SummaryValue(snapshot))["features" := Obj(features)]);
    written := [BeginObj] + (t + ([Name("features")] + u)) + [EndObj];
  }

  function EventItems(outputOf: Output -> Json, events: seq<Output>): seq<Json> {
    seq(|events|, i requires 0 <= i < |events| => outputOf(events[i]))
  }

  /** The item for the summary, if it has counters. */
  ghost predicate IsSummaryPart(items: seq<Json>, summary: Summary) {
    if HasCounters(summary) then |items| == 1 && IsSummary(items[0], summary) else items == []
  }

  lemma CountOfParts(p: Payload, last: seq<Json>)
    requires p.Analytics? && IsSummaryPart(last, p.summary)
    ensures EventCount(p) == |p.events| + |last|
  {
  }

  /** makeOutputEvents. The form of single events is not part of this model: outputOf gives it. */
  method MakeOutputEvents(outputOf: Output -> Json, p: PayloadRef) returns (data: Option<seq<Token>>, n: nat, ghost last: seq<Json>)
    requires p.Valid()
    ensures n == EventCount(p.Value())
    ensures data.Some? <==> n > 0
    ensures IsSummaryPart(last, p.Value().summary)
    ensures data.Some? ==> Reads(Arr(EventItems(outputOf, p.Value().events) + last), data.value)
  {
    var w := new Writer();
    n, last := WritePayload(w, outputOf, p, p.Value());
    data := if n > 0 then Some(w.tokens) else None;
  }

  /** The array, for a payload with contents v. */
  method WritePayload(w: Writer, outputOf: Output -> Json, p: PayloadRef, ghost v: Payload) returns (n: nat, ghost last: seq<Json>)
    requires p.Valid() && w as object !in p.Repr() && v == p.Value() && w.tokens == []
    modifies w
    ensures n == EventCount(v) && IsSummaryPart(last, v.summary)
    ensures n > 0 ==> Reads(Arr(EventItems(outputOf, v.events) + last), w.tokens)
  {
    w.Put(BeginArr);
    ghost var body;
    n, last, body := WriteItems(w, outputOf, p, v);
    if n > 0 {
      w.Put(EndArr);
      assert w.tokens == [BeginArr] + body + [EndArr];
    }
  }

  /** Its items. */
  method WriteItems(w: Writer, outputOf: Output -> Json, p: PayloadRef, ghost v: Payload)
      returns (n: nat, ghost last: seq<Json>, ghost body: seq<Token>)
    requires p.Valid() && w as object !in p.Repr() && v == p.Value()
    modifies w
    ensures w.tokens == old(w.tokens) + body
    ensures n == EventCount(v) && IsSummaryPart(last, v.summary)
    ensures Reads(Arr(EventItems(outputOf, v.events) + last), [BeginArr] + body + [EndArr])
  {
    ghost var items := EventItems(outputOf, v.events);
    n, body := 0, [];
    if p.events != null {
      n := p.events.Length;
      body := WriteEvents(w, outputOf, p.events);
    } else {
      ReadsEncodedItems(items, body);
    }
    ghost var u;
    var more;
    more, last, u := WriteSummaryPart(w, p.summary);
    ReadsMoreItems(items, body, last, u);
    CountOfParts(v, last);
    n, body := n + more, body + u;
    ReadsArray(items + last, body);
  }

  /** The last of them. */
  method WriteSummaryPart(w: Writer, summary: SharedSummary) returns (n: nat, ghost last: seq<Json>, ghost u: seq<Token>)
    requires summary.flags.Valid() && w as object !in summary.flags.Repr
    modifies w
    ensures w.tokens == old(w.tokens) + u
    ensures n == |last| && IsSummaryPart(last, SummaryValue(summary)) && ReadsItems(last, u)
  {
    n, last, u := 0, [], [];
    var counters := SharedHasCounters(summary);
    if counters {
      ghost var j;
      j, u := WriteSummaryEvent(w, summary);
      AppendItem([], [], j, u);
      n, last := 1, [] + [j];
      assert [] + u == u;
    }
    ReadsEncodedItems(last, u);
  }

  /** The others. */
  method WriteEvents(w: Writer, outputOf: Output -> Json, events: Slots) returns (ghost body: seq<Token>)
    requires AllFull(events[..])
    modifies w
    ensures w.tokens == old(w.tokens) + body
    ensures ReadsItems(EventItems(outputOf, EventsIn(events[..])), body)
  {
    ghost var items := EventItems(outputOf, EventsIn(events[..]));
    body := [];
    for i := 0 to events.Length
      invariant w.tokens == old(w.tokens) + body && EncodesItems(items[..i], body)
    {
      assert events[..][i] == events[i];
      ghost var u := w.WriteValue(outputOf(events[i].value));
      AppendNext(items, i, body, u);
      body := body + u;
    }
    assert items[..|items|] == items;
    ReadsEncodedItems(items, body);
  }

  /** The items of the array, one by one: each event in its place, and then the summary if it has any flag. */
  lemma ItemsInOutput(outputOf: Output -> Json, p: Payload, last: seq<Json>)
    requires p.Analytics? && IsSummaryPart(last, p.summary)
    ensures var items := EventItems(outputOf, p.events) + last;
      && |items| == |p.events| + (if p.summary.flags.Keys == {} then 0 else 1)
      && EventCount(p) == |items|
      && (forall i :: 0 <= i < |p.events| ==> items[i] == outputOf(p.events[i]))
      && (p.summary.flags.Keys != {} ==> IsSummary(items[|p.events|], p.summary))
  {
    CountOfParts(p, last);
  }

  /** A reader of the data finds the summary in its last item. */
  lemma SummaryInOutput(events: seq<Json>, last: seq<Json>, summary: Summary)
    requires IsSummaryPart(last, summary) && HasCounters(summary)
    ensures DecodeSummary((events + last)[|events|]) == summary
  {
    DecodeIsSummary(last[0], summary);
  }
}
