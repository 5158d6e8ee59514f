/** Summary events as JSON values: what a summary may look like, and how a reader gets the summary back. */
module SummaryJson {
  import opened Wrappers
  import opened Json
  import opened Summaries
  import opened Events
  import opened Recency

  // ---------- What is written ----------

  function VariationFields(k: CounterKey): map<string, Json> {
    if k.variation.Some? then map["variation" := Num(k.variation.value as real)] else map[]
  }

  function VersionField(k: CounterKey): (string, Json) {
    if k.version.Some? then ("version", Num(k.version.value as real)) else ("unknown", Bool(true))
  }

  function CounterFields(k: CounterKey, c: Counter): map<string, Json> {
    VariationFields(k)[VersionField(k).0 := VersionField(k).1]["value" := c.value]["count" := Num(c.count as real)]
  }

  /** The elements of s, once each, in some order. */
  ghost predicate Lists<T(!new)>(keys: seq<T>, s: set<T>) {
    Distinct(keys) && forall k :: k in keys <==> k in s
  }

  function CounterItems(counters: map<CounterKey, Counter>, keys: seq<CounterKey>): seq<Json>
    requires forall k :: k in keys ==> k in counters
  {
    seq(|keys|, i requires 0 <= i < |keys| => Obj(CounterFields(keys[i], counters[keys[i]])))
  }

  function Strings(texts: seq<string>): seq<Json> {
    seq(|texts|, i requires 0 <= i < |texts| => Str(texts[i]))
  }

  ghost predicate IsCounters(j: Json, counters: map<CounterKey, Counter>) {
    exists keys :: Lists(keys, counters.Keys) && j == Arr(CounterItems(counters, keys))
  }

  ghost predicate IsKinds(j: Json, kinds: set<string>) {
    exists texts :: Lists(texts, kinds) && j == Arr(Strings(texts))
  }

  ghost predicate IsFlag(j: Json, f: FlagSummary) {
    && j.Obj? && j.props.Keys == {"default", "counters", "contextKinds"}
    && j.props["default"] == f.default
    && IsCounters(j.props["counters"], f.counters)
    && IsKinds(j.props["contextKinds"], f.kinds)
  }

  ghost predicate IsFeatures(features: map<string, Json>, flags: map<string, FlagSummary>) {
    features.Keys == flags.Keys && forall k {:trigger IsFlagAt(features, flags, k)} :: k in flags ==> IsFlagAt(features, flags, k)
  }

  ghost predicate IsFlagAt(features: map<string, Json>, flags: map<string, FlagSummary>, k: string)
    requires k in flags
  {
    k in features && IsFlag(features[k], flags[k])
  }

  ghost predicate IsSummary(j: Json, s: Summary) {
    && j.Obj? && j.props.Keys == {"kind", "startDate", "endDate", "features"}
    && j.props["kind"] == Str("summary")
    && j.props["startDate"] == Num(s.startDate as real)
    && j.props["endDate"] == Num(s.endDate as real)
    && j.props["features"].Obj? && IsFeatures(j.props["features"].props, s.flags)
  }

  // ---------- Reading it back ----------

  function Field(j: Json, name: string): Json {
    if j.Obj? && name in j.props then j.props[name] else Null
  }

  function Integer(j: Json): Option<int> {
    if j.Num? && j.n == j.n.Floor as real then Some(j.n.Floor) else None
  }

  function Natural(j: Json): nat {
    match Integer(j)
    case Some(n) => if n < 0 then 0 else n
    case None => 0
  }

  function Items(j: Json): seq<Json> {
    if j.Arr? then j.items else []
  }

  function DecodeCounters(items: seq<Json>): map<CounterKey, Counter> {
    if items == [] then map[]
    else
      var j := items[|items| - 1];
      var key := CounterKey(Integer(Field(j, "variation")),
                            if Field(j, "unknown") == Bool(true) then None else Integer(Field(j, "version")));
      DecodeCounters(items[..|items| - 1])[key := Counter(Natural(Field(j, "count")), Field(j, "value"))]
  }

  function DecodeKinds(items: seq<Json>): set<string> {
    set i | 0 <= i < |items| && items[i].Str? :: items[i].s
  }

  function DecodeFlag(j: Json): FlagSummary {
    FlagSummary(DecodeCounters(Items(Field(j, "counters"))), DecodeKinds(Items(Field(j, "contextKinds"))), Field(j, "default"))
  }

  function DecodeSummary(j: Json): Summary {
    var features := Field(j, "features");
    Summary(
      if features.Obj? then map k | k in features.props :: DecodeFlag(features.props[k]) else map[],
      Natural(Field(j, "startDate")),
      Natural(Field(j, "endDate")))
  }

  lemma {:induction false} DecodeListedCounters(counters: map<CounterKey, Counter>, keys: seq<CounterKey>)
    requires forall k :: k in keys ==> k in counters
    ensures DecodeCounters(CounterItems(counters, keys)) == map k | k in keys :: counters[k]
  {
    if keys != [] {
      var front, k := keys[..|keys| - 1], keys[|keys| - 1];
      assert keys == front + [k];
      DecodeListedCounters(counters, front);
      var items := CounterItems(counters, keys);
      assert items[..|items| - 1] == CounterItems(counters, front);
      DecodeCounter(k, counters[k], items[|items| - 1]);
    }
  }

  lemma DecodeCounter(k: CounterKey, c: Counter, j: Json)
    requires j == Obj(CounterFields(k, c))
    ensures Integer(Field(j, "variation")) == k.variation
    ensures (if Field(j, "unknown") == Bool(true) then None else Integer(Field(j, "version"))) == k.version
    ensures Natural(Field(j, "count")) == c.count && Field(j, "value") == c.value
  {
    assert "variation" != "value";
  }

  lemma DecodeListedKinds(kinds: set<string>, texts: seq<string>)
    requires Lists(texts, kinds)
    ensures DecodeKinds(Strings(texts)) == kinds
  {
    forall k | k in kinds ensures k in DecodeKinds(Strings(texts)) {
      var i :| 0 <= i < |texts| && texts[i] == k;
      assert Strings(texts)[i] == Str(k);
    }
  }

  lemma DecodeIsFlag(j: Json, f: FlagSummary)
    requires IsFlag(j, f)
    ensures DecodeFlag(j) == f
  {
    var keys :| Lists(keys, f.counters.Keys) && j.props["counters"] == Arr(CounterItems(f.counters, keys));
    DecodeListedCounters(f.counters, keys);
    var texts :| Lists(texts, f.kinds) && j.props["contextKinds"] == Arr(Strings(texts));
    DecodeListedKinds(f.kinds, texts);
  }

  /** The summary can be read back from any JSON form that it may be written in. */
  lemma DecodeIsSummary(j: Json, s: Summary)
    requires IsSummary(j, s)
    ensures DecodeSummary(j) == s
  {
    var features := j.props["features"].props;
    forall k | k in s.flags ensures DecodeFlag(features[k]) == s.flags[k] {
      assert IsFlagAt(features, s.flags, k);
      DecodeIsFlag(features[k], s.flags[k]);
    }
    assert DecodeSummary(j).flags == s.flags;
  }

  /** What a reader gets from the tokens of a summary event is the summary itself. */
  lemma SummaryRoundTrip(s: Summary, j: Json, t: seq<Token>, rest: seq<Token>)
    requires IsSummary(j, s) && Encodes(j, t)
    ensures Parse(t + rest).Some? && DecodeSummary(Parse(t + rest).value.0) == s && Parse(t + rest).value.1 == rest
  {
    ParseEncoding(j, t, rest);
    DecodeIsSummary(j, s);
  }

  /** Different summaries never come out as the same tokens. */
  lemma TokensTellSummariesApart(s: Summary, j: Json, s': Summary, j': Json, t: seq<Token>)
    requires IsSummary(j, s) && Encodes(j, t)
    requires IsSummary(j', s') && Encodes(j', t)
    ensures s == s'
  {
    EncodingIsUnambiguous(j, j', t);
    DecodeIsSummary(j, s);
    DecodeIsSummary(j', s');
  }

  // ---------- What a reader of a summary event finds ----------

  /** A counter item says: this variation (or none), this version (or that it is unknown), this value, this often. */
  ghost predicate CounterSays(item: Json, variation: Option<int>, version: Option<int>, count: nat, value: Json) {
    && item.Obj?
    && (if variation.Some? then "variation" in item.props && item.props["variation"] == Num(variation.value as real)
        else "variation" !in item.props)
    && (if version.Some? then "version" in item.props && item.props["version"] == Num(version.value as real) && "unknown" !in item.props
        else "version" !in item.props && "unknown" in item.props && item.props["unknown"] == Bool(true))
    && "value" in item.props && item.props["value"] == value
    && "count" in item.props && item.props["count"] == Num(count as real)
  }

  lemma CounterFieldsSay(k: CounterKey, c: Counter)
    ensures CounterSays(Obj(CounterFields(k, c)), k.variation, k.version, c.count, c.value)
  {
    FieldNamesDiffer();
  }

  lemma FieldNamesDiffer()
    ensures "variation" != "version" && "variation" != "value" && "version" != "value"
    ensures "unknown" != "variation" && "unknown" != "version" && "unknown" != "value" && "unknown" != "count"
    ensures "count" != "variation" && "count" != "version" && "count" != "value"
  {
    assert "variation"[1] != "version"[1] && |"variation"| != |"value"| && |"version"| != |"value"|;
    assert "unknown"[0] != "variation"[0] && "unknown"[0] != "count"[0] && "count"[0] != "variation"[0];
    assert "unknown"[0] == 'u' && "version"[0] == 'v' && "value"[0] == 'v' && "count"[0] == 'c';
  }

  /** The evaluations of one flag with one variation and one version. */
  function Matching(evals: seq<Evaluation>, flag: string, variation: Option<int>, version: Option<int>): seq<Evaluation> {
    if evals == [] then []
    else
      var e := evals[|evals| - 1];
      Matching(evals[..|evals| - 1], flag, variation, version)
      + if e.flagKey == flag && e.variation == variation && e.version == version then [e] else []
  }

  lemma {:induction false} MatchingIsOfCounter(evals: seq<Evaluation>, flag: string, k: CounterKey)
    ensures Matching(evals, flag, k.variation, k.version) == OfCounter(evals, flag, k)
  {
    if evals != [] {
      MatchingIsOfCounter(evals[..|evals| - 1], flag, k);
    }
  }

  /** The counter items of a flag in a summary event. */
  function CounterItemsOf(j: Json, flag: string): seq<Json> {
    Items(Field(Field(Field(j, "features"), flag), "counters"))
  }

  lemma CounterItemsAre(j: Json, s: Summary, flag: string) returns (keys: seq<CounterKey>)
    requires IsSummary(j, s) && flag in s.flags
    ensures Lists(keys, s.flags[flag].counters.Keys)
    ensures CounterItemsOf(j, flag) == CounterItems(s.flags[flag].counters, keys)
  {
    var features := j.props["features"].props;
    assert IsFlagAt(features, s.flags, flag);
    keys :| Lists(keys, s.flags[flag].counters.Keys) && features[flag].props["counters"] == Arr(CounterItems(s.flags[flag].counters, keys));
  }

  /** In the summary event of any evaluations, in whatever order it was written: for each flag, variation and version
      with an evaluation there is an item that counts them and has the value of the first. */
  lemma EveryEvaluationIsCounted(j: Json, evals: seq<Evaluation>, flag: string, variation: Option<int>, version: Option<int>)
    requires IsSummary(j, SummaryOf(evals)) && Matching(evals, flag, variation, version) != []
    ensures var matching := Matching(evals, flag, variation, version);
      exists i :: 0 <= i < |CounterItemsOf(j, flag)|
                  && CounterSays(CounterItemsOf(j, flag)[i], variation, version, |matching|, matching[0].value)
  {
    var s, k := SummaryOf(evals), CounterKey(variation, version);
    MatchingIsOfCounter(evals, flag, k);
    CountersAreExact(evals, flag, k);
    var counters := s.flags[flag].counters;
    var keys := CounterItemsAre(j, s, flag);
    assert k in keys;
    var i :| 0 <= i < |keys| && keys[i] == k;
    CounterFieldsSay(k, counters[k]);
    assert CounterItemsOf(j, flag)[i] == Obj(CounterFields(k, counters[k]));
  }

  /** And there are no other items: each one counts some evaluations, and no two the same ones. */
  lemma NothingElseIsCounted(j: Json, evals: seq<Evaluation>, flag: string, i: nat) returns (variation: Option<int>, version: Option<int>)
    requires IsSummary(j, SummaryOf(evals)) && flag in SummaryOf(evals).flags && i < |CounterItemsOf(j, flag)|
    ensures var matching := Matching(evals, flag, variation, version);
      matching != [] && CounterSays(CounterItemsOf(j, flag)[i], variation, version, |matching|, matching[0].value)
    ensures forall i' :: 0 <= i' < |CounterItemsOf(j, flag)| && i' != i ==> CounterItemsOf(j, flag)[i'] != CounterItemsOf(j, flag)[i]
  {
    var s := SummaryOf(evals);
    var counters := s.flags[flag].counters;
    var keys := CounterItemsAre(j, s, flag);
    var k := keys[i];
    assert k in keys;
    MatchingIsOfCounter(evals, flag, k);
    CountersAreExact(evals, flag, k);
    CounterFieldsSay(k, counters[k]);
    variation, version := k.variation, k.version;
    forall i' | 0 <= i' < |keys| && i' != i ensures CounterItemsOf(j, flag)[i'] != CounterItemsOf(j, flag)[i] {
      assert keys[i'] in keys;
      DecodeCounter(keys[i'], counters[keys[i']], CounterItemsOf(j, flag)[i']);
      DecodeCounter(k, counters[k], CounterItemsOf(j, flag)[i]);
    }
  }

  /** The rest of a summary event: its kind and dates, the flags evaluated, and each flag's default and kinds. */
  lemma SummaryEventSays(j: Json, evals: seq<Evaluation>)
    requires IsSummary(j, SummaryOf(evals))
    ensures j.Obj? && j.props.Keys == {"kind", "startDate", "endDate", "features"} && j.props["features"].Obj?
    ensures j.props["kind"] == Str("summary")
    ensures j.props["startDate"] == Num(SummaryOf(evals).startDate as real)
    ensures j.props["endDate"] == Num(SummaryOf(evals).endDate as real)
    ensures forall flag :: flag in j.props["features"].props <==> OfFlag(evals, flag) != []
    ensures forall flag :: OfFlag(evals, flag) != [] ==> FlagSays(j.props["features"].props[flag], OfFlag(evals, flag))
  {
    var features := j.props["features"].props;
    forall flag ensures flag in features <==> OfFlag(evals, flag) != [] {
      FlagsAreExact(evals, flag);
    }
    forall flag | OfFlag(evals, flag) != [] ensures FlagSays(features[flag], OfFlag(evals, flag)) {
      FlagsAreExact(evals, flag);
      assert IsFlagAt(features, SummaryOf(evals).flags, flag);
      KindsSay(features[flag], SummaryOf(evals).flags[flag]);
    }
  }

  /** A flag has the default of its first evaluation, and lists the kinds of all its contexts, once each. */
  ghost predicate FlagSays(j: Json, evals: seq<Evaluation>)
    requires evals != []
  {
    && j.Obj? && "default" in j.props && j.props["default"] == evals[0].default
    && "contextKinds" in j.props && j.props["contextKinds"].Arr?
    && exists texts :: Lists(texts, KindsSeen(evals)) && j.props["contextKinds"].items == Strings(texts)
  }

  lemma KindsSay(j: Json, f: FlagSummary)
    requires IsFlag(j, f)
    ensures j.props["contextKinds"].Arr?
    ensures exists texts :: Lists(texts, f.kinds) && j.props["contextKinds"].items == Strings(texts)
  {
    var texts :| Lists(texts, f.kinds) && j.props["contextKinds"] == Arr(Strings(texts));
  }
}
