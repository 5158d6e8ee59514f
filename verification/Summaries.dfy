/** Summaries of flag evaluations as values: what summarizing a sequence of evaluations means. */
module Summaries {
  import opened Wrappers
  import opened Json
  import opened Events

  datatype CounterKey = CounterKey(variation: Option<int>, version: Option<int>)
  datatype Counter = Counter(count: nat, value: Json)
  datatype FlagSummary = FlagSummary(counters: map<CounterKey, Counter>, kinds: set<string>, default: Json)
  datatype Summary = Summary(flags: map<string, FlagSummary>, startDate: Time, endDate: Time)

  const EMPTY := Summary(map[], 0, 0)

  predicate HasCounters(s: Summary) {
    s.flags.Keys != {}
  }

  function KeyOf(e: Evaluation): CounterKey {
    CounterKey(e.variation, e.version)
  }

  function KindsOf(c: Context): set<string> {
    set i | 0 <= i < |c.kinds| && c.kinds[i].Some? :: c.kinds[i].value
  }

  function Get<K, V>(m: map<K, V>, k: K): Option<V> {
    if k in m then Some(m[k]) else None
  }

  function Counted(c: Option<Counter>, e: Evaluation): Counter {
    match c
    case None => Counter(1, e.value)
    case Some(c) => Counter(c.count + 1, c.value)
  }

  function FlagBefore(f: Option<FlagSummary>, e: Evaluation): FlagSummary {
    if f.Some? then f.value else FlagSummary(map[], {}, e.default)
  }

  function WithCount(f: FlagSummary, e: Evaluation): FlagSummary {
    f.(counters := f.counters[KeyOf(e) := Counted(Get(f.counters, KeyOf(e)), e)])
  }

  function WithKinds(f: FlagSummary, e: Evaluation): FlagSummary {
    f.(kinds := f.kinds + KindsOf(e.context))
  }

  function WithEvaluation(f: Option<FlagSummary>, e: Evaluation): FlagSummary {
    WithKinds(WithCount(FlagBefore(f, e), e), e)
  }

  function Summarized(s: Summary, e: Evaluation): Summary {
    Summary(
      s.flags[e.flagKey := WithEvaluation(Get(s.flags, e.flagKey), e)],
      if s.startDate == 0 || e.creationDate < s.startDate then e.creationDate else s.startDate,
      if e.creationDate > s.endDate then e.creationDate else s.endDate)
  }

  function SummaryOf(evals: seq<Evaluation>): Summary {
    if evals == [] then EMPTY
    else Summarized(SummaryOf(evals[..|evals| - 1]), evals[|evals| - 1])
  }

  lemma SummaryOfAppend(evals: seq<Evaluation>, e: Evaluation)
    ensures SummaryOf(evals + [e]) == Summarized(SummaryOf(evals), e)
  {
    assert (evals + [e])[..|evals|] == evals;
  }

  // ---------- What each part of a summary says about the evaluations ----------

  /** The evaluations of one flag. */
  function OfFlag(evals: seq<Evaluation>, flag: string): seq<Evaluation> {
    if evals == [] then []
    else
      var e := evals[|evals| - 1];
      OfFlag(evals[..|evals| - 1], flag) + if e.flagKey == flag then [e] else []
  }

  /** The evaluations of one flag that gave one variation in one version of it. */
  function OfCounter(evals: seq<Evaluation>, flag: string, key: CounterKey): seq<Evaluation> {
    if evals == [] then []
    else
      var e := evals[|evals| - 1];
      OfCounter(evals[..|evals| - 1], flag, key)
      + if e.flagKey == flag && e.variation == key.variation && e.version == key.version then [e] else []
  }

  /** The kinds of all individual contexts that are defined. */
  function KindsSeen(evals: seq<Evaluation>): set<string> {
    set i, j | 0 <= i < |evals| && 0 <= j < |evals[i].context.kinds| && evals[i].context.kinds[j].Some? ::
      evals[i].context.kinds[j].value
  }

  lemma KindsSeenAppend(evals: seq<Evaluation>, e: Evaluation)
    ensures KindsSeen(evals + [e]) == KindsSeen(evals) + KindsOf(e.context)
  {
    var all := evals + [e];
    assert all[|evals|] == e && forall i :: 0 <= i < |evals| ==> all[i] == evals[i];
    forall k | k in KindsSeen(evals) + KindsOf(e.context) ensures k in KindsSeen(all) {
      if k in KindsOf(e.context) {
        var j :| 0 <= j < |e.context.kinds| && e.context.kinds[j] == Some(k);
        assert all[|evals|].context.kinds[j] == Some(k);
      } else {
        var i, j :| 0 <= i < |evals| && 0 <= j < |evals[i].context.kinds| && evals[i].context.kinds[j] == Some(k);
        assert all[i].context.kinds[j] == Some(k);
      }
    }
    forall k | k in KindsSeen(all) ensures k in KindsSeen(evals) + KindsOf(e.context) {
      var i, j :| 0 <= i < |all| && 0 <= j < |all[i].context.kinds| && all[i].context.kinds[j] == Some(k);
      if i == |evals| {
        assert e.context.kinds[j] == Some(k);
      } else {
        assert evals[i].context.kinds[j] == Some(k);
      }
    }
  }

  lemma FlagAfterEvaluation(front: seq<Evaluation>, e: Evaluation)
    ensures var before, f := Get(SummaryOf(front).flags, e.flagKey), Get(SummaryOf(front + [e]).flags, e.flagKey);
      && f.Some?
      && f.value.default == (if before.Some? then before.value.default else e.default)
      && f.value.kinds == (if before.Some? then before.value.kinds else {}) + KindsOf(e.context)
    ensures forall flag :: flag != e.flagKey ==> Get(SummaryOf(front + [e]).flags, flag) == Get(SummaryOf(front).flags, flag)
  {
    SummaryOfAppend(front, e);
  }

  lemma {:induction false} FlagsAreExact(evals: seq<Evaluation>, flag: string)
    ensures flag in SummaryOf(evals).flags <==> OfFlag(evals, flag) != []
    ensures flag in SummaryOf(evals).flags ==>
      var f := SummaryOf(evals).flags[flag];
      && f.default == OfFlag(evals, flag)[0].default
      && f.kinds == KindsSeen(OfFlag(evals, flag))
  {
    if evals != [] {
      var front, e := evals[..|evals| - 1], evals[|evals| - 1];
      FlagsAreExact(front, flag);
      FlagAfterEvaluation(front, e);
      assert evals == front + [e];
      if e.flagKey == flag {
        KindsSeenAppend(OfFlag(front, flag), e);
        assert OfFlag(evals, flag) == OfFlag(front, flag) + [e];
        assert OfFlag(front, flag) == [] ==> KindsSeen(OfFlag(front, flag)) == {};
      } else {
        assert Get(SummaryOf(evals).flags, flag) == Get(SummaryOf(front).flags, flag);
        assert OfFlag(evals, flag) == OfFlag(front, flag);
      }
    }
  }

  lemma {:induction false} CountersAreExact(evals: seq<Evaluation>, flag: string, key: CounterKey)
    ensures (flag in SummaryOf(evals).flags && key in SummaryOf(evals).flags[flag].counters)
       <==> OfCounter(evals, flag, key) != []
    ensures OfCounter(evals, flag, key) != [] ==>
      && SummaryOf(evals).flags[flag].counters[key]
         == Counter(|OfCounter(evals, flag, key)|, OfCounter(evals, flag, key)[0].value)
  {
    if evals != [] {
      CountersAreExact(evals[..|evals| - 1], flag, key);
    }
  }

  /** The evaluations after the last zero-dated one: a zero date makes the summarizer forget its start date. */
  function SinceZeroDate(evals: seq<Evaluation>): seq<Evaluation> {
    if evals == [] then []
    else
      var e := evals[|evals| - 1];
      if e.creationDate == 0 then [] else SinceZeroDate(evals[..|evals| - 1]) + [e]
  }

  lemma {:induction false} StartDateIsExact(evals: seq<Evaluation>)
    ensures var recent := SinceZeroDate(evals);
      if recent == [] then SummaryOf(evals).startDate == 0
      else
        && (forall e :: e in recent ==> 0 < SummaryOf(evals).startDate <= e.creationDate)
        && (exists e :: e in recent && e.creationDate == SummaryOf(evals).startDate)
  {
    if evals != [] {
      var front, e := evals[..|evals| - 1], evals[|evals| - 1];
      StartDateIsExact(front);
      if e.creationDate != 0 {
        var before, recent := SinceZeroDate(front), SinceZeroDate(evals);
        assert recent == before + [e] && e in recent;
        assert forall x :: x in recent <==> x in before || x == e;
      }
    }
  }

  lemma {:induction false} EndDateIsExact(evals: seq<Evaluation>)
    ensures forall e :: e in evals ==> e.creationDate <= SummaryOf(evals).endDate
    ensures if evals == [] then SummaryOf(evals).endDate == 0
            else exists e :: e in evals && e.creationDate == SummaryOf(evals).endDate
  {
    if evals != [] {
      var front, e := evals[..|evals| - 1], evals[|evals| - 1];
      EndDateIsExact(front);
      assert evals == front + [e] && e in evals;
      assert forall x :: x in evals <==> x in front || x == e;
    }
  }

  // ---------- Summaries of consecutive stretches of evaluations compose ----------

  function MergeCounters(a: map<CounterKey, Counter>, b: map<CounterKey, Counter>): map<CounterKey, Counter> {
    map k | k in a.Keys + b.Keys ::
      if k !in a then b[k]
      else if k !in b then a[k]
      else Counter(a[k].count + b[k].count, a[k].value)
  }

  function MergeFlag(a: FlagSummary, b: FlagSummary): FlagSummary {
    FlagSummary(MergeCounters(a.counters, b.counters), a.kinds + b.kinds, a.default)
  }

  function MergeFlags(a: map<string, FlagSummary>, b: map<string, FlagSummary>): map<string, FlagSummary> {
    map f | f in a.Keys + b.Keys ::
      if f !in a then b[f]
      else if f !in b then a[f]
      else MergeFlag(a[f], b[f])
  }

  function EarlierSet(a: Time, b: Time): Time {
    if a == 0 then b else if b == 0 then a else if a < b then a else b
  }

  function Later(a: Time, b: Time): Time {
    if a < b then b else a
  }

  predicate HasZeroDate(evals: seq<Evaluation>) {
    exists i :: 0 <= i < |evals| && evals[i].creationDate == 0
  }

  lemma MergeCountersStep(a: map<CounterKey, Counter>, b: map<CounterKey, Counter>, e: Evaluation)
    ensures MergeCounters(a, b[KeyOf(e) := Counted(Get(b, KeyOf(e)), e)])
         == MergeCounters(a, b)[KeyOf(e) := Counted(Get(MergeCounters(a, b), KeyOf(e)), e)]
  {
  }

  lemma MergeFlagStep(a: FlagSummary, b: Option<FlagSummary>, e: Evaluation)
    ensures MergeFlag(a, WithEvaluation(b, e))
         == WithEvaluation(Some(if b.Some? then MergeFlag(a, b.value) else a), e)
  {
    var counters := if b.Some? then b.value.counters else map[];
    MergeCountersStep(a.counters, counters, e);
    assert MergeCounters(a.counters, map[]) == a.counters;
    var kinds := if b.Some? then b.value.kinds else {};
    assert a.kinds + (kinds + KindsOf(e.context)) == (a.kinds + kinds) + KindsOf(e.context);
  }

  lemma MergeFlagsStep(a: map<string, FlagSummary>, b: map<string, FlagSummary>, e: Evaluation)
    ensures MergeFlags(a, b[e.flagKey := WithEvaluation(Get(b, e.flagKey), e)])
         == MergeFlags(a, b)[e.flagKey := WithEvaluation(Get(MergeFlags(a, b), e.flagKey), e)]
  {
    if e.flagKey in a {
      MergeFlagStep(a[e.flagKey], Get(b, e.flagKey), e);
    }
  }

  lemma ZeroDateStep(front: seq<Evaluation>, e: Evaluation)
    ensures HasZeroDate(front + [e]) <==> HasZeroDate(front) || e.creationDate == 0
  {
    assert (front + [e])[|front|] == e;
    assert forall i :: 0 <= i < |front| ==> (front + [e])[i] == front[i];
  }

  lemma FlagsOfAppend(evals: seq<Evaluation>, e: Evaluation)
    ensures SummaryOf(evals + [e]).flags
         == SummaryOf(evals).flags[e.flagKey := WithEvaluation(Get(SummaryOf(evals).flags, e.flagKey), e)]
  {
    SummaryOfAppend(evals, e);
  }

  lemma FlagsComposeWithNone(xs: seq<Evaluation>)
    ensures SummaryOf(xs + []).flags == MergeFlags(SummaryOf(xs).flags, SummaryOf([]).flags)
  {
    assert xs + [] == xs;
    assert MergeFlags(SummaryOf(xs).flags, map[]) == SummaryOf(xs).flags;
  }

  lemma {:induction false} FlagsCompose(xs: seq<Evaluation>, ys: seq<Evaluation>)
    ensures SummaryOf(xs + ys).flags == MergeFlags(SummaryOf(xs).flags, SummaryOf(ys).flags)
  {
    if ys == [] {
      FlagsComposeWithNone(xs);
    } else {
      FlagsCompose(xs, ys[..|ys| - 1]);
      FlagsComposeStep(xs, ys[..|ys| - 1], ys[|ys| - 1]);
      assert ys[..|ys| - 1] + [ys[|ys| - 1]] == ys;
    }
  }

  lemma FlagsComposeStep(xs: seq<Evaluation>, front: seq<Evaluation>, e: Evaluation)
    requires SummaryOf(xs + front).flags == MergeFlags(SummaryOf(xs).flags, SummaryOf(front).flags)
    ensures SummaryOf(xs + (front + [e])).flags == MergeFlags(SummaryOf(xs).flags, SummaryOf(front + [e]).flags)
  {
    FlagsOfAppend(front, e);
    FlagsOfAppend(xs + front, e);
    MergeFlagsStep(SummaryOf(xs).flags, SummaryOf(front).flags, e);
    assert xs + (front + [e]) == (xs + front) + [e];
  }

  lemma {:induction false} EndDatesCompose(xs: seq<Evaluation>, ys: seq<Evaluation>)
    ensures SummaryOf(xs + ys).endDate == Later(SummaryOf(xs).endDate, SummaryOf(ys).endDate)
  {
    if ys == [] {
      assert xs + ys == xs;
    } else {
      EndDatesCompose(xs, ys[..|ys| - 1]);
      assert (xs + ys)[..|xs + ys| - 1] == xs + ys[..|ys| - 1];
    }
  }

  lemma {:induction false} StartDatesCompose(xs: seq<Evaluation>, ys: seq<Evaluation>)
    ensures SummaryOf(xs + ys).startDate
         == if HasZeroDate(ys) then SummaryOf(ys).startDate
            else EarlierSet(SummaryOf(xs).startDate, SummaryOf(ys).startDate)
  {
    if ys == [] {
      assert xs + ys == xs;
    } else {
      var front, e := ys[..|ys| - 1], ys[|ys| - 1];
      StartDatesCompose(xs, front);
      assert (xs + ys)[..|xs + ys| - 1] == xs + front;
      assert ys == front + [e];
      ZeroDateStep(front, e);
    }
  }

  /** Counters, kinds, defaults and end dates of two stretches always merge; the start date is the
      earlier one that is set, unless the second stretch has a zero date, which wipes out the first. */
  function Merge(a: Summary, b: Summary, bHasZeroDate: bool): Summary {
    Summary(
      MergeFlags(a.flags, b.flags),
      if bHasZeroDate then b.startDate else EarlierSet(a.startDate, b.startDate),
      Later(a.endDate, b.endDate))
  }

  lemma SummariesCompose(xs: seq<Evaluation>, ys: seq<Evaluation>)
    ensures SummaryOf(xs + ys) == Merge(SummaryOf(xs), SummaryOf(ys), HasZeroDate(ys))
  {
    FlagsCompose(xs, ys);
    StartDatesCompose(xs, ys);
    EndDatesCompose(xs, ys);
  }

  /** The earlier of the two start dates that are set is the start date of both stretches unless the
      second one has a zero date and the first one started earlier, or the second is left with none. */
  lemma EarlierStartDateIff(xs: seq<Evaluation>, ys: seq<Evaluation>)
    ensures var a, b := SummaryOf(xs).startDate, SummaryOf(ys).startDate;
      SummaryOf(xs + ys).startDate == EarlierSet(a, b) <==> !HasZeroDate(ys) || a == 0 || 0 < b <= a
  {
    StartDatesCompose(xs, ys);
  }

  /** A single zero-dated evaluation makes the summarizer forget the start date. */
  lemma ZeroDateForgetsStartDate(e: Evaluation)
    ensures SummaryOf([e.(creationDate := 5)]).startDate == 5
    ensures SummaryOf([e.(creationDate := 5), e.(creationDate := 0)]).startDate == 0
  {
    var x, y := e.(creationDate := 5), e.(creationDate := 0);
    SummaryOfAppend([], x);
    SummaryOfAppend([x], y);
    assert [] + [x] == [x] && [x] + [y] == [x, y];
  }
}
