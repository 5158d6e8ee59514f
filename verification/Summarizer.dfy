/** The event summarizer: nested maps of counters that are updated in place, and that a snapshot shares. */
module Summarizer {
  import opened Wrappers
  import opened Json
  import opened Events
  import opened Summaries

  /** A counter; it belongs to one map of counters. */
  class CounterCell {
    var count: nat
    const value: Json
    ghost const owner: CounterMap
    ghost const key: CounterKey

    constructor (count: nat, value: Json, ghost owner: CounterMap, ghost key: CounterKey)
      ensures this.count == count && this.value == value && this.owner == owner && this.key == key
    {
      this.count, this.value, this.owner, this.key := count, value, owner, key;
    }
  }

  /** The counters of one flag. */
  class CounterMap {
    var cells: map<CounterKey, CounterCell>
    ghost const flag: string
    /** What the cells hold, as a value. */
    ghost var contents: map<CounterKey, Counter>
    ghost var Cells: set<CounterCell>

    ghost predicate Valid()
      reads this, Cells
    {
      && (forall c :: c in Cells ==> c.owner == this)
      && (forall k :: k in cells <==> k in contents)
      && (forall k :: k in cells ==>
            && cells[k] in Cells && cells[k].key == k
            && Counter(cells[k].count, cells[k].value) == contents[k])
    }

    constructor (ghost flag: string)
      ensures Valid() && Cells == {} && contents == map[] && this.flag == flag
    {
      this.flag, cells, contents, Cells := flag, map[], map[], {};
    }

    method Count(e: Evaluation)
      requires Valid()
      modifies this, Cells
      ensures Valid() && Cells >= old(Cells) && fresh(Cells - old(Cells))
      ensures contents == old(contents)[KeyOf(e) := Counted(Get(old(contents), KeyOf(e)), e)]
    {
      var key := KeyOf(e);
      contents := contents[key := Counted(Get(contents, key), e)];
      if key in cells {
        var cell := cells[key];
        cell.count := cell.count + 1;
      } else {
        var cell := new CounterCell(1, e.value, this, key);
        cells := cells[key := cell];
        Cells := Cells + {cell};
      }
    }
  }

  class KindSet {
    var kinds: set<string>
    ghost const flag: string

    constructor (ghost flag: string)
      ensures kinds == {} && this.flag == flag
    {
      this.flag, kinds := flag, {};
    }

    method AddKinds(c: Context)
      modifies this
      ensures kinds == old(kinds) + KindsOf(c)
    {
      for i := 0 to |c.kinds|
        invariant kinds == old(kinds) + KindsOf(Context("", c.kinds[..i]))
      {
        assert c.kinds[..i + 1] == c.kinds[..i] + [c.kinds[i]];
        KindsOfAppend(c.kinds[..i], c.kinds[i]);
        if c.kinds[i].Some? {
          kinds := kinds + {c.kinds[i].value};
        }
      }
      assert c.kinds[..|c.kinds|] == c.kinds;
      assert KindsOf(Context("", c.kinds)) == KindsOf(c);
    }
  }

  /** The value stored for a flag: it refers to maps, so that copies of it share their contents. */
  datatype FlagEntry = FlagEntry(counters: CounterMap, kinds: KindSet, default: Json) {
    ghost predicate Holds(f: string, s: FlagSummary)
      reads counters, counters.Cells, kinds
    {
      && counters.Valid() && counters.flag == f && kinds.flag == f
      && s == FlagSummary(counters.contents, kinds.kinds, default)
    }
  }

  lemma LastUpdateWins<K, V>(m: map<K, V>, k: K, a: V, b: V)
    ensures m[k := a][k := b] == m[k := b]
  {
  }

  class FlagMap {
    var entries: map<string, FlagEntry>
    /** What the maps hold, as a value. */
    ghost var contents: map<string, FlagSummary>
    ghost var Repr: set<object>

    /** Each flag has maps of its own, which hold its part of the contents. The verifier looks into that
        only where Represents is mentioned. */
    ghost predicate Valid()
      reads this, Repr
    {
      && this in Repr && entries.Keys == contents.Keys
      && forall c {:trigger Represents(c)} :: c == contents ==> Represents(c)
    }

    ghost predicate Represents(c: map<string, FlagSummary>)
      reads this, Repr
    {
      && entries.Keys == c.Keys
      && (forall f :: f in entries ==>
            && entries[f].counters in Repr && entries[f].kinds in Repr && entries[f].counters.Cells <= Repr
            && entries[f].Holds(f, c[f]))
    }

    /** The same, except that the entry of one flag has been changed. */
    ghost predicate ValidBut(flag: string)
      reads this, Repr
    {
      && this in Repr && entries.Keys == contents.Keys
      && flag in entries && entries[flag].counters in Repr && entries[flag].kinds in Repr
      && (forall f :: f in entries && f != flag ==>
            && entries[f].counters in Repr && entries[f].kinds in Repr && entries[f].counters.Cells <= Repr
            && entries[f].Holds(f, contents[f]))
    }

    ghost method Adopt(flag: string, s: FlagSummary, more: set<object>)
      requires ValidBut(flag) && entries[flag].counters.Cells <= Repr + more && entries[flag].Holds(flag, s)
      modifies `contents, `Repr
      ensures Valid() && Repr == old(Repr) + more && contents == old(contents)[flag := s]
    {
      ghost var repr, before := Repr, contents;
      Repr, contents := Repr + more, contents[flag := s];
      forall f | f in entries
        ensures entries[f].counters in Repr && entries[f].kinds in Repr && entries[f].counters.Cells <= Repr
        ensures entries[f].Holds(f, contents[f])
      {
        assert f != flag ==> entries[f].counters.Cells <= repr && entries[f].Holds(f, before[f]);
      }
      assert Represents(contents);
    }

    constructor ()
      ensures Valid() && fresh(Repr) && contents == map[]
    {
      entries, contents := map[], map[];
      Repr := {this};
    }

    /** summarizeEvent, up to the dates. */
    method Record(e: Evaluation)
      requires Valid()
      modifies Repr
      ensures Valid() && Repr >= old(Repr) && fresh(Repr - old(Repr))
      ensures contents == old(contents)[e.flagKey := WithEvaluation(Get(old(contents), e.flagKey), e)]
    {
      var flag := EntryFor(e);
      Update(flag, e);
    }

    method Update(flag: FlagEntry, e: Evaluation)
      requires Valid() && e.flagKey in entries && entries[e.flagKey] == flag
      modifies Repr
      ensures Valid() && Repr >= old(Repr) && fresh(Repr - old(Repr))
      ensures contents == old(contents)[e.flagKey := WithKinds(WithCount(old(contents)[e.flagKey], e), e)]
    {
      ghost var before := contents;
      assert Represents(contents);
      CountIn(flag, e);
      ghost var counted := contents[e.flagKey];
      assert Represents(contents);
      AddKindsTo(flag, e);
      LastUpdateWins(before, e.flagKey, counted, contents[e.flagKey]);
    }

    method CountIn(flag: FlagEntry, e: Evaluation)
      requires Valid() && e.flagKey in entries && entries[e.flagKey] == flag
      modifies `contents, `Repr, flag.counters, flag.counters.Cells
      ensures Valid() && Repr >= old(Repr) && fresh(Repr - old(Repr))
      ensures contents == old(contents)[e.flagKey := WithCount(old(contents)[e.flagKey], e)]
    {
      assert Represents(contents);
      ghost var s := WithCount(contents[e.flagKey], e);
      CountOnly(flag, e);
      Adopt(e.flagKey, s, flag.counters.Cells);
    }

    /** The counters of one flag change, and no other entry does. */
    method CountOnly(flag: FlagEntry, e: Evaluation)
      requires Valid() && e.flagKey in entries && entries[e.flagKey] == flag
      modifies flag.counters, flag.counters.Cells
      ensures ValidBut(e.flagKey) && flag.Holds(e.flagKey, WithCount(contents[e.flagKey], e))
      ensures fresh(flag.counters.Cells - old(flag.counters.Cells))
    {
      assert Represents(contents);
      assert flag.Holds(e.flagKey, contents[e.flagKey]);
      flag.counters.Count(e);
      forall f | f in entries && f != e.flagKey ensures entries[f].Holds(f, contents[f]) {
        assert old(entries[f].Holds(f, contents[f]));
      }
    }

    method AddKindsTo(flag: FlagEntry, e: Evaluation)
      requires Valid() && e.flagKey in entries && entries[e.flagKey] == flag
      modifies `contents, `Repr, flag.kinds
      ensures Valid() && Repr == old(Repr)
      ensures contents == old(contents)[e.flagKey := WithKinds(old(contents)[e.flagKey], e)]
    {
      assert Represents(contents);
      ghost var s := WithKinds(contents[e.flagKey], e);
      AddKindsOnly(flag, e);
      Adopt(e.flagKey, s, {});
    }

    method AddKindsOnly(flag: FlagEntry, e: Evaluation)
      requires Valid() && e.flagKey in entries && entries[e.flagKey] == flag
      modifies flag.kinds
      ensures ValidBut(e.flagKey) && flag.Holds(e.flagKey, WithKinds(contents[e.flagKey], e))
      ensures flag.counters.Cells <= Repr
    {
      assert Represents(contents);
      assert flag.Holds(e.flagKey, contents[e.flagKey]);
      flag.kinds.AddKinds(e.context);
    }

    /** The entry of a flag, made with the default of this evaluation if the flag is new. */
    method EntryFor(e: Evaluation) returns (flag: FlagEntry)
      requires Valid()
      modifies this
      ensures Valid() && Repr >= old(Repr) && fresh(Repr - old(Repr))
      ensures e.flagKey in entries && entries[e.flagKey] == flag
      ensures contents == old(contents)[e.flagKey := FlagBefore(Get(old(contents), e.flagKey), e)]
    {
      assert Represents(contents);
      if e.flagKey in entries {
        assert contents == contents[e.flagKey := contents[e.flagKey]];
        return entries[e.flagKey];
      }
      flag := NewEntry(e);
    }

    method NewEntry(e: Evaluation) returns (flag: FlagEntry)
      requires Valid() && e.flagKey !in entries
      modifies this
      ensures Valid() && Repr >= old(Repr) && fresh(Repr - old(Repr))
      ensures e.flagKey in entries && entries[e.flagKey] == flag
      ensures contents == old(contents)[e.flagKey := FlagBefore(None, e)]
    {
      assert Represents(contents);
      var counters := new CounterMap(e.flagKey);
      var kinds := new KindSet(e.flagKey);
      flag := FlagEntry(counters, kinds, e.default);
      ghost var s := FlagBefore(None, e);
      assert flag.Holds(e.flagKey, s);
      entries := entries[e.flagKey := flag];
      Repr := Repr + {counters, kinds};
      contents := contents[e.flagKey := s];
      assert Represents(contents);
    }
  }

  lemma KindsOfAppend(front: seq<Option<string>>, k: Option<string>)
    ensures KindsOf(Context("", front + [k])) == KindsOf(Context("", front)) + if k.Some? then {k.value} else {}
  {
    var all := front + [k];
    assert all[|front|] == k;
    assert forall i :: 0 <= i < |front| ==> all[i] == front[i];
  }

  /** A summary as the summarizer holds it; snapshot hands out a copy, which shares the flag map. */
  datatype SharedSummary = SharedSummary(flags: FlagMap, startDate: Time, endDate: Time)

  ghost function SummaryValue(s: SharedSummary): Summary
    reads s.flags
  {
    Summary(s.flags.contents, s.startDate, s.endDate)
  }

  method SharedHasCounters(s: SharedSummary) returns (b: bool)
    requires s.flags.Valid()
    ensures b <==> HasCounters(SummaryValue(s))
  {
    assert s.flags.Represents(s.flags.contents);
    b := s.flags.entries != map[];
    assert s.flags.entries.Keys == s.flags.contents.Keys;
  }

  class EventSummarizer {
    var state: SharedSummary

    ghost function Repr(): set<object>
      reads this, state.flags
    {
      {this} + state.flags.Repr
    }

    ghost predicate Valid()
      reads this, state.flags, state.flags.Repr
    {
      && this as object !in state.flags.Repr
      && state.flags.Valid()
    }

    ghost function Value(): Summary
      reads this, state.flags
    {
      SummaryValue(state)
    }

    constructor ()
      ensures Valid() && fresh(Repr()) && Value() == EMPTY
    {
      var flags := new FlagMap();
      state := SharedSummary(flags, 0, 0);
    }

    method SummarizeEvent(e: Evaluation)
      requires Valid()
      modifies Repr()
      ensures Valid() && fresh(Repr() - old(Repr())) && state.flags == old(state.flags)
      ensures Value() == Summarized(old(Value()), e)
    {
      state.flags.Record(e);
      if state.startDate == 0 || e.creationDate < state.startDate {
        state := state.(startDate := e.creationDate);
      }
      if e.creationDate > state.endDate {
        state := state.(endDate := e.creationDate);
      }
    }

    method Snapshot() returns (s: SharedSummary)
      requires Valid()
      ensures SummaryValue(s) == Value() && s.flags == state.flags
    {
      s := state;
    }

    /** Starts over with new maps: whatever shares the old ones keeps them. */
    method Reset()
      requires Valid()
      modifies this
      ensures Valid() && fresh(state.flags.Repr) && Value() == EMPTY
    {
      var flags := new FlagMap();
      state := SharedSummary(flags, 0, 0);
    }
  }
}
