/** The least-recently-used cache of context keys. */
module LruCache {
  import opened Wrappers
  import opened LinkedList
  import opened Recency

  /** The elements hold the given values in order, without duplicates, and the map sends each
      value to exactly its own element. */
  ghost predicate Matches<T>(elems: seq<Element<T>>, values: map<T, Element<T>>, held: seq<T>) {
    && |elems| == |held|
    && Distinct(held)
    && (forall i :: 0 <= i < |held| ==> elems[i].value == Some(held[i]))
    && (forall i :: 0 <= i < |held| ==> held[i] in values && values[held[i]] == elems[i])
    && (forall v :: v in values ==> v in held)
  }

  lemma MatchesAfterInsert<T>(elems: seq<Element<T>>, values: map<T, Element<T>>, held: seq<T>, e: Element<T>)
    requires Matches(elems, values, held) && e.value.Some? && e.value.value !in values
    ensures Matches([e] + elems, values[e.value.value := e], [e.value.value] + held)
  {
    DistinctWithFront(e.value.value, held);
    forall i | 0 <= i < |held| + 1 ensures ([e] + elems)[i].value == Some(([e.value.value] + held)[i]) {
      assert i > 0 ==> elems[i - 1].value == Some(held[i - 1]);
    }
  }

  lemma MatchesAfterEviction<T>(elems: seq<Element<T>>, values: map<T, Element<T>>, held: seq<T>)
    requires Matches(elems, values, held) && held != []
    ensures elems[|held| - 1].value == Some(held[|held| - 1])
    ensures Matches(elems[..|held| - 1], values - {held[|held| - 1]}, held[..|held| - 1])
  {
  }

  /** The element at a place of the new order: the old number i comes first. */
  lemma PromotedAt<T>(s: seq<T>, i: nat, k: nat)
    requires i < |s| && k < |s|
    ensures ([s[i]] + (s[..i] + s[i + 1..]))[k] == s[if k == 0 then i else if k <= i then k - 1 else k]
  {
  }

  ghost predicate MatchesAt<T>(elems: seq<Element<T>>, values: map<T, Element<T>>, held: seq<T>, k: nat)
    requires k < |elems| == |held|
  {
    elems[k].value == Some(held[k]) && held[k] in values && values[held[k]] == elems[k]
  }

  lemma PromotedMatch<T>(elems: seq<Element<T>>, values: map<T, Element<T>>, held: seq<T>, i: nat, k: nat)
    requires Matches(elems, values, held) && i < |held| && k < |held|
    ensures MatchesAt([elems[i]] + (elems[..i] + elems[i + 1..]), values, [held[i]] + (held[..i] + held[i + 1..]), k)
  {
    PromotedAt(elems, i, k);
    PromotedAt(held, i, k);
  }

  lemma MatchesAll<T>(elems: seq<Element<T>>, values: map<T, Element<T>>, held: seq<T>)
    requires |elems| == |held| && Distinct(held)
    requires forall k {:trigger MatchesAt(elems, values, held, k)} :: 0 <= k < |held| ==> MatchesAt(elems, values, held, k)
    requires forall v :: v in values ==> v in held
    ensures Matches(elems, values, held)
  {
    forall k | 0 <= k < |held| ensures elems[k].value == Some(held[k]) && held[k] in values && values[held[k]] == elems[k] {
      assert MatchesAt(elems, values, held, k);
    }
  }

  lemma MatchesAfterPromotion<T>(elems: seq<Element<T>>, values: map<T, Element<T>>, held: seq<T>, i: nat)
    requires Matches(elems, values, held) && i < |held|
    ensures values[held[i]] == elems[i]
    ensures Matches([elems[i]] + (elems[..i] + elems[i + 1..]), values, [held[i]] + Without(held, held[i]))
  {
    var elems', held' := [elems[i]] + (elems[..i] + elems[i + 1..]), [held[i]] + (held[..i] + held[i + 1..]);
    PromotedHeld(held, i);
    forall k | 0 <= k < |held'| ensures MatchesAt(elems', values, held', k) {
      PromotedMatch(elems, values, held, i, k);
    }
    MatchesAll(elems', values, held');
  }

  lemma PromotedHeld<T>(held: seq<T>, i: nat)
    requires Distinct(held) && i < |held|
    ensures [held[i]] + Without(held, held[i]) == [held[i]] + (held[..i] + held[i + 1..])
    ensures Distinct([held[i]] + (held[..i] + held[i + 1..]))
    ensures forall v :: v in held ==> v in [held[i]] + (held[..i] + held[i + 1..])
  {
    WithoutPresent(held, held[i], i);
    WithoutKeepsTheRest(held, held[i]);
    DistinctWithFront(held[i], Without(held, held[i]));
  }

  lemma MatchingSize<T>(elems: seq<Element<T>>, values: map<T, Element<T>>, held: seq<T>)
    requires Matches(elems, values, held)
    ensures |values| == |held|
  {
    DistinctCardinality(held);
    assert values.Keys == Recency.Elements(held);
  }

  class Cache<T(==)> {
    var values: map<T, Element<T>>
    const lruList: List<T>
    const capacity: nat
    /** The values added since the cache was created or last cleared. */
    ghost var history: seq<T>

    ghost function Repr(): set<object>
      reads this, lruList
    {
      {this} + lruList.Repr
    }

    /** The values held, most recently used first. */
    ghost function Held(): seq<T>
      reads this
    {
      Contents(capacity, history)
    }

    /** Represents(Held()), in a form that the verifier looks into only where Represents is mentioned. */
    ghost predicate Valid()
      reads this, lruList, Repr()
    {
      && this as object !in lruList.Repr && lruList as object in lruList.Repr
      && forall held {:trigger Represents(held)} :: held == Held() ==> Represents(held)
    }

    ghost predicate Represents(held: seq<T>)
      reads this, lruList, Repr()
    {
      && this as object !in lruList.Repr
      && lruList.Valid()
      && Matches(lruList.elems, values, held)
      && |held| <= capacity
    }

    constructor (capacity: nat)
      ensures Valid() && fresh(Repr())
      ensures this.capacity == capacity && history == []
    {
      values := map[];
      lruList := new List<T>();
      this.capacity := capacity;
      history := [];
    }

    method Clear()
      requires Valid()
      modifies Repr()
      ensures Valid() && fresh(Repr() - old(Repr()))
      ensures history == []
    {
      assert Represents(Held());
      values := map[];
      lruList.Init();
      history := [];
    }

    /** Stores a value, telling whether it was still there. */
    method Add(value: T) returns (seen: bool)
      requires Valid()
      modifies Repr()
      ensures Valid() && fresh(Repr() - old(Repr()))
      ensures history == old(history) + [value]
      ensures seen <==> value in old(Held())
      ensures seen <==> value in old(history) && |AddedSince(old(history), value)| < capacity
    {
      InCacheIff(capacity, history, value);
      ContentsAfterAddition(capacity, history, value);
      seen := Store(value, Held());
      history := history + [value];
    }

    method Store(value: T, ghost held: seq<T>) returns (seen: bool)
      requires Represents(held) && (capacity == 0 ==> held == [])
      modifies Repr()
      ensures Represents(Added(capacity, held, value))
      ensures history == old(history) && fresh(Repr() - old(Repr()))
      ensures seen <==> value in held
    {
      if capacity == 0 {
        return false;
      }
      seen := value in values;
      if seen {
        Promote(value, held);
      } else {
        AddNew(value, held);
      }
    }

    method AddNew(value: T, ghost held: seq<T>)
      requires Represents(held) && value !in values && capacity > 0
      modifies Repr()
      ensures Represents([value] + Take(held, capacity - 1))
      ensures history == old(history) && fresh(Repr() - old(Repr()))
    {
      MakeRoom(value, held);
      Insert(value, Take(held, capacity - 1));
    }

    /** The eviction loop. */
    method MakeRoom(ghost value: T, ghost held: seq<T>)
      requires Represents(held) && value !in values && capacity > 0
      modifies Repr()
      ensures Represents(Take(held, capacity - 1)) && value !in values
      ensures history == old(history) && fresh(Repr() - old(Repr()))
    {
      ghost var kept := held;
      MatchingSize(lruList.elems, values, kept);
      while |values| >= capacity
        invariant Represents(kept) && |values| == |kept| && value !in values
        invariant kept == if |values| >= capacity then held else Take(held, capacity - 1)
        invariant history == old(history) && fresh(Repr() - old(Repr()))
        decreases |kept|
      {
        EvictOne(held, value);
        kept := Take(held, capacity - 1);
      }
    }

    method Promote(value: T, ghost held: seq<T>)
      requires Represents(held) && value in values
      modifies Repr()
      ensures Represents([value] + Without(held, value))
      ensures history == old(history) && fresh(Repr() - old(Repr()))
    {
      ghost var i :| 0 <= i < |held| && held[i] == value;
      MatchesAfterPromotion(lruList.elems, values, held, i);
      WithoutPresent(held, value, i);
      lruList.MoveToFront(values[value], i);
    }

    method EvictOne(ghost held: seq<T>, ghost value: T)
      requires Represents(held) && value !in values && |held| == capacity > 0
      modifies Repr()
      ensures Represents(Take(held, capacity - 1)) && value !in values
      ensures history == old(history) && fresh(Repr() - old(Repr()))
      ensures |values| == capacity - 1
    {
      DropOldest(held, value);
    }

    /** Evicts the value that has gone unused for longest. */
    method DropOldest(ghost held: seq<T>, ghost value: T)
      requires Represents(held) && held != [] && value !in values
      modifies Repr()
      ensures Represents(held[..|held| - 1])
      ensures history == old(history) && fresh(Repr() - old(Repr()))
      ensures |values| == |held| - 1 && value !in values
    {
      RemoveBack(held, value);
      MatchingSize(lruList.elems, values, held[..|held| - 1]);
    }

    method RemoveBack(ghost held: seq<T>, ghost value: T)
      requires Represents(held) && held != [] && value !in values
      modifies Repr()
      ensures Represents(held[..|held| - 1]) && value !in values
      ensures history == old(history) && Repr() == old(Repr())
    {
      MatchesAfterEviction(lruList.elems, values, held);
      var oldest := lruList.Back();
      values := values - {oldest.value.value};
      lruList.Remove(oldest, |held| - 1);
    }

    method Insert(value: T, ghost held: seq<T>)
      requires Represents(held) && value !in values && |held| < capacity
      modifies Repr()
      ensures Represents([value] + held)
      ensures history == old(history) && fresh(Repr() - old(Repr()))
    {
      var e := lruList.PushFront(value);
      MatchesAfterInsert(lruList.elems[1..], values, held, e);
      values := values[value := e];
    }
  }
}
