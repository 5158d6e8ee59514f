/** What the context-key cache is meant to hold: the most recently added distinct values. */
module Recency {

  ghost predicate Distinct<T>(s: seq<T>) {
    forall i, j :: 0 <= i < j < |s| ==> s[i] != s[j]
  }

  function Take<T>(s: seq<T>, n: nat): seq<T> {
    if |s| <= n then s else s[..n]
  }

  function Without<T(==)>(s: seq<T>, v: T): seq<T> {
    if s == [] then []
    else if s[0] == v then Without(s[1..], v)
    else [s[0]] + Without(s[1..], v)
  }

  /** The distinct values of a history of additions, most recent first. */
  function Recent<T(==)>(history: seq<T>): seq<T> {
    if history == [] then []
    else
      var v := history[|history| - 1];
      [v] + Without(Recent(history[..|history| - 1]), v)
  }

  /** The values added after the latest addition of v. */
  function AddedSince<T(==)>(history: seq<T>, v: T): set<T> {
    if history == [] then {}
    else
      var w := history[|history| - 1];
      if w == v then {} else AddedSince(history[..|history| - 1], v) + {w}
  }

  /** One addition to a cache that holds the given values, most recent first. */
  function Added<T(==)>(capacity: nat, s: seq<T>, v: T): seq<T> {
    if capacity == 0 then s
    else if v in s then [v] + Without(s, v)
    else [v] + Take(s, capacity - 1)
  }

  /** The contents of an initially empty cache after the given additions. */
  function Contents<T(==)>(capacity: nat, history: seq<T>): seq<T> {
    if history == [] then []
    else Added(capacity, Contents(capacity, history[..|history| - 1]), history[|history| - 1])
  }

  lemma ContentsAfterAddition<T>(capacity: nat, history: seq<T>, v: T)
    ensures Contents(capacity, history + [v]) == Added(capacity, Contents(capacity, history), v)
  {
    assert (history + [v])[..|history|] == history;
  }

  lemma {:induction false} WithoutAbsent<T>(s: seq<T>, v: T)
    requires v !in s
    ensures Without(s, v) == s
  {
    if s != [] {
      WithoutAbsent(s[1..], v);
    }
  }

  lemma {:induction false} WithoutPresent<T>(s: seq<T>, v: T, i: nat)
    requires Distinct(s) && i < |s| && s[i] == v
    ensures Without(s, v) == s[..i] + s[i + 1..]
  {
    if i == 0 {
      assert v !in s[1..];
      WithoutAbsent(s[1..], v);
    } else {
      WithoutPresent(s[1..], v, i - 1);
      assert s[..i] == [s[0]] + s[1..][..i - 1];
    }
  }

  lemma DistinctWithFront<T>(x: T, s: seq<T>)
    requires Distinct(s) && x !in s
    ensures Distinct([x] + s)
  {
    var t := [x] + s;
    forall i, j | 0 <= i < j < |t| ensures t[i] != t[j] {
      assert t[j] == s[j - 1];
      assert i > 0 ==> t[i] == s[i - 1];
    }
  }

  lemma {:induction false} WithoutKeepsTheRest<T>(s: seq<T>, v: T)
    ensures forall x :: x in Without(s, v) <==> x in s && x != v
    ensures Distinct(s) ==> Distinct(Without(s, v))
  {
    if s != [] {
      WithoutKeepsTheRest(s[1..], v);
      assert s == [s[0]] + s[1..];
      if s[0] != v && Distinct(s) {
        assert Distinct(s[1..]) && s[0] !in s[1..];
        DistinctWithFront(s[0], Without(s[1..], v));
      }
    }
  }

  lemma {:induction false} RecentIsDistinct<T>(history: seq<T>)
    ensures Distinct(Recent(history))
    ensures forall v :: v in Recent(history) <==> v in history
  {
    if history != [] {
      var v, before := history[|history| - 1], history[..|history| - 1];
      RecentIsDistinct(before);
      WithoutKeepsTheRest(Recent(before), v);
      DistinctWithFront(v, Without(Recent(before), v));
      assert history == before + [v];
    }
  }

  lemma AddedToTheMostRecent<T>(capacity: nat, r: seq<T>, v: T)
    requires Distinct(r)
    ensures Added(capacity, Take(r, capacity), v) == Take([v] + Without(r, v), capacity)
  {
    var s := Take(r, capacity);
    if capacity == 0 {
    } else if v in r {
      var i :| 0 <= i < |r| && r[i] == v;
      WithoutPresent(r, v, i);
      if i < capacity {
        WithoutPresent(s, v, i);
        TakeWithout(capacity, r, i);
      } else {
        assert v !in s;
        assert Take([v] + (r[..i] + r[i + 1..]), capacity) == [v] + r[..capacity - 1];
      }
    } else {
      WithoutAbsent(r, v);
      assert v !in s;
    }
  }

  lemma TakeWithout<T>(capacity: nat, r: seq<T>, i: nat)
    requires i < |r| && i < capacity
    ensures Take([r[i]] + (r[..i] + r[i + 1..]), capacity)
         == [r[i]] + (Take(r, capacity)[..i] + Take(r, capacity)[i + 1..])
  {
  }

  /** The cache holds exactly the first capacity values of the most-recent-first list. */
  lemma {:induction false} ContentsAreTheMostRecent<T>(capacity: nat, history: seq<T>)
    ensures Contents(capacity, history) == Take(Recent(history), capacity)
  {
    if history != [] {
      var before := history[..|history| - 1];
      ContentsAreTheMostRecent(capacity, before);
      RecentIsDistinct(before);
      AddedToTheMostRecent(capacity, Recent(before), history[|history| - 1]);
    }
  }

  /** On the same run a smaller cache holds a prefix of what a larger one holds, so it never hits more often. */
  lemma SmallerCacheHoldsPrefix<T>(small: nat, large: nat, history: seq<T>)
    requires small <= large
    ensures Contents(small, history) <= Contents(large, history)
    ensures forall v :: v in Contents(small, history) ==> v in Contents(large, history)
  {
    ContentsAreTheMostRecent(small, history);
    ContentsAreTheMostRecent(large, history);
  }

  ghost function Elements<T>(s: seq<T>): set<T> {
    set v | v in s
  }

  lemma {:induction false} DistinctCardinality<T>(s: seq<T>)
    requires Distinct(s)
    ensures |Elements(s)| == |s|
  {
    if s != [] {
      var front, v := s[..|s| - 1], s[|s| - 1];
      DistinctCardinality(front);
      assert Elements(s) == Elements(front) + {v};
    }
  }

  /** Taking out one value and putting another in front: where a third value ends up. */
  lemma PositionAfterTouch<T>(r: seq<T>, j: nat, w: T) returns (i: nat)
    requires Distinct(r) && j < |r| && r[j] != w
    ensures i < |Without(r, w)| + 1 && ([w] + Without(r, w))[i] == r[j]
    ensures Elements(([w] + Without(r, w))[..i]) == Elements(r[..j]) + {w}
  {
    if w in r {
      var k :| 0 <= k < |r| && r[k] == w;
      WithoutPresent(r, w, k);
      if k < j {
        i := j;
        assert ([w] + Without(r, w))[..i] == [w] + r[..k] + r[k + 1..j];
        assert r[..j] == r[..k] + [w] + r[k + 1..j];
      } else {
        i := j + 1;
        assert ([w] + Without(r, w))[..i] == [w] + r[..j];
      }
    } else {
      WithoutAbsent(r, w);
      i := j + 1;
      assert ([w] + Without(r, w))[..i] == [w] + r[..j];
    }
  }

  /** In the most-recent-first list, the values in front of v are those added since v was. */
  lemma {:induction false} ValuesInFront<T>(history: seq<T>, v: T) returns (i: nat)
    requires v in history
    ensures i < |Recent(history)| && Recent(history)[i] == v
    ensures Elements(Recent(history)[..i]) == AddedSince(history, v)
  {
    var w, before := history[|history| - 1], history[..|history| - 1];
    if w == v {
      return 0;
    }
    assert history == before + [w];
    var j := ValuesInFront(before, v);
    RecentIsDistinct(before);
    i := PositionAfterTouch(Recent(before), j, w);
  }

  /** A value is in the cache iff it has been added and, since it last was, fewer than
      capacity distinct other values were. */
  lemma InCacheIff<T>(capacity: nat, history: seq<T>, v: T)
    ensures v in Contents(capacity, history) <==> v in history && |AddedSince(history, v)| < capacity
  {
    ContentsAreTheMostRecent(capacity, history);
    RecentIsDistinct(history);
    if v in history {
      var i := ValuesInFront(history, v);
      DistinctCardinality(Recent(history)[..i]);
      assert v in Contents(capacity, history) <==> i < capacity;
    }
  }
}
