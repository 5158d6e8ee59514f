/** References to private attributes, and the lookup trie made from a list of them, as values. */
module PrivateRefs {
  import opened Wrappers

  type Path = seq<string>

  /** An attribute reference: its components, and its text form. A reference that is not valid has no components. */
  datatype Ref = Ref(components: Path, text: string)

  /** A trie as a value: its nodes, each with the reference it carries, if any. The root is at []. */
  type Trie = map<Path, Option<Ref>>

  /** The nodes that a reference adds down to the given depth. Only a new node gets an attribute. */
  function WithPrefixes(t: Trie, r: Ref, n: nat): Trie
    requires n <= |r.components|
  {
    if n == 0 then t
    else
      var before := WithPrefixes(t, r, n - 1);
      var p := r.components[..n];
      if p in before then before
      else before[p := if n == |r.components| then Some(r) else None]
  }

  function TrieOf(refs: seq<Ref>): Trie {
    if refs == [] then map[[] := None]
    else
      var r := refs[|refs| - 1];
      WithPrefixes(TrieOf(refs[..|refs| - 1]), r, |r.components|)
  }

  /** The first listed reference that p is a prefix of. */
  function FirstCovering(refs: seq<Ref>, p: Path): Option<Ref> {
    if refs == [] then None
    else
      var before := FirstCovering(refs[..|refs| - 1], p);
      if before.Some? then before
      else if p <= refs[|refs| - 1].components then Some(refs[|refs| - 1])
      else None
  }

  /** The listed reference that makes p private, if one does. */
  function GlobalRef(refs: seq<Ref>, p: Path): Option<Ref> {
    var first := FirstCovering(refs, p);
    if p != [] && first.Some? && first.value.components == p then first else None
  }

  lemma {:induction false} WithPrefixesIs(t: Trie, r: Ref, n: nat, p: Path)
    requires n <= |r.components|
    ensures p in WithPrefixes(t, r, n) <==> p in t || (p != [] && |p| <= n && p <= r.components)
    ensures p in WithPrefixes(t, r, n) ==>
      WithPrefixes(t, r, n)[p] == if p in t then t[p] else if p == r.components then Some(r) else None
  {
    if n > 0 {
      WithPrefixesIs(t, r, n - 1, p);
      var q := r.components[..n];
      WithPrefixesIs(t, r, n - 1, q);
      if |p| == n && p <= r.components {
        assert p == q;
      }
    }
  }

  /** The trie has a node at p iff some listed reference has p as a prefix; the node carries an attribute
      iff the first such reference is p itself. */
  lemma {:induction false} TrieIsExact(refs: seq<Ref>, p: Path)
    requires p != []
    ensures p in TrieOf(refs) <==> FirstCovering(refs, p).Some?
    ensures p in TrieOf(refs) ==> TrieOf(refs)[p] == GlobalRef(refs, p)
  {
    if refs != [] {
      var front, r := refs[..|refs| - 1], refs[|refs| - 1];
      TrieIsExact(front, p);
      WithPrefixesIs(TrieOf(front), r, |r.components|, p);
    }
  }

  lemma {:induction false} RootIsBare(refs: seq<Ref>)
    ensures [] in TrieOf(refs) && TrieOf(refs)[[]] == None
  {
    if refs != [] {
      var front, r := refs[..|refs| - 1], refs[|refs| - 1];
      RootIsBare(front);
      WithPrefixesIs(TrieOf(front), r, |r.components|, []);
    }
  }

  lemma {:induction false} FirstCoveringCovers(refs: seq<Ref>, p: Path)
    ensures FirstCovering(refs, p).Some? <==> exists i :: 0 <= i < |refs| && p <= refs[i].components
    ensures FirstCovering(refs, p).Some? ==> FirstCovering(refs, p).value in refs && p <= FirstCovering(refs, p).value.components
  {
    if refs != [] {
      var front := refs[..|refs| - 1];
      FirstCoveringCovers(front, p);
      assert refs == front + [refs[|refs| - 1]];
      if i :| 0 <= i < |front| && p <= front[i].components {
        assert p <= refs[i].components;
      }
    }
  }

  ghost predicate HasChildren(t: Trie, p: Path) {
    exists name: string :: p + [name] in t
  }

  /** Every node but the root leads somewhere: it carries an attribute or has children. */
  lemma NoDeadEnds(refs: seq<Ref>, p: Path)
    requires p != [] && p in TrieOf(refs)
    ensures TrieOf(refs)[p].Some? || HasChildren(TrieOf(refs), p)
  {
    TrieIsExact(refs, p);
    FirstCoveringCovers(refs, p);
    var r := FirstCovering(refs, p).value;
    if r.components != p {
      var q := p + [r.components[|p|]];
      assert q <= r.components;
      FirstCoveringCovers(refs, q);
      TrieIsExact(refs, q);
    }
  }

  // ---------- When a reference takes effect ----------

  predicate StrictPrefix(p: Path, q: Path) {
    |p| < |q| && p <= q
  }

  /** A strict extension of a listed path only comes after that path. */
  ghost predicate ShorterFirst(refs: seq<Ref>) {
    forall i, j :: 0 <= j < i < |refs| && refs[i].components != [] && StrictPrefix(refs[i].components, refs[j].components) ==>
      exists k :: 0 <= k < j && refs[k].components == refs[i].components
  }

  lemma {:induction false} FirstCoveringAt(refs: seq<Ref>, p: Path, i: nat)
    requires i < |refs| && p <= refs[i].components
    requires forall j :: 0 <= j < i ==> !(p <= refs[j].components)
    ensures FirstCovering(refs, p) == Some(refs[i])
  {
    var front := refs[..|refs| - 1];
    FirstCoveringCovers(front, p);
    if i < |refs| - 1 {
      FirstCoveringAt(front, p, i);
    }
  }

  lemma FirstCoveringIndex(refs: seq<Ref>, p: Path) returns (i: nat)
    requires FirstCovering(refs, p).Some?
    ensures i < |refs| && p <= refs[i].components && FirstCovering(refs, p) == Some(refs[i])
    ensures forall j :: 0 <= j < i ==> !(p <= refs[j].components)
  {
    if FirstCovering(refs[..|refs| - 1], p).Some? {
      i := FirstCoveringIndex(refs[..|refs| - 1], p);
    } else {
      i := |refs| - 1;
      FirstCoveringCovers(refs[..|refs| - 1], p);
      forall j | 0 <= j < i ensures !(p <= refs[j].components) {
        assert refs[..|refs| - 1][j] == refs[j];
      }
    }
  }

  /** The reference at i is for p, and none before it is for p or an extension of p. */
  ghost predicate IsFirstFor(refs: seq<Ref>, p: Path, i: int) {
    0 <= i < |refs| && refs[i].components == p && forall j :: 0 <= j < i ==> !(p <= refs[j].components)
  }

  /** Which configured reference makes a path private, if one does. */
  lemma GlobalRefIs(refs: seq<Ref>, p: Path)
    ensures GlobalRef(refs, p).Some? <==> p != [] && exists i :: IsFirstFor(refs, p, i)
    ensures forall i :: IsFirstFor(refs, p, i) && p != [] ==> GlobalRef(refs, p) == Some(refs[i])
  {
    forall i | IsFirstFor(refs, p, i) ensures FirstCovering(refs, p) == Some(refs[i]) {
      FirstCoveringAt(refs, p, i);
    }
    if GlobalRef(refs, p).Some? {
      var i := FirstCoveringIndex(refs, p);
      assert IsFirstFor(refs, p, i);
    }
  }

  lemma TakesEffect(refs: seq<Ref>, i: nat)
    requires ShorterFirst(refs) && i < |refs| && refs[i].components != []
    ensures GlobalRef(refs, refs[i].components).Some?
  {
    var p := refs[i].components;
    FirstCoveringCovers(refs, p);
    var j := FirstCoveringIndex(refs, p);
    assert j <= i;
    assert refs[j].components == p;
  }

  /** Every listed reference makes its path private iff none is listed after a strict extension of
      itself without having been listed before that. */
  lemma EveryReferenceTakesEffectIff(refs: seq<Ref>)
    ensures (forall i :: 0 <= i < |refs| && refs[i].components != [] ==> GlobalRef(refs, refs[i].components).Some?)
       <==> ShorterFirst(refs)
  {
    if ShorterFirst(refs) {
      forall i | 0 <= i < |refs| && refs[i].components != [] ensures GlobalRef(refs, refs[i].components).Some? {
        TakesEffect(refs, i);
      }
    } else {
      var i, j :| 0 <= j < i < |refs| && refs[i].components != [] && StrictPrefix(refs[i].components, refs[j].components)
                  && !exists k :: 0 <= k < j && refs[k].components == refs[i].components;
      ExtensionHides(refs, i, j);
    }
  }

  lemma ExtensionHides(refs: seq<Ref>, i: nat, j: nat)
    requires j < i < |refs| && StrictPrefix(refs[i].components, refs[j].components)
    requires forall k :: 0 <= k < j ==> refs[k].components != refs[i].components
    ensures GlobalRef(refs, refs[i].components) == None
  {
    var p := refs[i].components;
    FirstCoveringCovers(refs, p);
    var k := FirstCoveringIndex(refs, p);
    assert k <= j;
  }

  /** In that order, exactly the listed paths are private. */
  lemma ListedPathsArePrivate(refs: seq<Ref>, p: Path)
    requires ShorterFirst(refs) && p != []
    ensures GlobalRef(refs, p).Some? <==> exists i :: 0 <= i < |refs| && refs[i].components == p
  {
    EveryReferenceTakesEffectIff(refs);
    FirstCoveringCovers(refs, p);
    if GlobalRef(refs, p).Some? {
      var i := FirstCoveringIndex(refs, p);
      assert refs[i].components == p;
    }
  }

  /** Listed after one of its own properties, an object attribute is not private. */
  lemma AddressAfterStreetHasNoEffect()
    ensures var refs := [Ref(["address", "street"], "/address/street"), Ref(["address"], "/address")];
      GlobalRef(refs, ["address"]) == None && GlobalRef(refs, ["address", "street"]) == Some(refs[0])
  {
    var refs := [Ref(["address", "street"], "/address/street"), Ref(["address"], "/address")];
    FirstCoveringAt(refs, ["address"], 0);
    FirstCoveringAt(refs, ["address", "street"], 0);
  }

  // ---------- Looking a path up ----------

  /** The lookup loop: at is the node whose children are looked at when component i is. A component
      that is found on a node without children leaves the loop where it was. */
  ghost function Walk(t: Trie, at: Path, path: Path, i: nat): (r: (Option<Ref>, bool))
    requires i <= |path|
    decreases |path| - i
  {
    if i == |path| then (None, false)
    else
      var next := at + [path[i]];
      if next !in t then (None, false)
      else if i == |path| - 1 then (t[next], t[next].None?)
      else if HasChildren(t, next) then Walk(t, next, path, i + 1)
      else Walk(t, at, path, i + 1)
  }

  ghost predicate NoProperPrefixPrivate(refs: seq<Ref>, path: Path) {
    forall j :: 0 < j < |path| ==> GlobalRef(refs, path[..j]).None?
  }

  /** Some listed reference lies strictly below p. */
  ghost predicate ReferencesBelow(refs: seq<Ref>, p: Path) {
    exists i :: 0 <= i < |refs| && StrictPrefix(p, refs[i].components)
  }

  lemma CoveringPrefix(refs: seq<Ref>, p: Path, q: Path)
    requires p <= q
    ensures FirstCovering(refs, q).Some? ==> FirstCovering(refs, p).Some?
  {
    FirstCoveringCovers(refs, p);
    FirstCoveringCovers(refs, q);
    if i :| 0 <= i < |refs| && q <= refs[i].components {
      assert p <= refs[i].components;
    }
  }

  lemma {:induction false} WalkFollowsPath(refs: seq<Ref>, path: Path, i: nat)
    requires path != [] && i < |path| && NoProperPrefixPrivate(refs, path)
    ensures Walk(TrieOf(refs), path[..i], path, i)
         == (GlobalRef(refs, path), FirstCovering(refs, path).Some? && GlobalRef(refs, path).None?)
    decreases |path| - i
  {
    var next := path[..i] + [path[i]];
    assert next == path[..i + 1];
    TrieIsExact(refs, next);
    if i == |path| - 1 {
      assert next == path;
    } else if next in TrieOf(refs) {
      NoDeadEnds(refs, next);
      WalkFollowsPath(refs, path, i + 1);
    } else {
      CoveringPrefix(refs, next, path);
    }
  }

  /** As long as no proper prefix of the path is private, the lookup gives the reference that makes the
      path private, or else tells whether there are references below it. */
  lemma LookupIsExact(refs: seq<Ref>, path: Path)
    requires path != [] && NoProperPrefixPrivate(refs, path)
    ensures Walk(TrieOf(refs), [], path, 0).0 == GlobalRef(refs, path)
    ensures GlobalRef(refs, path).None? ==> (Walk(TrieOf(refs), [], path, 0).1 <==> ReferencesBelow(refs, path))
    ensures GlobalRef(refs, path).Some? ==> !Walk(TrieOf(refs), [], path, 0).1
  {
    WalkFollowsPath(refs, path, 0);
    assert path[..0] == [];
    FirstCoveringCovers(refs, path);
    if GlobalRef(refs, path).None? {
      if FirstCovering(refs, path).Some? {
        var k := FirstCoveringIndex(refs, path);
        assert StrictPrefix(path, refs[k].components);
      }
    }
  }

  /** Below a private attribute the lookup can go wrong: it mistakes /name/email for /email. */
  lemma LookupBelowPrivateAttributeIsWrong()
    ensures var refs := [Ref(["name"], "name"), Ref(["email"], "email")];
      && Walk(TrieOf(refs), [], ["name", "email"], 0).0 == Some(refs[1])
      && GlobalRef(refs, ["name", "email"]) == None
  {
    var refs := [Ref(["name"], "name"), Ref(["email"], "email")];
    var t := TrieOf(refs);
    FirstCoveringAt(refs, ["name"], 0);
    assert |refs[0].components[0]| == 4 && |["email"][0]| == 5;
    FirstCoveringAt(refs, ["email"], 1);
    TrieIsExact(refs, ["name"]);
    TrieIsExact(refs, ["email"]);
    FirstCoveringCovers(refs, ["name", "email"]);
    forall name: string ensures ["name"] + [name] !in t {
      TrieIsExact(refs, ["name"] + [name]);
      FirstCoveringCovers(refs, ["name"] + [name]);
    }
    assert [] + ["name"] == ["name"] && [] + ["email"] == ["email"];
    assert !HasChildren(t, ["name"]);
    assert Walk(t, [], ["name", "email"], 1) == (t[["email"]], t[["email"]].None?);
  }
}
