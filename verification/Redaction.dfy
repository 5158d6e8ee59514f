/** What redaction means: the simple filter that drops every property whose path is private. */
module Redaction {
  import opened Wrappers
  import opened Json
  import opened PrivateRefs

  /** The references configured for the SDK, and those of the context itself. */
  datatype Privacy = Privacy(global: seq<Ref>, own: seq<Ref>)

  function OwnRef(own: seq<Ref>, p: Path): Option<Ref> {
    if own == [] then None
    else if own[0].components == p then Some(own[0])
    else OwnRef(own[1..], p)
  }

  /** The reference that makes p private, if one does. */
  function PrivateRef(pr: Privacy, p: Path): Option<Ref> {
    if p == [] then None
    else if GlobalRef(pr.global, p).Some? then GlobalRef(pr.global, p)
    else OwnRef(pr.own, p)
  }

  predicate IsPrivate(pr: Privacy, p: Path) {
    PrivateRef(pr, p).Some?
  }

  /** The value at path, without the private properties inside it. */
  function Filter(pr: Privacy, v: Json, path: Path): Json {
    match v
    case Obj(props) =>
      Obj(map k | k in props && !IsPrivate(pr, path + [k]) :: Filter(pr, props[k], path + [k]))
    case _ => v
  }

  /** The value at a path inside v, where only objects have properties. */
  function At(v: Json, q: Path): Option<Json> {
    if q == [] then Some(v)
    else if v.Obj? && q[0] in v.props then At(v.props[q[0]], q[1..])
    else None
  }

  /** p, at or below path, is where something is cut out of the value at path: it is there, it is
      private, and nothing between the two is. */
  ghost predicate CutAt(pr: Privacy, v: Json, path: Path, p: Path) {
    && path <= p
    && At(v, p[|path|..]).Some?
    && IsPrivate(pr, p)
    && forall j :: |path| <= j < |p| ==> !IsPrivate(pr, p[..j])
  }

  lemma {:induction false} OwnRefIs(own: seq<Ref>, p: Path)
    ensures OwnRef(own, p).Some? <==> exists i :: 0 <= i < |own| && own[i].components == p
    ensures OwnRef(own, p).Some? ==> OwnRef(own, p).value in own && OwnRef(own, p).value.components == p
  {
    if own != [] {
      OwnRefIs(own[1..], p);
      assert own == [own[0]] + own[1..];
      if i :| 0 <= i < |own| && own[i].components == p {
        assert i > 0 ==> own[1..][i - 1].components == p;
      }
      if i :| 0 <= i < |own[1..]| && own[1..][i].components == p {
        assert own[i + 1].components == p;
      }
    }
  }

  /** The first of the context's references for p. */
  ghost predicate IsFirstOwn(own: seq<Ref>, p: Path, i: int) {
    0 <= i < |own| && own[i].components == p && forall j :: 0 <= j < i ==> own[j].components != p
  }

  lemma {:induction false} OwnRefIsFirst(own: seq<Ref>, p: Path, i: int)
    requires IsFirstOwn(own, p, i)
    ensures OwnRef(own, p) == Some(own[i])
    decreases i
  {
    if i > 0 {
      assert own[1..][i - 1] == own[i];
      forall j | 0 <= j < i - 1 ensures own[1..][j].components != p {
        assert own[1..][j] == own[j + 1];
      }
      OwnRefIsFirst(own[1..], p, i - 1);
    }
  }

  /** What makes a path private: a configured reference that takes effect, or one of the context itself. */
  lemma PrivateIff(pr: Privacy, p: Path)
    ensures IsPrivate(pr, p) <==>
      p != [] && ((exists i :: IsFirstFor(pr.global, p, i)) || exists i :: 0 <= i < |pr.own| && pr.own[i].components == p)
    ensures IsPrivate(pr, p) <==>
      p != [] && (GlobalRef(pr.global, p).Some? || exists i :: 0 <= i < |pr.own| && pr.own[i].components == p)
  {
    GlobalRefIs(pr.global, p);
    OwnRefIs(pr.own, p);
  }

  /** Which reference it is: the configured one if it takes effect, or else the first of the context's. */
  lemma PrivateRefIs(pr: Privacy, p: Path, i: int)
    requires p != []
    ensures IsFirstFor(pr.global, p, i) ==> PrivateRef(pr, p) == Some(pr.global[i])
    ensures IsFirstOwn(pr.own, p, i) && (forall k :: !IsFirstFor(pr.global, p, k)) ==> PrivateRef(pr, p) == Some(pr.own[i])
  {
    GlobalRefIs(pr.global, p);
    if IsFirstOwn(pr.own, p, i) {
      OwnRefIsFirst(pr.own, p, i);
    }
  }

  // ---------- Writing a whole value unfiltered ----------

  ghost predicate NothingPrivateBelow(pr: Privacy, p: Path) {
    forall q :: StrictPrefix(p, q) ==> !IsPrivate(pr, q)
  }

  lemma PrivateBelowHasReference(pr: Privacy, p: Path, q: Path)
    requires StrictPrefix(p, q) && IsPrivate(pr, q)
    ensures ReferencesBelow(pr.global, p) || ReferencesBelow(pr.own, p)
  {
    OwnRefIs(pr.own, q);
    if GlobalRef(pr.global, q).Some? {
      var i := FirstCoveringIndex(pr.global, q);
      assert StrictPrefix(p, pr.global[i].components);
    }
  }

  lemma NoReferencesNothingPrivate(pr: Privacy, p: Path)
    requires !ReferencesBelow(pr.global, p) && !ReferencesBelow(pr.own, p)
    ensures NothingPrivateBelow(pr, p)
  {
    forall q | StrictPrefix(p, q) ensures !IsPrivate(pr, q) {
      if IsPrivate(pr, q) {
        PrivateBelowHasReference(pr, p, q);
      }
    }
  }

  /** If no reference lies strictly below its path, filtering leaves a value as it is. */
  lemma {:induction false} FilterLeavesAlone(pr: Privacy, v: Json, path: Path)
    requires NothingPrivateBelow(pr, path)
    ensures Filter(pr, v, path) == v
    decreases v
  {
    if v.Obj? {
      forall k | k in v.props
        ensures !IsPrivate(pr, path + [k]) && Filter(pr, v.props[k], path + [k]) == v.props[k]
      {
        assert StrictPrefix(path, path + [k]);
        forall q | StrictPrefix(path + [k], q) ensures !IsPrivate(pr, q) {
          assert StrictPrefix(path, q);
        }
        FilterLeavesAlone(pr, v.props[k], path + [k]);
      }
      assert Filter(pr, v, path).props == v.props;
    }
  }

  // ---------- What is cut out of an object ----------

  /** The cuts made under one property of the object at path. */
  lemma CutsInside(pr: Privacy, v: Json, path: Path, p: Path)
    requires v.Obj? && !IsPrivate(pr, path)
    ensures CutAt(pr, v, path, p) <==>
      |p| > |path| && path <= p && p[|path|] in v.props && CutAt(pr, v.props[p[|path|]], path + [p[|path|]], p)
  {
    if |p| > |path| && path <= p {
      var k := p[|path|];
      assert path + [k] == p[..|path| + 1];
      assert p[|path|..][1..] == p[|path + [k]|..];
      assert p[..|path|] == path;
      if p[|path|] in v.props && CutAt(pr, v.props[k], path + [k], p) {
        forall j | |path| <= j < |p| ensures !IsPrivate(pr, p[..j]) {
        }
      }
    } else if path <= p {
      assert p == path;
    }
  }

  lemma CutsOfPrivate(pr: Privacy, v: Json, path: Path, p: Path)
    requires IsPrivate(pr, path)
    ensures CutAt(pr, v, path, p) <==> p == path
  {
    if path <= p && p != path {
      assert p[..|path|] == path;
    }
    if p == path {
      assert p[|path|..] == [];
    }
  }

  lemma CutsOfLeaf(pr: Privacy, v: Json, path: Path, p: Path)
    requires !IsPrivate(pr, path) && !v.Obj?
    ensures !CutAt(pr, v, path, p)
  {
    if path <= p {
      assert p[|path|..] == [] ==> p == path;
    }
  }

  lemma NoCutsBelow(pr: Privacy, v: Json, path: Path, p: Path)
    requires !IsPrivate(pr, path) && NothingPrivateBelow(pr, path)
    ensures !CutAt(pr, v, path, p)
  {
    if path <= p {
      assert p != path ==> StrictPrefix(path, p);
    }
  }

  // ---------- What the filter keeps, path by path ----------

  ghost predicate SomePrefixPrivate(pr: Privacy, path: Path, q: Path) {
    exists j :: 0 < j <= |q| && IsPrivate(pr, path + q[..j])
  }

  lemma SomePrefixPrivateStep(pr: Privacy, path: Path, q: Path)
    requires q != []
    ensures SomePrefixPrivate(pr, path, q) <==>
      IsPrivate(pr, path + [q[0]]) || SomePrefixPrivate(pr, path + [q[0]], q[1..])
  {
    var rest, inner := q[1..], path + [q[0]];
    assert q[..1] == [q[0]];
    forall j | 0 < j <= |rest| ensures inner + rest[..j] == path + q[..j + 1] {
    }
    if j :| 0 < j <= |rest| && IsPrivate(pr, inner + rest[..j]) {
      assert IsPrivate(pr, path + q[..j + 1]);
    }
    if j :| 0 < j <= |q| && IsPrivate(pr, path + q[..j]) {
      if j > 1 {
        assert IsPrivate(pr, inner + rest[..j - 1]);
      }
    }
    if IsPrivate(pr, path + [q[0]]) {
      assert IsPrivate(pr, path + q[..1]);
    }
  }

  /** The output has exactly those paths of the input of which no prefix is private. */
  lemma {:induction false} FilterAt(pr: Privacy, v: Json, path: Path, q: Path)
    ensures At(Filter(pr, v, path), q)
         == if SomePrefixPrivate(pr, path, q) || At(v, q) == None then None
            else Some(Filter(pr, At(v, q).value, path + q))
    decreases |q|
  {
    if q == [] {
      assert path + q == path;
    } else {
      SomePrefixPrivateStep(pr, path, q);
      if v.Obj? && q[0] in v.props {
        FilterAt(pr, v.props[q[0]], path + [q[0]], q[1..]);
        assert path + [q[0]] + q[1..] == path + q;
      }
    }
  }

  /** No private path of the input is in the output, and the output has nothing that the input lacks. */
  lemma NothingPrivateSurvives(pr: Privacy, v: Json, q: Path)
    ensures IsPrivate(pr, q) ==> At(Filter(pr, v, []), q) == None
    ensures At(Filter(pr, v, []), q).Some? ==> At(v, q).Some?
  {
    FilterAt(pr, v, [], q);
    if IsPrivate(pr, q) {
      assert q[..|q|] == q && [] + q == q;
    }
  }

  /** Every reference of the context is honoured, and every configured one that takes effect. */
  lemma ReferencesAreHonoured(pr: Privacy, v: Json, i: nat)
    ensures i < |pr.own| && pr.own[i].components != [] ==> At(Filter(pr, v, []), pr.own[i].components) == None
    ensures i < |pr.global| && pr.global[i].components != [] && IsFirstFor(pr.global, pr.global[i].components, i) ==>
      At(Filter(pr, v, []), pr.global[i].components) == None
  {
    if i < |pr.own| {
      PrivateIff(pr, pr.own[i].components);
      NothingPrivateSurvives(pr, v, pr.own[i].components);
    }
    if i < |pr.global| {
      PrivateIff(pr, pr.global[i].components);
      NothingPrivateSurvives(pr, v, pr.global[i].components);
    }
  }

  /** No reference is for this path. */
  ghost predicate NotReferredTo(pr: Privacy, p: Path) {
    && (forall i :: 0 <= i < |pr.global| ==> pr.global[i].components != p)
    && (forall i :: 0 <= i < |pr.own| ==> pr.own[i].components != p)
  }

  /** Nothing else is taken out: a value that is not an object stays if no reference is for its path or a prefix of it. */
  lemma OthersStay(pr: Privacy, v: Json, q: Path)
    requires At(v, q).Some? && !At(v, q).value.Obj?
    requires forall j :: 0 < j <= |q| ==> NotReferredTo(pr, q[..j])
    ensures At(Filter(pr, v, []), q) == At(v, q)
  {
    FilterAt(pr, v, [], q);
    assert [] + q == q;
    forall j | 0 < j <= |q| ensures !IsPrivate(pr, [] + q[..j]) {
      assert [] + q[..j] == q[..j] && NotReferredTo(pr, q[..j]);
      PrivateIff(pr, q[..j]);
    }
  }

  /** The shortest private prefix of a path. */
  lemma {:induction false} FirstPrivatePrefix(pr: Privacy, q: Path, n: nat) returns (j: nat)
    requires n <= |q| && exists i :: 0 < i <= n && IsPrivate(pr, q[..i])
    ensures 0 < j <= n && IsPrivate(pr, q[..j]) && forall i :: 0 < i < j ==> !IsPrivate(pr, q[..i])
    decreases n
  {
    if exists i :: 0 < i <= n - 1 && IsPrivate(pr, q[..i]) {
      j := FirstPrivatePrefix(pr, q, n - 1);
    } else {
      j := n;
    }
  }

  lemma {:induction false} AtPrefix(v: Json, q: Path, j: nat)
    requires j <= |q| && At(v, q).Some?
    ensures At(v, q[..j]).Some?
  {
    if j > 0 {
      AtPrefix(v.props[q[0]], q[1..], j - 1);
      assert q[..j][1..] == q[1..][..j - 1];
    }
  }

  /** The cuts made in a whole context. */
  ghost predicate Cut(pr: Privacy, v: Json, p: Path) {
    CutAt(pr, v, [], p)
  }

  /** Every non-object value of the input is either in the output, at the same path and unchanged, and no
      prefix of its path is cut out; or it is not, and exactly one prefix of its path is. */
  lemma EveryLeafKeptOrCut(pr: Privacy, v: Json, q: Path)
    requires At(v, q).Some? && !At(v, q).value.Obj?
    ensures var kept := At(Filter(pr, v, []), q) == At(v, q);
      && (kept || At(Filter(pr, v, []), q) == None)
      && (kept <==> forall j :: 0 <= j <= |q| ==> !Cut(pr, v, q[..j]))
      && (!kept ==> exists j :: 0 <= j <= |q| && Cut(pr, v, q[..j]))
    ensures forall i, j :: 0 <= i <= |q| && 0 <= j <= |q| && Cut(pr, v, q[..i]) && Cut(pr, v, q[..j]) ==> i == j
  {
    FilterAt(pr, v, [], q);
    assert [] + q == q;
    forall j | 0 <= j <= |q| ensures [] + q[..j] == q[..j] {
    }
    if SomePrefixPrivate(pr, [], q) {
      var i :| 0 < i <= |q| && IsPrivate(pr, [] + q[..i]);
      assert IsPrivate(pr, q[..i]);
      var j := FirstPrivatePrefix(pr, q, |q|);
      AtPrefix(v, q, j);
      CutIsFirst(pr, v, q, j);
    } else {
      forall j | 0 <= j <= |q| ensures !Cut(pr, v, q[..j]) {
        assert j > 0 ==> !IsPrivate(pr, [] + q[..j]);
      }
    }
    forall i, j | 0 <= i < j <= |q| && Cut(pr, v, q[..i]) ensures !Cut(pr, v, q[..j]) {
      assert q[..j][..i] == q[..i];
    }
  }

  lemma CutIsFirst(pr: Privacy, v: Json, q: Path, j: nat)
    requires 0 < j <= |q| && At(v, q[..j]).Some? && IsPrivate(pr, q[..j])
    requires forall i :: 0 < i < j ==> !IsPrivate(pr, q[..i])
    ensures Cut(pr, v, q[..j])
  {
    var p := q[..j];
    assert p[0..] == p;
    forall i | 0 <= i < |p| ensures !IsPrivate(pr, p[..i]) {
      assert p[..i] == q[..i];
    }
  }

  /** What is cut out is in the input and not in the output, and no cut lies inside another. */
  lemma CutsAreClean(pr: Privacy, v: Json, p: Path, q: Path)
    requires Cut(pr, v, p)
    ensures At(v, p).Some? && At(Filter(pr, v, []), p) == None
    ensures StrictPrefix(p, q) ==> !Cut(pr, v, q)
  {
    assert p[0..] == p;
    NothingPrivateSurvives(pr, v, p);
    if StrictPrefix(p, q) {
      assert q[..|p|] == p;
    }
  }

  /** An example: with /address/street private to the context, its street is dropped, and nothing else. */
  lemma StreetIsDropped()
    ensures var address := map["street" := Str("1 Main St"), "city" := Str("Oakland")];
      var v := Obj(map["name" := Str("Bob"), "address" := Obj(address)]);
      Filter(Privacy([], [Ref(["address", "street"], "/address/street")]), v, [])
      == Obj(map["name" := Str("Bob"), "address" := Obj(map["city" := Str("Oakland")])])
  {
    var pr := Privacy([], [Ref(["address", "street"], "/address/street")]);
    forall p: Path ensures IsPrivate(pr, p) <==> p == ["address", "street"] {
      PrivateIff(pr, p);
      assert pr.own[0].components == ["address", "street"];
    }
    assert |"street"| == 6 && |"city"| == 4 && |"name"| == 4 && |"address"| == 7;
    var address := Obj(map["street" := Str("1 Main St"), "city" := Str("Oakland")]);
    assert [] + ["address"] == ["address"] && ["address"] + ["street"] == ["address", "street"];
    assert ["address"] + ["city"] != ["address", "street"] by {
      assert (["address"] + ["city"])[1] == "city";
    }
    assert Filter(pr, address, ["address"]).props == map["city" := Str("Oakland")];
    var v := Obj(map["name" := Str("Bob"), "address" := address]);
    assert Filter(pr, v, []).props == map["name" := Str("Bob"), "address" := Obj(map["city" := Str("Oakland")])] by {
      assert [] + ["name"] == ["name"] && |["name"]| == 1 && |["address"]| == 1;
    }
  }
}
