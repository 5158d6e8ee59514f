/** Writing contexts with their private attributes left out. */
module ContextFormatter {
  import opened Wrappers
  import opened Json
  import opened PrivateRefs
  import opened PrivateAttrTrie
  import opened Redaction
  import opened Slices
  import opened Recency

  /** A context of one kind. The attributes are the optional ones: kind, key and anonymous are not among them. */
  datatype EventContext = EventContext(kind: string, key: string, anonymous: bool, attributes: map<string, Json>, own: seq<Ref>)

  // ---------- What is to be written ----------

  function Text(pr: Privacy, p: Path): string {
    if IsPrivate(pr, p) then PrivateRef(pr, p).value.text else ""
  }

  /** The references that cut out the given paths. */
  function Texts(pr: Privacy, cuts: seq<Path>): seq<string> {
    seq(|cuts|, i requires 0 <= i < |cuts| => Text(pr, cuts[i]))
  }

  /** cuts lists, once each, the paths where the value at path is cut. */
  ghost predicate ListsCuts(pr: Privacy, v: Json, path: Path, cuts: seq<Path>) {
    Distinct(cuts) && forall p :: p in cuts <==> CutAt(pr, v, path, p)
  }

  /** The same for an object of which the properties in rest have not been done. */
  ghost predicate ListsCutsBut(pr: Privacy, v: Json, path: Path, rest: set<string>, cuts: seq<Path>) {
    Distinct(cuts) && forall p :: p in cuts <==> CutAt(pr, v, path, p) && CutOutside(path, rest, p)
  }

  predicate CutOutside(path: Path, rest: set<string>, p: Path) {
    |path| < |p| && p[|path|] !in rest
  }

  /** What is written for one property: nothing if it is private, otherwise what the filter leaves of it. */
  ghost predicate WritesAttribute(pr: Privacy, path: Path, key: string, v: Json, written: seq<Token>) {
    if IsPrivate(pr, path) then written == []
    else written != [] && written[0] == Name(key) && Encodes(Filter(pr, v, path), written[1..])
  }

  /** What the formatter does for one property: what it writes, and the paths that it cuts out. */
  ghost predicate Outcome(pr: Privacy, path: Path, key: string, v: Json, written: seq<Token>, cuts: seq<Path>) {
    WritesAttribute(pr, path, key, v, written) && ListsCuts(pr, v, path, cuts)
  }

  /** What it has done for the properties of an object when those in rest are still to come. */
  ghost predicate Progress(pr: Privacy, v: Json, path: Path, rest: set<string>, body: seq<Token>, cuts: seq<Path>)
    requires v.Obj?
  {
    EncodesFields(Filter(pr, v, path).props - rest, body) && ListsCutsBut(pr, v, path, rest, cuts)
  }

  ghost predicate NoPrefixPrivate(pr: Privacy, path: Path) {
    forall j :: 0 < j <= |path| ==> !IsPrivate(pr, path[..j])
  }

  lemma NoPrefixPrivateExtended(pr: Privacy, path: Path, key: string)
    requires NoPrefixPrivate(pr, path)
    ensures forall j :: 0 < j <= |path| ==> !IsPrivate(pr, (path + [key])[..j])
    ensures NoProperPrefixPrivate(pr.global, path + [key])
    ensures !IsPrivate(pr, path + [key]) ==> NoPrefixPrivate(pr, path + [key])
  {
    var p := path + [key];
    forall j | 0 < j <= |path| ensures !IsPrivate(pr, p[..j]) {
      assert p[..j] == path[..j];
    }
    assert p[..|p|] == p;
  }

  lemma NotPrivateItself(pr: Privacy, path: Path)
    requires NoPrefixPrivate(pr, path)
    ensures !IsPrivate(pr, path)
  {
    assert path[..|path|] == path;
  }

  // ---------- One more property of an object ----------

  lemma FilteredStep(pr: Privacy, v: Json, path: Path, rest: set<string>, t: seq<Token>, k: string, written: seq<Token>)
    requires v.Obj? && k in v.props && k in rest
    requires EncodesFields(Filter(pr, v, path).props - rest, t)
    requires WritesAttribute(pr, path + [k], k, v.props[k], written)
    ensures EncodesFields(Filter(pr, v, path).props - (rest - {k}), t + written)
  {
    var filtered := Filter(pr, v, path).props;
    if k in filtered {
      AppendRemaining(filtered, rest, t, k, written[1..]);
      assert written == [Name(k)] + written[1..];
    } else {
      PassOver(filtered, rest, t, k);
      assert t + written == t;
    }
  }

  lemma PassOver(props: map<string, Json>, rest: set<string>, t: seq<Token>, k: string)
    requires k !in props && EncodesFields(props - rest, t)
    ensures EncodesFields(props - (rest - {k}), t)
  {
    assert props - (rest - {k}) == props - rest;
  }

  lemma CutsStep(pr: Privacy, v: Json, path: Path, rest: set<string>, cuts: seq<Path>, k: string, more: seq<Path>)
    requires v.Obj? && k in v.props && k in rest && !IsPrivate(pr, path)
    requires ListsCutsBut(pr, v, path, rest, cuts) && ListsCuts(pr, v.props[k], path + [k], more)
    ensures ListsCutsBut(pr, v, path, rest - {k}, cuts + more)
  {
    forall p ensures p in more ==> |p| > |path| && p[|path|] == k {
      if p in more {
        assert path + [k] <= p;
        assert p[|path|] == (path + [k])[|path|];
      }
    }
    forall p ensures p in cuts + more <==> CutAt(pr, v, path, p) && CutOutside(path, rest - {k}, p) {
      CutsInside(pr, v, path, p);
    }
    forall i, j | 0 <= i < |cuts| && 0 <= j < |more| ensures cuts[i] != more[j] {
      assert cuts[i] in cuts && more[j] in more;
    }
  }

  lemma ProgressStep(pr: Privacy, v: Json, path: Path, rest: set<string>, body: seq<Token>, cuts: seq<Path>,
                     k: string, written: seq<Token>, more: seq<Path>)
    requires v.Obj? && k in v.props && k in rest && !IsPrivate(pr, path)
    requires Progress(pr, v, path, rest, body, cuts)
    requires Outcome(pr, path + [k], k, v.props[k], written, more)
    ensures Progress(pr, v, path, rest - {k}, body + written, cuts + more)
  {
    FilteredStep(pr, v, path, rest, body, k, written);
    CutsStep(pr, v, path, rest, cuts, k, more);
  }

  lemma ProgressStarts(pr: Privacy, v: Json, path: Path, rest: set<string>)
    requires v.Obj? && !IsPrivate(pr, path)
    requires v.props.Keys <= rest
    ensures Progress(pr, v, path, rest, [], [])
  {
    forall p ensures !(CutAt(pr, v, path, p) && CutOutside(path, rest, p)) {
      CutsInside(pr, v, path, p);
    }
    assert Filter(pr, v, path).props - rest == map[];
  }

  lemma ProgressEnds(pr: Privacy, v: Json, path: Path, key: string, body: seq<Token>, cuts: seq<Path>)
    requires v.Obj? && !IsPrivate(pr, path) && Progress(pr, v, path, {}, body, cuts)
    ensures Outcome(pr, path, key, v, [Name(key)] + ([BeginObj] + body + [EndObj]), cuts)
  {
    var filtered := Filter(pr, v, path).props;
    assert filtered - {} == filtered;
    forall p ensures p in cuts <==> CutAt(pr, v, path, p) {
      CutsInside(pr, v, path, p);
    }
    WrapObject(filtered, body);
    var written := [Name(key)] + ([BeginObj] + body + [EndObj]);
    assert written[1..] == [BeginObj] + body + [EndObj];
  }

  lemma TextsConcat(pr: Privacy, a: seq<Path>, b: seq<Path>)
    ensures Texts(pr, a + b) == Texts(pr, a) + Texts(pr, b)
  {
  }

  lemma WholeValue(pr: Privacy, path: Path, key: string, v: Json, u: seq<Token>)
    requires !IsPrivate(pr, path) && Encodes(v, u)
    requires v.Obj? ==> !ReferencesBelow(pr.global, path) && !ReferencesBelow(pr.own, path)
    ensures Outcome(pr, path, key, v, [Name(key)] + u, [])
  {
    assert ([Name(key)] + u)[1..] == u;
    if v.Obj? {
      NoReferencesNothingPrivate(pr, path);
      FilterLeavesAlone(pr, v, path);
    }
    forall p ensures !CutAt(pr, v, path, p) {
      if v.Obj? {
        NoCutsBelow(pr, v, path, p);
      } else {
        CutsOfLeaf(pr, v, path, p);
      }
    }
  }

  lemma PrivateValue(pr: Privacy, path: Path, key: string, v: Json)
    requires IsPrivate(pr, path)
    ensures Outcome(pr, path, key, v, [], [path]) && Texts(pr, [path]) == [Text(pr, path)]
  {
    forall p ensures p in [path] <==> CutAt(pr, v, path, p) {
      CutsOfPrivate(pr, v, path, p);
    }
  }

  // ---------- The per-context references ----------

  /** Some reference among the first n lies strictly below path. */
  ghost predicate OwnBelow(own: seq<Ref>, n: nat, path: Path)
    requires n <= |own|
  {
    exists i :: 0 <= i < n && StrictPrefix(path, own[i].components)
  }

  /** The inner loop of maybeRedact: whether a starts with the given path. */
  method Covers(a: Ref, path: Slice) returns (match_: bool)
    requires path.Valid() && path.len <= |a.components|
    ensures match_ <==> path.Elements() <= a.components
  {
    for j := 0 to path.len
      invariant path.arr[..j] <= a.components
    {
      if a.components[j] != path.arr[j] {
        return false;
      }
    }
    return true;
  }

  /** The outer loop of maybeRedact. */
  method CheckOwnRefs(own: seq<Ref>, path: Slice, isObject: bool) returns (redacted: Option<Ref>, nested: bool)
    requires path.Valid() && path.len > 0
    ensures redacted == OwnRef(own, path.Elements())
    ensures isObject && redacted == None ==> (nested <==> ReferencesBelow(own, path.Elements()))
  {
    nested := false;
    for i := 0 to |own|
      invariant OwnRef(own, path.Elements()) == OwnRef(own[i..], path.Elements())
      invariant isObject ==> (nested <==> OwnBelow(own, i, path.Elements()))
    {
      var a := own[i];
      assert own[i..][0] == a && own[i..][1..] == own[i + 1..];
      if |a.components| < path.len || (!isObject && |a.components| > path.len) {
        continue;
      }
      var match_ := Covers(a, path);
      if match_ {
        if |a.components| == path.len {
          return Some(a), false;
        }
        assert StrictPrefix(path.Elements(), own[i].components);
        nested := true;
      }
    }
    redacted := None;
  }

  /** The case in which a property is written as it is. */
  method WriteWholeValue(w: Writer, value: Json, ghost pr: Privacy, ghost path: Path, ghost key: string) returns (ghost u: seq<Token>)
    requires !IsPrivate(pr, path)
    requires value.Obj? ==> !ReferencesBelow(pr.global, path) && !ReferencesBelow(pr.own, path)
    modifies w
    ensures w.tokens == old(w.tokens) + u
    ensures Outcome(pr, path, key, value, [Name(key)] + u, [])
  {
    u := w.WriteValue(value);
    WholeValue(pr, path, key, value, u);
  }

  // ---------- The formatter ----------

  class EventContextFormatter {
    const allAttributesPrivate: bool
    /** The outermost map of the lookup data; null if no attributes were configured as private. */
    const privateAttributes: LookupNode?
    ghost const refs: seq<Ref>
    ghost const nodeAt: map<Path, LookupNode>

    /** newEventContextFormatter. */
    constructor (allAttributesPrivate: bool, refs: seq<Ref>)
      ensures Valid() && this.allAttributesPrivate == allAttributesPrivate && this.refs == refs
      ensures fresh(nodeAt.Values)
    {
      this.allAttributesPrivate, this.refs := allAttributesPrivate, refs;
      if |refs| != 0 {
        var root, nodes := MakeLookupData(refs);
        privateAttributes, nodeAt := root, nodes;
      } else {
        privateAttributes, nodeAt := null, map[];
      }
    }

    /** The lookup data are those of refs. The verifier looks into the trie only where IsTrie is mentioned. */
    ghost predicate Valid()
      reads nodeAt.Values
    {
      if privateAttributes == null then refs == []
      else forall t {:trigger IsTrie(privateAttributes, nodeAt, t)} :: t == TrieOf(refs) ==> IsTrie(privateAttributes, nodeAt, t)
    }

    ghost function Privacy(own: seq<Ref>): Redaction.Privacy {
      Redaction.Privacy(refs, own)
    }

    /** maybeRedact. */
    method MaybeRedact(own: seq<Ref>, path: Slice, isObject: bool, redactedAttrs: StringList) returns (isRedacted: bool, nested: bool)
      requires Valid() && path.Valid() && path.len > 0
      requires NoProperPrefixPrivate(refs, path.Elements())
      modifies redactedAttrs
      ensures isRedacted <==> IsPrivate(Privacy(own), path.Elements())
      ensures redactedAttrs.items
           == old(redactedAttrs.items) + if isRedacted then [Text(Privacy(own), path.Elements())] else []
      ensures isObject && !isRedacted ==>
        (nested <==> ReferencesBelow(refs, path.Elements()) || ReferencesBelow(own, path.Elements()))
    {
      var ref;
      LookupIsExact(refs, path.Elements());
      ref, nested := CheckGlobalPrivateAttrRefs(privateAttributes, path.Elements(), nodeAt, refs);
      if ref != None {
        redactedAttrs.Add(ref.value.text);
        return true, false;
      }
      var ownRef, ownNested := CheckOwnRefs(own, path, isObject);
      if ownRef != None {
        redactedAttrs.Add(ownRef.value.text);
        return true, false;
      }
      return false, nested || ownNested;
    }

    /** The first part of writeFilteredAttribute: decides about one property, and writes its name if it
        is not private. */
    method BeginAttribute(w: Writer, own: seq<Ref>, parentPath: Slice, key: string, value: Json, redactedAttrs: StringList)
        returns (path: Slice, isRedacted: bool, nested: bool)
      requires Valid() && parentPath.Valid() && NoPrefixPrivate(Privacy(own), parentPath.Elements())
      modifies w, redactedAttrs, parentPath.arr
      ensures parentPath.Elements() == old(parentPath.Elements())
      ensures path.Valid() && (path.arr == parentPath.arr || fresh(path.arr))
      ensures path.Elements() == parentPath.Elements() + [key]
      ensures isRedacted <==> IsPrivate(Privacy(own), path.Elements())
      ensures !isRedacted ==> NoPrefixPrivate(Privacy(own), path.Elements())
      ensures value.Obj? && !isRedacted ==>
        (nested <==> ReferencesBelow(refs, path.Elements()) || ReferencesBelow(own, path.Elements()))
      ensures redactedAttrs.items
           == old(redactedAttrs.items) + if isRedacted then [Text(Privacy(own), path.Elements())] else []
      ensures w.tokens == old(w.tokens) + if isRedacted then [] else [Name(key)]
    {
      path := Append(parentPath, key);
      NoPrefixPrivateExtended(Privacy(own), parentPath.Elements(), key);
      isRedacted, nested := MaybeRedact(own, path, value.Obj?, redactedAttrs);
      if !isRedacted {
        w.Put(Name(key));
      }
    }

    /** writeFilteredAttribute. Paths are slices that share their backing arrays with the paths of
        properties written before and after. */
    method WriteFilteredAttribute(w: Writer, own: seq<Ref>, parentPath: Slice, key: string, value: Json, redactedAttrs: StringList)
        returns (ghost written: seq<Token>, ghost cuts: seq<Path>)
      requires Valid() && parentPath.Valid() && NoPrefixPrivate(Privacy(own), parentPath.Elements())
      modifies w, redactedAttrs, parentPath.arr
      ensures parentPath.Elements() == old(parentPath.Elements())
      ensures w.tokens == old(w.tokens) + written
      ensures redactedAttrs.items == old(redactedAttrs.items) + Texts(Privacy(own), cuts)
      ensures Outcome(Privacy(own), parentPath.Elements() + [key], key, value, written, cuts)
      decreases value, 4
    {
      ghost var p := parentPath.Elements() + [key];
      var path, isRedacted, nested := BeginAttribute(w, own, parentPath, key, value, redactedAttrs);
      if isRedacted {
        PrivateValue(Privacy(own), p, key, value);
        written, cuts := [], [p];
      } else {
        ghost var u;
        u, cuts := WriteVisible(w, own, path, key, value, nested, redactedAttrs);
        written := [Name(key)] + u;
        assert path.Elements()[..parentPath.len] == parentPath.Elements();
      }
    }

    /** Its second part, for a property that is not private itself. */
    method WriteVisible(w: Writer, own: seq<Ref>, path: Slice, ghost key: string, value: Json, nested: bool, redactedAttrs: StringList)
        returns (ghost u: seq<Token>, ghost cuts: seq<Path>)
      requires Valid() && path.Valid() && path.len > 0 && NoPrefixPrivate(Privacy(own), path.Elements())
      requires value.Obj? ==> (nested <==> ReferencesBelow(refs, path.Elements()) || ReferencesBelow(own, path.Elements()))
      modifies w, redactedAttrs, path.arr
      ensures path.Elements() == old(path.Elements())
      ensures w.tokens == old(w.tokens) + u
      ensures redactedAttrs.items == old(redactedAttrs.items) + Texts(Privacy(own), cuts)
      ensures Outcome(Privacy(own), path.Elements(), key, value, [Name(key)] + u, cuts)
      decreases value, 3
    {
      if value.Obj? && nested {
        u, cuts := WriteFilteredObject(w, own, path, key, value, redactedAttrs);
      } else {
        NotPrivateItself(Privacy(own), path.Elements());
        u := WriteWholeValue(w, value, Privacy(own), path.Elements(), key);
        cuts := [];
      }
    }

    /** Its last part, which filters the properties of an object. */
    method WriteFilteredObject(w: Writer, own: seq<Ref>, path: Slice, ghost key: string, value: Json, redactedAttrs: StringList)
        returns (ghost u: seq<Token>, ghost cuts: seq<Path>)
      requires Valid() && path.Valid() && value.Obj? && path.len > 0
      requires NoPrefixPrivate(Privacy(own), path.Elements())
      modifies w, redactedAttrs, path.arr
      ensures path.Elements() == old(path.Elements())
      ensures w.tokens == old(w.tokens) + u
      ensures redactedAttrs.items == old(redactedAttrs.items) + Texts(Privacy(own), cuts)
      ensures Outcome(Privacy(own), path.Elements(), key, value, [Name(key)] + u, cuts)
      decreases value, 2
    {
      w.Put(BeginObj);
      ghost var body;
      body, cuts := WriteFilteredProperties(w, own, path, value, redactedAttrs);
      w.Put(EndObj);
      NotPrivateItself(Privacy(own), path.Elements());
      ProgressEnds(Privacy(own), value, path.Elements(), key, body, cuts);
      u := [BeginObj] + body + [EndObj];
    }

    method WriteFilteredProperties(w: Writer, own: seq<Ref>, path: Slice, value: Json, redactedAttrs: StringList)
        returns (ghost body: seq<Token>, ghost cuts: seq<Path>)
      requires Valid() && path.Valid() && value.Obj? && path.len > 0
      requires NoPrefixPrivate(Privacy(own), path.Elements())
      modifies w, redactedAttrs, path.arr
      ensures path.Elements() == old(path.Elements())
      ensures w.tokens == old(w.tokens) + body
      ensures redactedAttrs.items == old(redactedAttrs.items) + Texts(Privacy(own), cuts)
      ensures Progress(Privacy(own), value, path.Elements(), {}, body, cuts)
      decreases value, 1
    {
      ghost var pr, p := Privacy(own), path.Elements();
      NotPrivateItself(pr, p);
      body, cuts := [], [];
      var rest := value.props.Keys;
      ProgressStarts(pr, value, p, rest);
      while rest != {}
        invariant Valid() && rest <= value.props.Keys && path.Elements() == p
        invariant w.tokens == old(w.tokens) + body
        invariant redactedAttrs.items == old(redactedAttrs.items) + Texts(pr, cuts)
        invariant Progress(pr, value, p, rest, body, cuts)
        decreases rest
      {
        var k :| k in rest;
        body, cuts := WriteFilteredProperty(w, own, path, value, k, redactedAttrs, rest, body, cuts);
        rest := rest - {k};
      }
    }

    /** One round of the loop. */
    method WriteFilteredProperty(w: Writer, own: seq<Ref>, path: Slice, value: Json, k: string, redactedAttrs: StringList,
                                 ghost rest: set<string>, ghost body: seq<Token>, ghost cuts: seq<Path>)
        returns (ghost body': seq<Token>, ghost cuts': seq<Path>)
      requires Valid() && path.Valid() && value.Obj? && k in value.props && k in rest && path.len > 0
      requires NoPrefixPrivate(Privacy(own), path.Elements())
      requires Progress(Privacy(own), value, path.Elements(), rest, body, cuts)
      modifies w, redactedAttrs, path.arr
      ensures path.Elements() == old(path.Elements())
      ensures Progress(Privacy(own), value, path.Elements(), rest - {k}, body', cuts')
      ensures body <= body' && w.tokens == old(w.tokens) + body'[|body|..]
      ensures cuts <= cuts' && redactedAttrs.items == old(redactedAttrs.items) + Texts(Privacy(own), cuts'[|cuts|..])
      decreases value, 0
    {
      ghost var pr, p := Privacy(own), path.Elements();
      NotPrivateItself(pr, p);
      ghost var written, more := WriteFilteredAttribute(w, own, path, k, value.props[k], redactedAttrs);
      ProgressStep(pr, value, p, rest, body, cuts, k, written, more);
      body', cuts' := body + written, cuts + more;
    }
  }
}
