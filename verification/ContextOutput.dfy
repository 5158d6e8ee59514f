/** Whole contexts as they are written in events: the built-in attributes, the optional ones that are not
    private, and the list of references that redacted the others. */
module ContextOutput {
  import opened Wrappers
  import opened Json
  import opened JsonReading
  import opened PrivateRefs
  import opened Redaction
  import opened Slices
  import opened Recency
  import opened ContextFormatter

  const RESERVED := {"kind", "key", "anonymous", "_meta"}

  // ---------- What is to be written ----------

  /** The settings of the SDK that matter here. The text form of a literal reference comes from ldattr. */
  datatype Settings = Settings(allAttributesPrivate: bool, global: seq<Ref>, literalText: string -> string)

  /** Null is the same as not being set. */
  function Defined(attributes: map<string, Json>): map<string, Json> {
    map k | k in attributes && attributes[k] != Null :: attributes[k]
  }

  function Attributes(c: EventContext): Json {
    Obj(Defined(c.attributes))
  }

  predicate RedactsAll(s: Settings, c: EventContext, redactAnonymous: bool) {
    s.allAttributesPrivate || (c.anonymous && redactAnonymous)
  }

  /** p is a path where something is left out. */
  ghost predicate Hidden(s: Settings, c: EventContext, all: bool, p: Path) {
    if all then |p| == 1 && p[0] in Defined(c.attributes)
    else Cut(Privacy(s.global, c.own), Attributes(c), p)
  }

  ghost predicate ListsHidden(s: Settings, c: EventContext, all: bool, cuts: seq<Path>) {
    Distinct(cuts) && forall p :: p in cuts <==> Hidden(s, c, all, p)
  }

  /** The attributes that are left. */
  function Shown(s: Settings, c: EventContext, all: bool): map<string, Json> {
    if all then map[] else Filter(Privacy(s.global, c.own), Attributes(c), []).props
  }

  function LiteralTexts(s: Settings, cuts: seq<Path>): seq<string> {
    seq(|cuts|, i requires 0 <= i < |cuts| => if cuts[i] == [] then "" else s.literalText(cuts[i][0]))
  }

  function Listed(s: Settings, c: EventContext, all: bool, cuts: seq<Path>): seq<string> {
    if all then LiteralTexts(s, cuts) else Texts(Privacy(s.global, c.own), cuts)
  }

  function Head(c: EventContext, includeKind: bool): map<string, Json> {
    (if includeKind then map["kind" := Str(c.kind)] else map[]) + map["key" := Str(c.key)]
  }

  function Meta(texts: seq<string>): Json {
    Obj(map["redactedAttributes" := Arr(seq(|texts|, i requires 0 <= i < |texts| => Str(texts[i])))])
  }

  function Tail(anonymous: bool, texts: seq<string>): map<string, Json> {
    (if anonymous then map["anonymous" := Bool(true)] else map[])
    + if texts != [] then map["_meta" := Meta(texts)] else map[]
  }

  function ContextJson(s: Settings, c: EventContext, includeKind: bool, all: bool, cuts: seq<Path>): Json {
    Obj(Head(c, includeKind) + (Shown(s, c, all) + Tail(c.anonymous, Listed(s, c, all, cuts))))
  }

  /** v is how c may be written: the order of the redacted attributes is left open. */
  ghost predicate IsContextJson(s: Settings, c: EventContext, includeKind: bool, redactAnonymous: bool, v: Json) {
    exists cuts :: ListsHidden(s, c, RedactsAll(s, c, redactAnonymous), cuts)
                   && v == ContextJson(s, c, includeKind, RedactsAll(s, c, redactAnonymous), cuts)
  }

  /** In a context that is not redacted as a whole, every non-object value of an optional attribute is either
      written, at the same path and unchanged, or has exactly one prefix in the list of redacted paths. */
  lemma EveryLeafWrittenOrListed(s: Settings, c: EventContext, includeKind: bool, cuts: seq<Path>, q: Path)
    requires ListsHidden(s, c, false, cuts)
    requires q != [] && q[0] !in RESERVED
    requires At(Attributes(c), q).Some? && !At(Attributes(c), q).value.Obj?
    ensures var v := ContextJson(s, c, includeKind, false, cuts);
      if exists j :: 0 <= j <= |q| && q[..j] in cuts then At(v, q) == None else At(v, q) == At(Attributes(c), q)
    ensures forall i, j :: 0 <= i <= |q| && 0 <= j <= |q| && q[..i] in cuts && q[..j] in cuts ==> i == j
  {
    OptionalAttributesAt(s, c, includeKind, false, cuts, q);
    EveryLeafKeptOrCut(Privacy(s.global, c.own), Attributes(c), q);
    forall j | 0 <= j <= |q| ensures q[..j] in cuts <==> Cut(Privacy(s.global, c.own), Attributes(c), q[..j]) {
    }
  }

  lemma OptionalAttributesAt(s: Settings, c: EventContext, includeKind: bool, all: bool, cuts: seq<Path>, q: Path)
    requires q != [] && q[0] !in RESERVED
    ensures At(ContextJson(s, c, includeKind, all, cuts), q) == At(Obj(Shown(s, c, all)), q)
  {
    var head, tail := Head(c, includeKind), Tail(c.anonymous, Listed(s, c, all, cuts));
    assert q[0] !in head && q[0] !in tail;
  }

  /** Every path in the list is one of the input, nothing is written there, and no listed path lies inside
      another one. */
  lemma ListedPathsAreClean(s: Settings, c: EventContext, includeKind: bool, cuts: seq<Path>, p: Path)
    requires ListsHidden(s, c, false, cuts) && p in cuts
    ensures p != [] && At(Attributes(c), p).Some?
    ensures p[0] !in RESERVED ==> At(ContextJson(s, c, includeKind, false, cuts), p) == None
    ensures forall q :: q in cuts ==> !StrictPrefix(p, q)
  {
    var pr := Privacy(s.global, c.own);
    assert Hidden(s, c, false, p) && p[0..] == p;
    forall q | q in cuts ensures !StrictPrefix(p, q) {
      CutsAreClean(pr, Attributes(c), p, q);
      assert Hidden(s, c, false, q);
    }
    CutsAreClean(pr, Attributes(c), p, p);
    if p[0] !in RESERVED {
      OptionalAttributesAt(s, c, includeKind, false, cuts, p);
    }
  }

  lemma ReservedNamesDiffer()
    ensures "kind" != "key" && "kind" != "anonymous" && "kind" != "_meta"
    ensures "key" != "anonymous" && "key" != "_meta" && "anonymous" != "_meta"
  {
    assert "kind"[0] != "anonymous"[0] && "kind"[0] != "_meta"[0] && "key"[0] != "anonymous"[0] && "key"[0] != "_meta"[0]
        && "anonymous"[0] != "_meta"[0] && "kind"[1] != "key"[1];
  }

  /** An attribute that is not an optional one is looked up in the head, or else in the tail. */
  lemma BuiltInLookup(s: Settings, c: EventContext, includeKind: bool, all: bool, cuts: seq<Path>, k: string)
    requires k !in c.attributes
    ensures var v, tail := ContextJson(s, c, includeKind, all, cuts), Tail(c.anonymous, Listed(s, c, all, cuts));
      && (k in v.props <==> k in Head(c, includeKind) || k in tail)
      && (k in tail ==> v.props[k] == tail[k])
      && (k !in tail && k in v.props ==> v.props[k] == Head(c, includeKind)[k])
  {
    assert k !in Shown(s, c, all);
  }

  lemma KeyAndKindOf(s: Settings, c: EventContext, includeKind: bool, all: bool, cuts: seq<Path>)
    requires "key" !in c.attributes && "kind" !in c.attributes
    ensures var props := ContextJson(s, c, includeKind, all, cuts).props;
      && "key" in props && props["key"] == Str(c.key)
      && if includeKind then "kind" in props && props["kind"] == Str(c.kind) else "kind" !in props
  {
    BuiltInLookup(s, c, includeKind, all, cuts, "key");
    BuiltInLookup(s, c, includeKind, all, cuts, "kind");
    ReservedNamesDiffer();
  }

  lemma AnonymousOf(s: Settings, c: EventContext, includeKind: bool, all: bool, cuts: seq<Path>)
    requires "anonymous" !in c.attributes
    ensures var props := ContextJson(s, c, includeKind, all, cuts).props;
      if c.anonymous then "anonymous" in props && props["anonymous"] == Bool(true) else "anonymous" !in props
  {
    BuiltInLookup(s, c, includeKind, all, cuts, "anonymous");
    ReservedNamesDiffer();
  }

  /** The built-in attributes, whatever is redacted; optional attributes never have their names. */
  lemma BuiltInAttributes(s: Settings, c: EventContext, includeKind: bool, redactAnonymous: bool, v: Json)
    requires IsContextJson(s, c, includeKind, redactAnonymous, v) && c.attributes.Keys !! RESERVED
    ensures v.Obj? && "key" in v.props && v.props["key"] == Str(c.key)
    ensures if includeKind then "kind" in v.props && v.props["kind"] == Str(c.kind) else "kind" !in v.props
    ensures if c.anonymous then "anonymous" in v.props && v.props["anonymous"] == Bool(true) else "anonymous" !in v.props
  {
    var all := RedactsAll(s, c, redactAnonymous);
    var cuts :| ListsHidden(s, c, all, cuts) && v == ContextJson(s, c, includeKind, all, cuts);
    assert "kind" in RESERVED && "key" in RESERVED && "anonymous" in RESERVED;
    KeyAndKindOf(s, c, includeKind, all, cuts);
    AnonymousOf(s, c, includeKind, all, cuts);
  }

  /** The list of redacted attributes that a reader finds, if there is one. */
  ghost predicate HasRedactedList(v: Json, texts: seq<string>)
    requires v.Obj?
  {
    if texts == [] then "_meta" !in v.props
    else
      && "_meta" in v.props && v.props["_meta"].Obj? && v.props["_meta"].props.Keys == {"redactedAttributes"}
      && v.props["_meta"].props["redactedAttributes"].Arr?
      && |v.props["_meta"].props["redactedAttributes"].items| == |texts|
      && forall i :: 0 <= i < |texts| ==> v.props["_meta"].props["redactedAttributes"].items[i] == Str(texts[i])
  }

  lemma RedactedListOf(s: Settings, c: EventContext, includeKind: bool, all: bool, cuts: seq<Path>)
    requires "_meta" !in c.attributes
    ensures HasRedactedList(ContextJson(s, c, includeKind, all, cuts), Listed(s, c, all, cuts))
  {
    BuiltInLookup(s, c, includeKind, all, cuts, "_meta");
    ReservedNamesDiffer();
  }

  /** The names of the attributes that are set, once each. */
  ghost predicate AreNamesSet(c: EventContext, names: seq<string>) {
    Distinct(names) && forall k :: k in names <==> k in c.attributes && c.attributes[k] != Null
  }

  lemma NamesOfHidden(s: Settings, c: EventContext, cuts: seq<Path>) returns (names: seq<string>)
    requires ListsHidden(s, c, true, cuts)
    ensures AreNamesSet(c, names)
    ensures Listed(s, c, true, cuts) == seq(|names|, i requires 0 <= i < |names| => s.literalText(names[i]))
  {
    forall i | 0 <= i < |cuts| ensures |cuts[i]| == 1 && cuts[i] == [cuts[i][0]] {
      assert cuts[i] in cuts && Hidden(s, c, true, cuts[i]);
    }
    names := seq(|cuts|, i requires 0 <= i < |cuts| => cuts[i][0]);
    forall k ensures k in names <==> k in c.attributes && c.attributes[k] != Null {
      assert [k] in cuts <==> Hidden(s, c, true, [k]);
      if [k] in cuts {
        var i :| 0 <= i < |cuts| && cuts[i] == [k];
        assert names[i] == k;
      }
      if k in names {
        var i :| 0 <= i < |names| && names[i] == k;
        assert cuts[i] == [k];
      }
    }
    forall i, j | 0 <= i < j < |names| ensures names[i] != names[j] {
      assert cuts[i] == [names[i]] && cuts[j] == [names[j]];
    }
  }

  lemma OnlyBuiltIn(s: Settings, c: EventContext, includeKind: bool, cuts: seq<Path>)
    ensures ContextJson(s, c, includeKind, true, cuts).props.Keys <= {"kind", "key", "anonymous", "_meta"}
  {
  }

  /** If all attributes are private, or the context is anonymous and anonymous ones are to be redacted, nothing is
      written but the built-in attributes and the list, which holds the literal references of exactly the
      attributes that are set, once each. */
  lemma EverythingIsRedacted(s: Settings, c: EventContext, includeKind: bool, redactAnonymous: bool, v: Json)
    requires IsContextJson(s, c, includeKind, redactAnonymous, v)
    requires s.allAttributesPrivate || (c.anonymous && redactAnonymous)
    ensures v.Obj? && v.props.Keys <= {"kind", "key", "anonymous", "_meta"}
    ensures "_meta" !in c.attributes ==>
      exists names :: AreNamesSet(c, names)
        && HasRedactedList(v, seq(|names|, i requires 0 <= i < |names| => s.literalText(names[i])))
  {
    var cuts :| ListsHidden(s, c, RedactsAll(s, c, redactAnonymous), cuts)
                && v == ContextJson(s, c, includeKind, RedactsAll(s, c, redactAnonymous), cuts);
    OnlyBuiltIn(s, c, includeKind, cuts);
    if "_meta" !in c.attributes {
      var names := NamesOfHidden(s, c, cuts);
      RedactedListOf(s, c, includeKind, true, cuts);
    }
  }

  /** Every leaf of the optional attributes is in v, or else exactly one prefix of its path is among the cuts. */
  ghost predicate LeavesWritten(c: EventContext, v: Json, cuts: seq<Path>) {
    forall q :: q != [] && q[0] !in RESERVED && At(Attributes(c), q).Some? && !At(Attributes(c), q).value.Obj? ==>
      LeafWritten(c, v, cuts, q)
  }

  ghost predicate LeafWritten(c: EventContext, v: Json, cuts: seq<Path>, q: Path) {
    && (if exists j :: 0 <= j <= |q| && q[..j] in cuts then At(v, q) == None else At(v, q) == At(Attributes(c), q))
    && forall i, j :: 0 <= i <= |q| && 0 <= j <= |q| && q[..i] in cuts && q[..j] in cuts ==> i == j
  }

  /** The paths cut out are those of the references. */
  ghost predicate CutsAreReferences(s: Settings, c: EventContext, cuts: seq<Path>) {
    forall p :: p in cuts ==>
      p != [] && ((exists i :: IsFirstFor(s.global, p, i)) || exists i :: 0 <= i < |c.own| && c.own[i].components == p)
  }

  /** Otherwise, every leaf is written or cut out, for some list of paths that references are for, whose texts make
      up the list in v; and no reference of the context is left unheeded. */
  lemma OnlyReferencesAreRedacted(s: Settings, c: EventContext, includeKind: bool, redactAnonymous: bool, v: Json)
    requires IsContextJson(s, c, includeKind, redactAnonymous, v) && "_meta" !in c.attributes
    requires !s.allAttributesPrivate && !(c.anonymous && redactAnonymous)
    ensures v.Obj? && exists cuts :: LeavesWritten(c, v, cuts) && Distinct(cuts) && CutsAreReferences(s, c, cuts)
                                     && HasRedactedList(v, Texts(Privacy(s.global, c.own), cuts))
    ensures forall i :: 0 <= i < |c.own| && c.own[i].components != [] && c.own[i].components[0] !in RESERVED ==>
              At(v, c.own[i].components) == None
  {
    var cuts :| ListsHidden(s, c, RedactsAll(s, c, redactAnonymous), cuts)
                && v == ContextJson(s, c, includeKind, RedactsAll(s, c, redactAnonymous), cuts);
    var pr := Privacy(s.global, c.own);
    RedactedListOf(s, c, includeKind, false, cuts);
    forall q | q != [] && q[0] !in RESERVED && At(Attributes(c), q).Some? && !At(Attributes(c), q).value.Obj?
      ensures LeafWritten(c, v, cuts, q)
    {
      EveryLeafWrittenOrListed(s, c, includeKind, cuts, q);
    }
    CutsComeFromReferences(s, c, cuts);
    assert LeavesWritten(c, v, cuts) && HasRedactedList(v, Texts(pr, cuts));
    forall i | 0 <= i < |c.own| && c.own[i].components != [] && c.own[i].components[0] !in RESERVED
      ensures At(v, c.own[i].components) == None
    {
      ReferencesAreHonoured(pr, Attributes(c), i);
      OptionalAttributesAt(s, c, includeKind, false, cuts, c.own[i].components);
    }
  }

  lemma CutsComeFromReferences(s: Settings, c: EventContext, cuts: seq<Path>)
    requires ListsHidden(s, c, false, cuts)
    ensures CutsAreReferences(s, c, cuts)
  {
    forall p | p in cuts
      ensures p != [] && ((exists i :: IsFirstFor(s.global, p, i)) || exists i :: 0 <= i < |c.own| && c.own[i].components == p)
    {
      assert Hidden(s, c, false, p);
      PrivateIff(Privacy(s.global, c.own), p);
    }
  }

  /** The text listed for a path is that of the configured reference that takes effect, or else of the first of
      the context's references for it. */
  lemma ListedTextIs(s: Settings, c: EventContext, p: Path, i: int)
    requires p != []
    ensures IsFirstFor(s.global, p, i) ==> Text(Privacy(s.global, c.own), p) == s.global[i].text
    ensures IsFirstOwn(c.own, p, i) && (forall k :: !IsFirstFor(s.global, p, k)) ==>
      Text(Privacy(s.global, c.own), p) == c.own[i].text
  {
    PrivateRefIs(Privacy(s.global, c.own), p, i);
  }

  // ---------- Writing the attributes ----------

  /** What has been written of the attributes when those in rest are still to come. */
  ghost predicate AttributesProgress(s: Settings, c: EventContext, all: bool, rest: set<string>, body: seq<Token>, cuts: seq<Path>) {
    if all then
      && body == [] && Distinct(cuts)
      && forall p :: p in cuts <==> Hidden(s, c, true, p) && p[0] !in rest
    else Progress(Privacy(s.global, c.own), Attributes(c), [], rest, body, cuts)
  }

  ghost predicate AttributeOutcome(s: Settings, c: EventContext, all: bool, key: string, written: seq<Token>, cuts: seq<Path>)
    requires key in Defined(c.attributes)
  {
    if all then written == [] && cuts == [[key]]
    else Outcome(Privacy(s.global, c.own), [key], key, c.attributes[key], written, cuts)
  }

  lemma AttributesStart(s: Settings, c: EventContext, all: bool)
    ensures AttributesProgress(s, c, all, c.attributes.Keys, [], [])
  {
    if !all {
      ProgressStarts(Privacy(s.global, c.own), Attributes(c), [], c.attributes.Keys);
    }
  }

  lemma AttributesStep(s: Settings, c: EventContext, all: bool, rest: set<string>, body: seq<Token>, cuts: seq<Path>,
                       k: string, written: seq<Token>, more: seq<Path>)
    requires k in Defined(c.attributes) && k in rest
    requires AttributesProgress(s, c, all, rest, body, cuts) && AttributeOutcome(s, c, all, k, written, more)
    ensures AttributesProgress(s, c, all, rest - {k}, body + written, cuts + more)
  {
    if all {
      forall p ensures p in cuts + more <==> Hidden(s, c, true, p) && p[0] !in rest - {k} {
        assert |p| == 1 ==> p == [p[0]];
      }
      assert [k] !in cuts;
    } else {
      assert [] + [k] == [k];
      ProgressStep(Privacy(s.global, c.own), Attributes(c), [], rest, body, cuts, k, written, more);
    }
  }

  /** An attribute that is not set is passed over. */
  lemma AttributesSkip(s: Settings, c: EventContext, all: bool, rest: set<string>, body: seq<Token>, cuts: seq<Path>, k: string)
    requires k !in Defined(c.attributes)
    requires AttributesProgress(s, c, all, rest, body, cuts)
    ensures AttributesProgress(s, c, all, rest - {k}, body, cuts)
  {
    var pr, v := Privacy(s.global, c.own), Attributes(c);
    if !all {
      PassOver(Filter(pr, v, []).props, rest, body, k);
      forall p ensures CutAt(pr, v, [], p) && CutOutside([], rest - {k}, p) <==> CutAt(pr, v, [], p) && CutOutside([], rest, p) {
        CutsInside(pr, v, [], p);
      }
    }
  }

  lemma AttributesEnd(s: Settings, c: EventContext, all: bool, body: seq<Token>, cuts: seq<Path>)
    requires AttributesProgress(s, c, all, {}, body, cuts)
    ensures ReadsFields(Shown(s, c, all), body) && ListsHidden(s, c, all, cuts)
  {
    if all {
      ReadsNothing();
    } else {
      var pr, v := Privacy(s.global, c.own), Attributes(c);
      var filtered := Filter(pr, v, []).props;
      assert filtered - {} == filtered;
      ReadsEncodedFields(filtered, body);
      forall p ensures p in cuts <==> CutAt(pr, v, [], p) {
        CutsInside(pr, v, [], p);
      }
    }
  }

  lemma LiteralTextsConcat(s: Settings, a: seq<Path>, b: seq<Path>)
    ensures LiteralTexts(s, a + b) == LiteralTexts(s, a) + LiteralTexts(s, b)
  {
  }

  lemma ListedConcat(s: Settings, c: EventContext, all: bool, a: seq<Path>, b: seq<Path>)
    ensures Listed(s, c, all, a + b) == Listed(s, c, all, a) + Listed(s, c, all, b)
  {
    if all {
      LiteralTextsConcat(s, a, b);
    } else {
      TextsConcat(Privacy(s.global, c.own), a, b);
    }
  }

  /** One round of the loop over the optional attributes, for one that is set. */
  method WriteAttribute(f: EventContextFormatter, s: Settings, w: Writer, c: EventContext, key: string, redactAll: bool, redactedAttrs: StringList)
      returns (ghost written: seq<Token>, ghost cuts: seq<Path>)
    requires f.Valid() && f.refs == s.global && key in Defined(c.attributes)
    modifies w, redactedAttrs
    ensures w.tokens == old(w.tokens) + written
    ensures redactedAttrs.items == old(redactedAttrs.items) + Listed(s, c, redactAll, cuts)
    ensures AttributeOutcome(s, c, redactAll, key, written, cuts)
  {
    if redactAll {
      redactedAttrs.Add(s.literalText(key));
      return [], [[key]];
    }
    var arr := new string[10];
    var path := Slice(arr, 0);
    assert path.Elements() + [key] == [key];
    written, cuts := f.WriteFilteredAttribute(w, c.own, path, key, c.attributes[key], redactedAttrs);
  }

  method WriteNextAttribute(f: EventContextFormatter, s: Settings, w: Writer, c: EventContext, key: string, redactAll: bool,
                            redactedAttrs: StringList, ghost rest: set<string>, ghost body: seq<Token>, ghost cuts: seq<Path>)
      returns (ghost body': seq<Token>, ghost cuts': seq<Path>)
    requires f.Valid() && f.refs == s.global && key in c.attributes && key in rest
    requires AttributesProgress(s, c, redactAll, rest, body, cuts)
    modifies w, redactedAttrs
    ensures AttributesProgress(s, c, redactAll, rest - {key}, body', cuts')
    ensures body <= body' && w.tokens == old(w.tokens) + body'[|body|..]
    ensures cuts <= cuts' && redactedAttrs.items == old(redactedAttrs.items) + Listed(s, c, redactAll, cuts'[|cuts|..])
  {
    if c.attributes[key] != Null {
      ghost var written, more := WriteAttribute(f, s, w, c, key, redactAll, redactedAttrs);
      AttributesStep(s, c, redactAll, rest, body, cuts, key, written, more);
      body', cuts' := body + written, cuts + more;
    } else {
      AttributesSkip(s, c, redactAll, rest, body, cuts, key);
      body', cuts' := body, cuts;
    }
  }

  /** The loop over the optional attributes. */
  method WriteAttributes(f: EventContextFormatter, s: Settings, w: Writer, c: EventContext, redactAll: bool)
      returns (redactedAttrs: seq<string>, ghost body: seq<Token>, ghost cuts: seq<Path>)
    requires f.Valid() && f.refs == s.global
    modifies w
    ensures w.tokens == old(w.tokens) + body
    ensures redactedAttrs == Listed(s, c, redactAll, cuts)
    ensures ReadsFields(Shown(s, c, redactAll), body) && ListsHidden(s, c, redactAll, cuts)
  {
    body, cuts := [], [];
    var list := new StringList();
    var rest := c.attributes.Keys;
    AttributesStart(s, c, redactAll);
    while rest != {}
      invariant f.Valid() && rest <= c.attributes.Keys
      invariant w.tokens == old(w.tokens) + body
      invariant list.items == Listed(s, c, redactAll, cuts)
      invariant AttributesProgress(s, c, redactAll, rest, body, cuts)
      decreases rest
    {
      var key :| key in rest;
      ghost var before := cuts;
      body, cuts := WriteNextAttribute(f, s, w, c, key, redactAll, list, rest, body, cuts);
      ListedConcat(s, c, redactAll, before, cuts[|before|..]);
      rest := rest - {key};
    }
    AttributesEnd(s, c, redactAll, body, cuts);
    redactedAttrs := list.items;
  }

  // ---------- Writing the rest of a context ----------

  method WriteStringField(w: Writer, k: string, text: string) returns (ghost t: seq<Token>)
    modifies w
    ensures w.tokens == old(w.tokens) + t && ReadsFields(map[k := Str(text)], t)
  {
    w.Put(Name(k));
    w.Put(Prim(Str(text)));
    t := [Name(k)] + [Prim(Str(text))];
    ReadsEncoding(Str(text), [Prim(Str(text))]);
    ReadsField(k, Str(text), [Prim(Str(text))]);
  }

  method WriteHead(w: Writer, c: EventContext, includeKind: bool) returns (ghost t: seq<Token>)
    modifies w
    ensures w.tokens == old(w.tokens) + t && ReadsFields(Head(c, includeKind), t)
  {
    ghost var a: seq<Token> := [];
    ReadsNothing();
    if includeKind {
      a := WriteStringField(w, "kind", c.kind);
    }
    ghost var b := WriteStringField(w, "key", c.key);
    ReadsBoth(if includeKind then map["kind" := Str(c.kind)] else map[], a, map["key" := Str(c.key)], b);
    t := a + b;
  }

  method WriteStrings(w: Writer, texts: seq<string>) returns (ghost t: seq<Token>)
    modifies w
    ensures w.tokens == old(w.tokens) + t
    ensures Encodes(Arr(seq(|texts|, i requires 0 <= i < |texts| => Str(texts[i]))), t)
  {
    ghost var items := seq(|texts|, i requires 0 <= i < |texts| => Str(texts[i]));
    ghost var body: seq<Token> := [];
    w.Put(BeginArr);
    for i := 0 to |texts|
      invariant w.tokens == old(w.tokens) + ([BeginArr] + body)
      invariant EncodesItems(items[..i], body)
    {
      w.Put(Prim(Str(texts[i])));
      AppendNext(items, i, body, [Prim(items[i])]);
      body := body + [Prim(items[i])];
    }
    assert items[..|items|] == items;
    w.Put(EndArr);
    WrapArray(items, body);
    t := [BeginArr] + body + [EndArr];
  }

  method WriteMeta(w: Writer, texts: seq<string>) returns (ghost t: seq<Token>)
    modifies w
    ensures w.tokens == old(w.tokens) + t && ReadsFields(map["_meta" := Meta(texts)], t)
  {
    w.Put(Name("_meta"));
    w.Put(BeginObj);
    w.Put(Name("redactedAttributes"));
    ghost var u := WriteStrings(w, texts);
    w.Put(EndObj);
    ghost var list := Arr(seq(|texts|, i requires 0 <= i < |texts| => Str(texts[i])));
    ghost var inner := [Name("redactedAttributes")] + u;
    ReadsEncoding(list, u);
    ReadsField("redactedAttributes", list, u);
    ReadsObject(map["redactedAttributes" := list], inner);
    ReadsField("_meta", Meta(texts), [BeginObj] + inner + [EndObj]);
    t := [Name("_meta")] + ([BeginObj] + inner + [EndObj]);
  }

  method WriteTail(w: Writer, anonymous: bool, texts: seq<string>) returns (ghost t: seq<Token>)
    modifies w
    ensures w.tokens == old(w.tokens) + t && ReadsFields(Tail(anonymous, texts), t)
  {
    ghost var a: seq<Token>, b: seq<Token> := [], [];
    ReadsNothing();
    if anonymous {
      w.Put(Name("anonymous"));
      w.Put(Prim(Bool(true)));
      a := [Name("anonymous")] + [Prim(Bool(true))];
      ReadsEncoding(Bool(true), [Prim(Bool(true))]);
      ReadsField("anonymous", Bool(true), [Prim(Bool(true))]);
    }
    if |texts| != 0 {
      b := WriteMeta(w, texts);
    }
    ReadsBoth(if anonymous then map["anonymous" := Bool(true)] else map[], a, if texts != [] then map["_meta" := Meta(texts)] else map[], b);
    t := a + b;
  }

  lemma PartsMakeContext(s: Settings, c: EventContext, includeKind: bool, redactAnonymous: bool, cuts: seq<Path>,
                         head: seq<Token>, body: seq<Token>, tail: seq<Token>)
    requires var all := RedactsAll(s, c, redactAnonymous);
      && ReadsFields(Head(c, includeKind), head)
      && ReadsFields(Shown(s, c, all), body)
      && ReadsFields(Tail(c.anonymous, Listed(s, c, all, cuts)), tail)
      && ListsHidden(s, c, all, cuts)
    ensures var v := ContextJson(s, c, includeKind, RedactsAll(s, c, redactAnonymous), cuts);
      && IsContextJson(s, c, includeKind, redactAnonymous, v)
      && Reads(v, [BeginObj] + (head + (body + tail)) + [EndObj])
  {
    var all := RedactsAll(s, c, redactAnonymous);
    var attributes, last := Shown(s, c, all), Tail(c.anonymous, Listed(s, c, all, cuts));
    ReadsBoth(attributes, body, last, tail);
    ReadsBoth(Head(c, includeKind), head, attributes + last, body + tail);
    ReadsObject(Head(c, includeKind) + (attributes + last), head + (body + tail));
  }

  /** writeContextInternalSingle. */
  method WriteContextInternalSingle(f: EventContextFormatter, s: Settings, w: Writer, c: EventContext, includeKind: bool, redactAnonymous: bool)
      returns (ghost v: Json, ghost written: seq<Token>)
    requires f.Valid() && f.refs == s.global && f.allAttributesPrivate == s.allAttributesPrivate
    modifies w
    ensures w.tokens == old(w.tokens) + written
    ensures Reads(v, written) && IsContextJson(s, c, includeKind, redactAnonymous, v)
  {
    var redactAll := f.allAttributesPrivate || (c.anonymous && redactAnonymous);
    w.Put(BeginObj);
    ghost var head, body, tail, cuts := WriteParts(f, s, w, c, includeKind, redactAll);
    w.Put(EndObj);
    v := ContextJson(s, c, includeKind, redactAll, cuts);
    written := [BeginObj] + (head + (body + tail)) + [EndObj];
    PartsMakeContext(s, c, includeKind, redactAnonymous, cuts, head, body, tail);
  }

  method WriteParts(f: EventContextFormatter, s: Settings, w: Writer, c: EventContext, includeKind: bool, redactAll: bool)
      returns (ghost head: seq<Token>, ghost body: seq<Token>, ghost tail: seq<Token>, ghost cuts: seq<Path>)
    requires f.Valid() && f.refs == s.global
    modifies w
    ensures w.tokens == old(w.tokens) + (head + (body + tail))
    ensures ReadsFields(Head(c, includeKind), head) && ReadsFields(Shown(s, c, redactAll), body)
    ensures ReadsFields(Tail(c.anonymous, Listed(s, c, redactAll, cuts)), tail) && ListsHidden(s, c, redactAll, cuts)
  {
    head := WriteHead(w, c, includeKind);
    var redactedAttrs;
    redactedAttrs, body, cuts := WriteAttributes(f, s, w, c, redactAll);
    tail := WriteTail(w, c.anonymous, redactedAttrs);
  }

  // ---------- Contexts of several kinds ----------

  /** The object for a context of several kinds, each written as vs says; one that is not defined is left out. */
  function MultiProps(cs: seq<Option<EventContext>>, vs: seq<Json>): map<string, Json>
    requires |cs| == |vs|
  {
    if cs == [] then map["kind" := Str("multi")]
    else
      var last := |cs| - 1;
      var before := MultiProps(cs[..last], vs[..last]);
      if cs[last].Some? then before + map[cs[last].value.kind := vs[last]] else before
  }

  /** A reader finds the kind multi, and each defined context under its own kind if no later one has the same. */
  lemma {:induction false} MultiPropsRead(cs: seq<Option<EventContext>>, vs: seq<Json>, i: nat)
    requires |cs| == |vs|
    ensures (forall j :: 0 <= j < |cs| && cs[j].Some? ==> cs[j].value.kind != "kind") ==>
      "kind" in MultiProps(cs, vs) && MultiProps(cs, vs)["kind"] == Str("multi")
    ensures i < |cs| && cs[i].Some? && (forall j :: i < j < |cs| && cs[j].Some? ==> cs[j].value.kind != cs[i].value.kind) ==>
      cs[i].value.kind in MultiProps(cs, vs) && MultiProps(cs, vs)[cs[i].value.kind] == vs[i]
    ensures forall k :: k in MultiProps(cs, vs) ==> k == "kind" || exists j :: 0 <= j < |cs| && cs[j].Some? && cs[j].value.kind == k
  {
    if cs != [] {
      var last := |cs| - 1;
      MultiPropsRead(cs[..last], vs[..last], i);
      assert forall j :: 0 <= j < last ==> cs[..last][j] == cs[j];
    }
  }

  lemma MultiPropsAppend(cs: seq<Option<EventContext>>, vs: seq<Json>, c: Option<EventContext>, v: Json)
    requires |cs| == |vs|
    ensures MultiProps(cs + [c], vs + [v])
         == if c.Some? then MultiProps(cs, vs) + map[c.value.kind := v] else MultiProps(cs, vs)
  {
    assert (cs + [c])[..|cs|] == cs && (vs + [v])[..|vs|] == vs;
  }

  ghost predicate AreContextsJson(s: Settings, cs: seq<Option<EventContext>>, redactAnonymous: bool, vs: seq<Json>) {
    && |cs| == |vs|
    && forall i :: 0 <= i < |cs| && cs[i].Some? ==> IsContextJson(s, cs[i].value, false, redactAnonymous, vs[i])
  }

  /** Each context of several is redacted like a single one. */
  lemma EachContextIsRedacted(s: Settings, cs: seq<Option<EventContext>>, redactAnonymous: bool, vs: seq<Json>, i: nat)
    requires AreContextsJson(s, cs, redactAnonymous, vs) && i < |cs| && cs[i].Some?
    ensures vs[i].Obj?
    ensures s.allAttributesPrivate || (cs[i].value.anonymous && redactAnonymous) ==>
      vs[i].props.Keys <= {"kind", "key", "anonymous", "_meta"}
    ensures !s.allAttributesPrivate && !(cs[i].value.anonymous && redactAnonymous) && "_meta" !in cs[i].value.attributes ==>
      exists cuts :: LeavesWritten(cs[i].value, vs[i], cuts) && CutsAreReferences(s, cs[i].value, cuts)
  {
    var c := cs[i].value;
    if s.allAttributesPrivate || (c.anonymous && redactAnonymous) {
      EverythingIsRedacted(s, c, false, redactAnonymous, vs[i]);
    } else if "_meta" !in c.attributes {
      OnlyReferencesAreRedacted(s, c, false, redactAnonymous, vs[i]);
    }
  }

  /** writeContextInternalMulti. */
  method WriteContextInternalMulti(f: EventContextFormatter, s: Settings, w: Writer, cs: seq<Option<EventContext>>, redactAnonymous: bool)
      returns (ghost vs: seq<Json>, ghost written: seq<Token>)
    requires f.Valid() && f.refs == s.global && f.allAttributesPrivate == s.allAttributesPrivate
    modifies w
    ensures w.tokens == old(w.tokens) + written
    ensures AreContextsJson(s, cs, redactAnonymous, vs) && Reads(Obj(MultiProps(cs, vs)), written)
  {
    w.Put(BeginObj);
    ghost var t := WriteStringField(w, "kind", "multi");
    vs := [];
    for i := 0 to |cs|
      invariant f.Valid() && w.tokens == old(w.tokens) + ([BeginObj] + t)
      invariant AreContextsJson(s, cs[..i], redactAnonymous, vs) && ReadsFields(MultiProps(cs[..i], vs), t)
    {
      ghost var written;
      vs, written := WriteNext(f, s, w, cs, i, redactAnonymous, vs, t);
      t := t + written;
    }
    assert cs[..|cs|] == cs;
    w.Put(EndObj);
    ReadsObject(MultiProps(cs, vs), t);
    written := [BeginObj] + t + [EndObj];
  }

  /** One round of its loop. */
  method WriteNext(f: EventContextFormatter, s: Settings, w: Writer, cs: seq<Option<EventContext>>, i: nat, redactAnonymous: bool,
                   ghost vs: seq<Json>, ghost t: seq<Token>) returns (ghost vs': seq<Json>, ghost written: seq<Token>)
    requires f.Valid() && f.refs == s.global && f.allAttributesPrivate == s.allAttributesPrivate && i < |cs|
    requires AreContextsJson(s, cs[..i], redactAnonymous, vs) && ReadsFields(MultiProps(cs[..i], vs), t)
    modifies w
    ensures w.tokens == old(w.tokens) + written
    ensures AreContextsJson(s, cs[..i + 1], redactAnonymous, vs') && ReadsFields(MultiProps(cs[..i + 1], vs'), t + written)
  {
    ghost var v: Json := Null;
    written := [];
    if cs[i].Some? {
      v, written := WriteIndividual(f, s, w, cs[i].value, redactAnonymous);
      ReadsBoth(MultiProps(cs[..i], vs), t, map[cs[i].value.kind := v], written);
    }
    MultiPropsAppend(cs[..i], vs, cs[i], v);
    assert cs[..i + 1] == cs[..i] + [cs[i]] && (cs[i].None? ==> t + written == t);
    vs' := vs + [v];
  }

  method WriteIndividual(f: EventContextFormatter, s: Settings, w: Writer, c: EventContext, redactAnonymous: bool)
      returns (ghost v: Json, ghost written: seq<Token>)
    requires f.Valid() && f.refs == s.global && f.allAttributesPrivate == s.allAttributesPrivate
    modifies w
    ensures w.tokens == old(w.tokens) + written
    ensures IsContextJson(s, c, false, redactAnonymous, v) && ReadsFields(map[c.kind := v], written)
  {
    w.Put(Name(c.kind));
    v, written := WriteContextInternalSingle(f, s, w, c, false, redactAnonymous);
    ReadsField(c.kind, v, written);
    written := [Name(c.kind)] + written;
  }
}
