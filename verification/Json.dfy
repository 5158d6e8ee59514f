/** JSON values, and the token stream that a jwriter.Writer produces for them.
    An object is a map, as in ldvalue: its properties are written in whatever order the map is walked. */
module Json {
  import opened Wrappers

  datatype Json =
    | Null
    | Bool(b: bool)
    | Num(n: real)
    | Str(s: string)
    | Arr(items: seq<Json>)
    | Obj(props: map<string, Json>)

  datatype Token =
    | BeginObj
    | EndObj
    | BeginArr
    | EndArr
    | Name(name: string)
    | Prim(v: Json)

  /** t is one of the token sequences that may be written for v. */
  ghost predicate Encodes(v: Json, t: seq<Token>)
    decreases |t|, 0
  {
    match v
    case Arr(items) => |t| >= 2 && t[0] == BeginArr && t[|t| - 1] == EndArr && EncodesItems(items, t[1..|t| - 1])
    case Obj(props) => |t| >= 2 && t[0] == BeginObj && t[|t| - 1] == EndObj && EncodesFields(props, t[1..|t| - 1])
    case _ => t == [Prim(v)]
  }

  /** t holds the encodings of the items, one after the other. */
  ghost predicate EncodesItems(items: seq<Json>, t: seq<Token>)
    decreases |t|, 2
  {
    if items == [] then t == []
    else exists i :: 0 <= i < |t| && LastItemFrom(items, t, i)
  }

  ghost predicate LastItemFrom(items: seq<Json>, t: seq<Token>, i: nat)
    requires items != [] && i < |t|
    decreases |t|, 1
  {
    EncodesItems(items[..|items| - 1], t[..i]) && Encodes(items[|items| - 1], t[i..])
  }

  /** t holds exactly the given properties, each written once, in some order. */
  ghost predicate EncodesFields(props: map<string, Json>, t: seq<Token>)
    decreases |t|, 2
  {
    if t == [] then props == map[]
    else exists i :: 0 <= i < |t| && LastFieldFrom(props, t, i)
  }

  ghost predicate LastFieldFrom(props: map<string, Json>, t: seq<Token>, i: nat)
    requires i < |t|
    decreases |t|, 1
  {
    && t[i].Name?
    && t[i].name in props
    && EncodesFields(props - {t[i].name}, t[..i])
    && Encodes(props[t[i].name], t[i + 1..])
  }

  lemma AppendItem(items: seq<Json>, t: seq<Token>, v: Json, u: seq<Token>)
    requires EncodesItems(items, t) && Encodes(v, u)
    ensures EncodesItems(items + [v], t + u)
  {
    EncodingNonEmpty(v, u);
    var all, toks := items + [v], t + u;
    assert all[..|all| - 1] == items && toks[..|t|] == t && toks[|t|..] == u;
    assert LastItemFrom(all, toks, |t|);
  }

  /** The step of a loop over the items. */
  lemma AppendNext(items: seq<Json>, i: nat, t: seq<Token>, u: seq<Token>)
    requires i < |items| && EncodesItems(items[..i], t) && Encodes(items[i], u)
    ensures EncodesItems(items[..i + 1], t + u)
  {
    AppendItem(items[..i], t, items[i], u);
    assert items[..i + 1] == items[..i] + [items[i]];
  }

  lemma AppendField(props: map<string, Json>, t: seq<Token>, k: string, v: Json, u: seq<Token>)
    requires EncodesFields(props, t) && k !in props && Encodes(v, u)
    ensures EncodesFields(props[k := v], t + ([Name(k)] + u))
  {
    var all, toks := props[k := v], t + ([Name(k)] + u);
    assert toks[..|t|] == t && toks[|t|] == Name(k) && toks[|t| + 1..] == u;
    assert all - {k} == props;
    assert LastFieldFrom(all, toks, |t|);
  }

  /** The step of a loop over the properties: rest are the keys still to be written. */
  lemma AppendRemaining(props: map<string, Json>, rest: set<string>, t: seq<Token>, k: string, u: seq<Token>)
    requires k in props && k in rest
    requires EncodesFields(props - rest, t) && Encodes(props[k], u)
    ensures EncodesFields(props - (rest - {k}), t + ([Name(k)] + u))
  {
    AppendField(props - rest, t, k, props[k], u);
    assert props - (rest - {k}) == (props - rest)[k := props[k]];
  }

  lemma WrapObject(props: map<string, Json>, t: seq<Token>)
    requires EncodesFields(props, t)
    ensures Encodes(Obj(props), [BeginObj] + t + [EndObj])
  {
    var toks := [BeginObj] + t + [EndObj];
    assert toks[1..|toks| - 1] == t;
  }

  lemma WrapArray(items: seq<Json>, t: seq<Token>)
    requires EncodesItems(items, t)
    ensures Encodes(Arr(items), [BeginArr] + t + [EndArr])
  {
    var toks := [BeginArr] + t + [EndArr];
    assert toks[1..|toks| - 1] == t;
  }

  lemma EncodingNonEmpty(v: Json, t: seq<Token>)
    requires Encodes(v, t)
    ensures t != []
  {
  }

  /** What a JSON reader makes of the front of t: the value and the tokens after it. */
  function Parse(t: seq<Token>): (r: Option<(Json, seq<Token>)>)
    ensures r.Some? ==> |r.value.1| < |t|
    decreases |t|, 0
  {
    if t == [] then None
    else match t[0]
      case Prim(v) => if v.Arr? || v.Obj? then None else Some((v, t[1..]))
      case BeginArr => ParseItems([], t[1..])
      case BeginObj => ParseFields(map[], t[1..])
      case _ => None
  }

  function ParseItems(acc: seq<Json>, t: seq<Token>): (r: Option<(Json, seq<Token>)>)
    ensures r.Some? ==> |r.value.1| < |t|
    decreases |t|, 1
  {
    if t == [] then None
    else if t[0] == EndArr then Some((Arr(acc), t[1..]))
    else match Parse(t)
      case None => None
      case Some((v, rest)) => ParseItems(acc + [v], rest)
  }

  function ParseFields(acc: map<string, Json>, t: seq<Token>): (r: Option<(Json, seq<Token>)>)
    ensures r.Some? ==> |r.value.1| < |t|
    decreases |t|, 1
  {
    if t == [] then None
    else if t[0] == EndObj then Some((Obj(acc), t[1..]))
    else if !t[0].Name? then None
    else match Parse(t[1..])
      case None => None
      case Some((v, rest)) => ParseFields(acc[t[0].name := v], rest)
  }

  /** Reading back what was written gives the value, whatever order its properties were written in. */
  lemma {:induction false} ParseEncoding(v: Json, t: seq<Token>, rest: seq<Token>)
    requires Encodes(v, t)
    ensures Parse(t + rest) == Some((v, rest))
    decreases |t|, 0
  {
    match v
    case Arr(items) =>
      var body := t[1..|t| - 1];
      assert (t + rest)[1..] == body + ([EndArr] + rest);
      ParseEncodedItems([], items, body, [EndArr] + rest);
      assert [] + items == items;
    case Obj(props) =>
      var body := t[1..|t| - 1];
      assert (t + rest)[1..] == body + ([EndObj] + rest);
      ParseEncodedFields(map[], props, body, [EndObj] + rest);
      assert map[] + props == props;
    case _ =>
      assert (t + rest)[1..] == rest;
  }

  lemma {:induction false} ParseEncodedItems(acc: seq<Json>, items: seq<Json>, t: seq<Token>, rest: seq<Token>)
    requires EncodesItems(items, t)
    ensures ParseItems(acc, t + rest) == ParseItems(acc + items, rest)
    decreases |t|, 1
  {
    if items == [] {
      assert t + rest == rest && acc + items == acc;
    } else {
      var i :| 0 <= i < |t| && LastItemFrom(items, t, i);
      var front, last := items[..|items| - 1], items[|items| - 1];
      assert t + rest == t[..i] + (t[i..] + rest);
      ParseEncodedItems(acc, front, t[..i], t[i..] + rest);
      ParseEncoding(last, t[i..], rest);
      assert t[i] != EndArr;
      assert acc + items == (acc + front) + [last];
    }
  }

  lemma {:induction false} ParseEncodedFields(acc: map<string, Json>, props: map<string, Json>, t: seq<Token>, rest: seq<Token>)
    requires EncodesFields(props, t)
    ensures ParseFields(acc, t + rest) == ParseFields(acc + props, rest)
    decreases |t|, 1
  {
    if t == [] {
      assert t + rest == rest && acc + props == acc;
    } else {
      var i :| 0 <= i < |t| && LastFieldFrom(props, t, i);
      var k := t[i].name;
      assert t + rest == t[..i] + (t[i..] + rest);
      ParseEncodedFields(acc, props - {k}, t[..i], t[i..] + rest);
      ParseLastField(acc + (props - {k}), k, props[k], t, i, rest);
      assert acc + props == (acc + (props - {k}))[k := props[k]];
    }
  }

  lemma {:induction false} ParseLastField(acc: map<string, Json>, k: string, v: Json, t: seq<Token>, i: nat, rest: seq<Token>)
    requires i < |t| && t[i] == Name(k) && Encodes(v, t[i + 1..])
    ensures ParseFields(acc, t[i..] + rest) == ParseFields(acc[k := v], rest)
    decreases |t| - i, 0
  {
    assert (t[i..] + rest)[1..] == t[i + 1..] + rest;
    ParseEncoding(v, t[i + 1..], rest);
  }

  /** A token sequence is the encoding of at most one value. */
  lemma EncodingIsUnambiguous(v: Json, w: Json, t: seq<Token>)
    requires Encodes(v, t) && Encodes(w, t)
    ensures v == w
  {
    ParseEncoding(v, t, []);
    ParseEncoding(w, t, []);
  }

  /** The writer that all of the output of one payload is appended to. */
  class Writer {
    var tokens: seq<Token>

    constructor ()
      ensures tokens == []
    {
      tokens := [];
    }

    method Put(t: Token)
      modifies this
      ensures tokens == old(tokens) + [t]
    {
      tokens := tokens + [t];
    }

    /** value.WriteToJSONWriter: appends the whole value, properties in any order. */
    method WriteValue(v: Json) returns (ghost written: seq<Token>)
      modifies this
      ensures tokens == old(tokens) + written
      ensures Encodes(v, written)
      decreases v, 2
    {
      match v
      case Arr(items) =>
        var body := WriteItems(items);
        WrapArray(items, body);
        written := [BeginArr] + body + [EndArr];
      case Obj(props) =>
        var body := WriteFields(v);
        WrapObject(props, body);
        written := [BeginObj] + body + [EndObj];
      case _ =>
        Put(Prim(v));
        written := [Prim(v)];
    }

    method WriteItems(items: seq<Json>) returns (ghost body: seq<Token>)
      modifies this
      ensures tokens == old(tokens) + ([BeginArr] + body + [EndArr])
      ensures EncodesItems(items, body)
      decreases items, 0
    {
      Put(BeginArr);
      body := [];
      for i := 0 to |items|
        invariant tokens == old(tokens) + ([BeginArr] + body)
        invariant EncodesItems(items[..i], body)
      {
        var u := WriteValue(items[i]);
        AppendNext(items, i, body, u);
        body := body + u;
      }
      assert items[..|items|] == items;
      Put(EndArr);
    }

    method WriteFields(v: Json) returns (ghost body: seq<Token>)
      requires v.Obj?
      modifies this
      ensures tokens == old(tokens) + ([BeginObj] + body + [EndObj])
      ensures EncodesFields(v.props, body)
      decreases v, 1
    {
      Put(BeginObj);
      body := [];
      var rest := v.props.Keys;
      while rest != {}
        invariant rest <= v.props.Keys
        invariant tokens == old(tokens) + ([BeginObj] + body)
        invariant EncodesFields(v.props - rest, body)
        decreases rest
      {
        var k :| k in rest;
        var u := WriteField(v, k);
        AppendRemaining(v.props, rest, body, k, u);
        body, rest := body + ([Name(k)] + u), rest - {k};
      }
      assert v.props - {} == v.props;
      Put(EndObj);
    }

    method WriteField(v: Json, k: string) returns (ghost u: seq<Token>)
      requires v.Obj? && k in v.props
      modifies this
      ensures tokens == old(tokens) + ([Name(k)] + u)
      ensures Encodes(v.props[k], u)
      decreases v, 0
    {
      Put(Name(k));
      u := WriteValue(v.props[k]);
    }
  }
}
