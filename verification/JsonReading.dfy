/** Reading written output piece by piece: objects whose properties are written in several steps, where
    a reader lets the last of several properties of one name win. */
module JsonReading {
  import opened Wrappers
  import opened Json

  /** A reader that comes to t makes v of it, whatever follows. */
  ghost predicate Reads(v: Json, t: seq<Token>) {
    forall rest :: Parse(t + rest) == Some((v, rest))
  }

  /** A reader inside an object that comes to t takes in the given properties. */
  ghost predicate ReadsFields(props: map<string, Json>, t: seq<Token>) {
    forall acc, rest :: ReadsFieldsInto(acc, props, t, rest)
  }

  ghost predicate ReadsFieldsInto(acc: map<string, Json>, props: map<string, Json>, t: seq<Token>, rest: seq<Token>) {
    ParseFields(acc, t + rest) == ParseFields(acc + props, rest)
  }

  lemma ReadsEncoding(v: Json, t: seq<Token>)
    requires Encodes(v, t)
    ensures Reads(v, t)
  {
    forall rest ensures Parse(t + rest) == Some((v, rest)) {
      ParseEncoding(v, t, rest);
    }
  }

  lemma ReadsEncodedFields(props: map<string, Json>, t: seq<Token>)
    requires EncodesFields(props, t)
    ensures ReadsFields(props, t)
  {
    forall acc, rest ensures ReadsFieldsInto(acc, props, t, rest) {
      ParseEncodedFields(acc, props, t, rest);
    }
  }

  lemma ReadsNothing()
    ensures ReadsFields(map[], [])
  {
    ReadsEncodedFields(map[], []);
  }

  lemma ReadsField(k: string, v: Json, t: seq<Token>)
    requires Reads(v, t)
    ensures ReadsFields(map[k := v], [Name(k)] + t)
  {
    forall acc, rest ensures ReadsFieldsInto(acc, map[k := v], [Name(k)] + t, rest) {
      assert (([Name(k)] + t) + rest)[1..] == t + rest;
      assert acc[k := v] == acc + map[k := v];
    }
  }

  lemma ReadsBoth(a: map<string, Json>, t: seq<Token>, b: map<string, Json>, u: seq<Token>)
    requires ReadsFields(a, t) && ReadsFields(b, u)
    ensures ReadsFields(a + b, t + u)
  {
    forall acc, rest ensures ReadsFieldsInto(acc, a + b, t + u, rest) {
      assert ReadsFieldsInto(acc, a, t, u + rest) && ReadsFieldsInto(acc + a, b, u, rest);
      assert (t + u) + rest == t + (u + rest);
      assert acc + (a + b) == (acc + a) + b;
    }
  }

  lemma ReadsObject(props: map<string, Json>, t: seq<Token>)
    requires ReadsFields(props, t)
    ensures Reads(Obj(props), [BeginObj] + t + [EndObj])
  {
    forall rest ensures Parse([BeginObj] + t + [EndObj] + rest) == Some((Obj(props), rest)) {
      assert ([BeginObj] + t + [EndObj] + rest)[1..] == t + ([EndObj] + rest);
      assert ([EndObj] + rest)[1..] == rest;
      assert map[] + props == props;
      assert ReadsFieldsInto(map[], props, t, [EndObj] + rest);
    }
  }

  /** A reader inside an array that comes to t takes in the given items. */
  ghost predicate ReadsItems(items: seq<Json>, t: seq<Token>) {
    forall acc, rest :: ReadsItemsInto(acc, items, t, rest)
  }

  ghost predicate ReadsItemsInto(acc: seq<Json>, items: seq<Json>, t: seq<Token>, rest: seq<Token>) {
    ParseItems(acc, t + rest) == ParseItems(acc + items, rest)
  }

  lemma ReadsEncodedItems(items: seq<Json>, t: seq<Token>)
    requires EncodesItems(items, t)
    ensures ReadsItems(items, t)
  {
    forall acc, rest ensures ReadsItemsInto(acc, items, t, rest) {
      ParseEncodedItems(acc, items, t, rest);
    }
  }

  lemma ReadsMoreItems(a: seq<Json>, t: seq<Token>, b: seq<Json>, u: seq<Token>)
    requires ReadsItems(a, t) && ReadsItems(b, u)
    ensures ReadsItems(a + b, t + u)
  {
    forall acc, rest ensures ReadsItemsInto(acc, a + b, t + u, rest) {
      assert ReadsItemsInto(acc, a, t, u + rest) && ReadsItemsInto(acc + a, b, u, rest);
      assert (t + u) + rest == t + (u + rest);
      assert acc + (a + b) == (acc + a) + b;
    }
  }

  lemma ReadsArray(items: seq<Json>, t: seq<Token>)
    requires ReadsItems(items, t)
    ensures Reads(Arr(items), [BeginArr] + t + [EndArr])
  {
    forall rest ensures Parse([BeginArr] + t + [EndArr] + rest) == Some((Arr(items), rest)) {
      assert ([BeginArr] + t + [EndArr] + rest)[1..] == t + ([EndArr] + rest);
      assert ([EndArr] + rest)[1..] == rest;
      assert [] + items == items;
      assert ReadsItemsInto([], items, t, [EndArr] + rest);
    }
  }
}
