/** Go slices of strings, as far as the order of writes to a shared backing array matters. */
module Slices {

  /** The first len cells of an array that other slices may share. */
  datatype Slice = Slice(arr: array<string>, len: nat) {
    predicate Valid() {
      len <= arr.Length
    }

    function Elements(): (s: seq<string>)
      requires Valid()
      reads arr
    {
      arr[..len]
    }
  }

  /** append: takes the next cell of the backing array, whoever else may be using it, or else moves to
      a larger array. What s itself holds stays as it was. */
  method Append(s: Slice, x: string) returns (r: Slice)
    requires s.Valid()
    modifies s.arr
    ensures r.Valid() && (r.arr == s.arr || fresh(r.arr))
    ensures r.Elements() == old(s.Elements()) + [x]
    ensures s.Elements() == old(s.Elements())
  {
    var arr := s.arr;
    if s.len == arr.Length {
      arr := new string[2 * s.len + 1];
      for i := 0 to s.len
        invariant arr[..i] == s.arr[..i]
        invariant s.arr[..] == old(s.arr[..])
      {
        arr[i] := s.arr[i];
      }
    }
    arr[s.len] := x;
    r := Slice(arr, s.len + 1);
  }

  /** A list that is appended to through a pointer to it. */
  class StringList {
    var items: seq<string>

    constructor ()
      ensures items == []
    {
      items := [];
    }

    method Add(s: string)
      modifies this
      ensures items == old(items) + [s]
    {
      items := items + [s];
    }
  }
}
