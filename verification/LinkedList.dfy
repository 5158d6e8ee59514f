/** The doubly linked list (Go's container/list) under the context-key cache: a ring of
    elements closed by a sentinel. */
module LinkedList {
  import opened Wrappers

  /** The sentinel has no value; an element outside any list has nil links. */
  class Element<T> {
    const value: Option<T>
    var next: Element?<T>
    var prev: Element?<T>

    constructor (value: Option<T>)
      ensures this.value == value && next == null && prev == null
    {
      this.value := value;
      next, prev := null, null;
    }
  }

  class List<T> {
    const root: Element<T>
    /** The elements from front to back. */
    ghost var elems: seq<Element<T>>

    /** The objects the list may write: itself, and every element it has held. */
    ghost var Repr: set<object>

    /** The element at position i of the ring; the sentinel is on both sides of the others. */
    ghost function At(i: int): (e: Element<T>)
      reads this
    {
      if 0 <= i < |elems| then elems[i] else root
    }

    ghost predicate Valid()
      reads this, Repr
    {
      && this in Repr && root in Repr
      && (forall i :: 0 <= i < |elems| ==> elems[i] in Repr)
      && root !in elems
      && (forall i, j :: 0 <= i < j < |elems| ==> elems[i] != elems[j])
      && (forall i :: 0 <= i <= |elems| ==> At(i).prev == At(i - 1))
      && (forall i :: -1 <= i < |elems| ==> At(i).next == At(i + 1))
    }

    constructor ()
      ensures Valid() && fresh(Repr) && elems == []
    {
      root := new Element<T>(None);
      elems := [];
      new;
      root.next, root.prev := root, root;
      Repr := {this, root};
    }

    /** Empties the list; the elements that were in it are left as they are. */
    method Init()
      requires Valid()
      modifies Repr
      ensures Valid() && elems == [] && Repr == old(Repr)
    {
      root.next, root.prev := root, root;
      elems := [];
    }

    /** The last element, or nil if the list is empty. */
    method Back() returns (e: Element?<T>)
      requires Valid()
      ensures if elems == [] then e == null else e == elems[|elems| - 1]
    {
      assert root.prev == At(|elems|).prev == At(|elems| - 1);
      e := if root.prev == root then null else root.prev;
    }

    /** Takes element number i out of the ring. */
    method Remove(e: Element<T>, ghost i: nat)
      requires Valid() && i < |elems| && elems[i] == e
      modifies Repr
      ensures Valid() && elems == old(elems[..i] + elems[i + 1..]) && Repr == old(Repr)
      ensures e.next == null && e.prev == null
    {
      assert e.prev == At(i).prev == At(i - 1) && e.next == At(i).next == At(i + 1);
      e.prev.next := e.next;
      e.next.prev := e.prev;
      e.next, e.prev := null, null;
      elems := elems[..i] + elems[i + 1..];
      assert forall k :: -1 <= k < i ==> At(k) == old(At(k));
      assert forall k :: i <= k <= |elems| ==> At(k) == old(At(k + 1));
      forall k | -1 <= k < |elems| ensures At(k).next == At(k + 1) {
        assert k < i ==> old(At(k).next == At(k + 1));
        assert k >= i ==> old(At(k + 1).next == At(k + 2));
      }
      forall k | 0 <= k <= |elems| ensures At(k).prev == At(k - 1) {
        assert k <= i ==> old(At(k).prev == At(k - 1));
        assert k > i ==> old(At(k + 1).prev == At(k));
      }
    }

    /** Links an element that is in no list in front of the others. */
    method InsertFront(e: Element<T>)
      requires Valid() && e !in elems && e != root
      modifies Repr, e
      ensures Valid() && elems == [e] + old(elems) && Repr == old(Repr) + {e}
    {
      assert root.next == At(-1).next == At(0);
      e.prev := root;
      e.next := root.next;
      e.next.prev := e;
      e.prev.next := e;
      elems := [e] + elems;
      Repr := Repr + {e};
      assert forall k :: -1 <= k <= |elems| && k != 0 ==> At(k) == if k < 0 then root else old(At(k - 1));
    }

    method PushFront(value: T) returns (e: Element<T>)
      requires Valid()
      modifies Repr
      ensures Valid() && fresh(e) && e.value == Some(value) && elems == [e] + old(elems)
      ensures Repr == old(Repr) + {e}
    {
      e := new Element<T>(Some(value));
      InsertFront(e);
    }

    /** Element number i becomes the first one. */
    method MoveToFront(e: Element<T>, ghost i: nat)
      requires Valid() && i < |elems| && elems[i] == e
      modifies Repr
      ensures Valid() && elems == [e] + old(elems[..i] + elems[i + 1..]) && Repr == old(Repr)
    {
      assert root.next == At(-1).next == At(0);
      if root.next == e {
        return;
      }
      Remove(e, i);
      InsertFront(e);
    }
  }
}
