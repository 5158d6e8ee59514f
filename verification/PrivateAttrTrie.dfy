/** The lookup trie of private attribute references, built in place and walked by path. */
module PrivateAttrTrie {
  import opened Wrappers
  import opened PrivateRefs

  /** A node; children is None for the nil map. */
  class LookupNode {
    var attribute: Option<Ref>
    var children: Option<map<string, LookupNode>>
    /** Where in the trie the node is. */
    ghost const path: Path

    constructor (ghost path: Path, attribute: Option<Ref>)
      ensures this.path == path && this.attribute == attribute && children == None
    {
      this.path, this.attribute, children := path, attribute, None;
    }

    function Child(name: string): (c: Option<LookupNode>)
      reads this
    {
      if children.Some? && name in children.value then Some(children.value[name]) else None
    }
  }

  ghost function Parent(p: Path): Path
    requires p != []
  {
    p[..|p| - 1]
  }

  ghost function Last(p: Path): string
    requires p != []
  {
    p[|p| - 1]
  }

  ghost predicate Labelled(nodeAt: map<Path, LookupNode>) {
    forall p :: p in nodeAt ==> nodeAt[p].path == p
  }

  /** Children are the nodes one component further down. */
  ghost predicate LinksDown(nodeAt: map<Path, LookupNode>)
    reads nodeAt.Values
  {
    forall p, name :: p in nodeAt && nodeAt[p].Child(name).Some? ==> ChildAt(nodeAt, p, name, nodeAt[p].Child(name).value)
  }

  ghost predicate ChildAt(nodeAt: map<Path, LookupNode>, p: Path, name: string, c: LookupNode) {
    c.path == p + [name] && c.path in nodeAt && nodeAt[c.path] == c
  }

  /** Every node but the root is a child of the one above. */
  ghost predicate LinksUp(nodeAt: map<Path, LookupNode>)
    reads nodeAt.Values
  {
    forall q {:trigger HasParent(nodeAt, q)} :: q in nodeAt && q != [] ==> HasParent(nodeAt, q)
  }

  ghost predicate HasParent(nodeAt: map<Path, LookupNode>, q: Path)
    requires q != [] && q in nodeAt
    reads nodeAt.Values
  {
    Parent(q) in nodeAt && nodeAt[Parent(q)].Child(Last(q)) == Some(nodeAt[q])
  }

  ghost predicate Holds(nodeAt: map<Path, LookupNode>, contents: Trie)
    reads nodeAt.Values
  {
    forall p :: (p in nodeAt <==> p in contents) && (p in nodeAt ==> nodeAt[p].attribute == contents[p])
  }

  /** A map of children is only made to put a child in it. */
  ghost predicate NoEmptyMaps(nodeAt: map<Path, LookupNode>)
    reads nodeAt.Values
  {
    forall p :: p in nodeAt && p != [] && nodeAt[p].children.Some? ==> nodeAt[p].children.value.Keys != {}
  }

  /** The nodes below root, found at their paths, make up the trie with the given contents. The root
      stands for the outermost map: only its children are used. */
  ghost predicate IsTrie(root: LookupNode, nodeAt: map<Path, LookupNode>, contents: Trie)
    reads nodeAt.Values
  {
    && [] in nodeAt && nodeAt[[]] == root && root.children.Some?
    && Labelled(nodeAt)
    && LinksDown(nodeAt)
    && LinksUp(nodeAt)
    && Holds(nodeAt, contents)
    && NoEmptyMaps(nodeAt)
  }

  lemma NewChildIsNew(nodeAt: map<Path, LookupNode>, p: Path, name: string)
    requires LinksUp(nodeAt) && p in nodeAt && nodeAt[p].Child(name) == None
    ensures p + [name] !in nodeAt
  {
    var q := p + [name];
    assert Parent(q) == p && Last(q) == name;
    assert q in nodeAt ==> HasParent(nodeAt, q);
  }

  /** Puts a new node under the one at p. */
  method AddChild(parent: LookupNode, name: string, attribute: Option<Ref>,
                  ghost root: LookupNode, ghost nodeAt: map<Path, LookupNode>, ghost contents: Trie, ghost p: Path)
      returns (node: LookupNode)
    requires IsTrie(root, nodeAt, contents) && p in nodeAt && nodeAt[p] == parent && parent.Child(name) == None
    modifies parent
    ensures fresh(node)
    ensures IsTrie(root, nodeAt[p + [name] := node], contents[p + [name] := attribute])
  {
    NewChildIsNew(nodeAt, p, name);
    node := new LookupNode(p + [name], attribute);
    if parent.children == None {
      parent.children := Some(map[]);
    }
    parent.children := Some(parent.children.value[name := node]);
    ghost var q := p + [name];
    ghost var after := nodeAt[q := node];
    assert LinksDown(after) by {
      forall r, n | r in after && after[r].Child(n).Some? ensures ChildAt(after, r, n, after[r].Child(n).value) {
        if r != q && !(r == p && n == name) {
          assert old(nodeAt[r].Child(n)) == after[r].Child(n);
          assert ChildAt(nodeAt, r, n, after[r].Child(n).value);
        }
      }
    }
    assert LinksUp(after) by {
      forall r | r in after && r != [] ensures HasParent(after, r) {
        assert r == Parent(r) + [Last(r)];
        if r != q {
          assert old(HasParent(nodeAt, r));
          assert old(nodeAt[Parent(r)].Child(Last(r))) == after[Parent(r)].Child(Last(r));
        }
      }
    }
    assert name in parent.children.value.Keys;
  }

  /** makePrivateAttrLookupData. */
  method MakeLookupData(refs: seq<Ref>) returns (root: LookupNode, ghost nodeAt: map<Path, LookupNode>)
    ensures IsTrie(root, nodeAt, TrieOf(refs)) && fresh(nodeAt.Values)
  {
    root := new LookupNode([], None);
    root.children := Some(map[]);
    nodeAt := map[[] := root];
    for k := 0 to |refs|
      invariant IsTrie(root, nodeAt, TrieOf(refs[..k]))
      invariant fresh(nodeAt.Values)
    {
      nodeAt := AddReference(refs[k], root, nodeAt, TrieOf(refs[..k]));
      assert refs[..k + 1][..k] == refs[..k];
    }
    assert refs[..|refs|] == refs;
  }

  /** One round of its loop. */
  method AddReference(a: Ref, root: LookupNode, ghost before: map<Path, LookupNode>, ghost contents: Trie)
      returns (ghost nodeAt: map<Path, LookupNode>)
    requires IsTrie(root, before, contents)
    modifies before.Values
    ensures IsTrie(root, nodeAt, WithPrefixes(contents, a, |a.components|))
    ensures fresh(nodeAt.Values - before.Values)
  {
    nodeAt := before;
    var parent := root;
    for i := 0 to |a.components|
      invariant IsTrie(root, nodeAt, WithPrefixes(contents, a, i))
      invariant a.components[..i] in nodeAt && nodeAt[a.components[..i]] == parent
      invariant fresh(nodeAt.Values - before.Values)
    {
      nodeAt, parent := Descend(a, i, parent, root, nodeAt, contents);
    }
  }

  /** Goes to the node of the next component, which is made if it is not there. */
  method Descend(a: Ref, i: nat, parent: LookupNode, ghost root: LookupNode, ghost before: map<Path, LookupNode>, ghost contents: Trie)
      returns (ghost nodeAt: map<Path, LookupNode>, next: LookupNode)
    requires i < |a.components| && IsTrie(root, before, WithPrefixes(contents, a, i))
    requires a.components[..i] in before && before[a.components[..i]] == parent
    modifies parent
    ensures IsTrie(root, nodeAt, WithPrefixes(contents, a, i + 1))
    ensures a.components[..i + 1] in nodeAt && nodeAt[a.components[..i + 1]] == next
    ensures nodeAt == before || (fresh(next) && nodeAt == before[a.components[..i + 1] := next])
  {
    var name := a.components[i];
    ghost var p := a.components[..i];
    assert a.components[..i + 1] == p + [name];
    var child := parent.Child(name);
    if child.Some? {
      assert ChildAt(before, p, name, child.value);
      nodeAt, next := before, child.value;
    } else {
      NewChildIsNew(before, p, name);
      var attribute := if i == |a.components| - 1 then Some(a) else None;
      next := AddChild(parent, name, attribute, root, before, WithPrefixes(contents, a, i), p);
      nodeAt := before[p + [name] := next];
      if i == |a.components| - 1 {
        assert a.components[..i + 1] == a.components;
      }
    }
  }

  lemma ChildrenIff(root: LookupNode, nodeAt: map<Path, LookupNode>, t: Trie, p: Path)
    requires IsTrie(root, nodeAt, t) && p in nodeAt && p != []
    ensures nodeAt[p].children.Some? <==> HasChildren(t, p)
  {
    if nodeAt[p].children.Some? {
      var name :| name in nodeAt[p].children.value.Keys;
      assert nodeAt[p].Child(name).Some?;
      assert ChildAt(nodeAt, p, name, nodeAt[p].Child(name).value);
      assert p + [name] in t;
    }
    if HasChildren(t, p) {
      var name: string :| p + [name] in t;
      var q := p + [name];
      assert Parent(q) == p && Last(q) == name;
      assert HasParent(nodeAt, q);
    }
  }

  lemma ChildIff(root: LookupNode, nodeAt: map<Path, LookupNode>, t: Trie, p: Path, name: string)
    requires IsTrie(root, nodeAt, t) && p in nodeAt
    ensures nodeAt[p].Child(name).Some? <==> p + [name] in t
    ensures p + [name] in t ==> p + [name] in nodeAt && nodeAt[p].Child(name).value == nodeAt[p + [name]]
  {
    var q := p + [name];
    assert Parent(q) == p && Last(q) == name;
    if nodeAt[p].Child(name).Some? {
      assert ChildAt(nodeAt, p, name, nodeAt[p].Child(name).value);
    }
    assert q in nodeAt ==> HasParent(nodeAt, q);
  }

  /** checkGlobalPrivateAttrRefs; root is null if no private attributes were configured. */
  method CheckGlobalPrivateAttrRefs(root: LookupNode?, attrPath: Path, ghost nodeAt: map<Path, LookupNode>, ghost refs: seq<Ref>)
      returns (redacted: Option<Ref>, nested: bool)
    requires if root == null then refs == [] else IsTrie(root, nodeAt, TrieOf(refs))
    ensures (redacted, nested) == Walk(TrieOf(refs), [], attrPath, 0)
  {
    redacted, nested := None, false;
    if root == null {
      assert forall n: string :: [n] !in TrieOf(refs);
      assert attrPath != [] ==> [] + [attrPath[0]] == [attrPath[0]];
      return;
    }
    var lookup: LookupNode := root;
    ghost var at: Path := [];
    for i := 0 to |attrPath|
      invariant redacted == None && !nested
      invariant at in nodeAt && nodeAt[at] == lookup
      invariant Walk(TrieOf(refs), [], attrPath, 0) == Walk(TrieOf(refs), at, attrPath, i)
    {
      ChildIff(root, nodeAt, TrieOf(refs), at, attrPath[i]);
      var next := lookup.Child(attrPath[i]);
      if next == None {
        return;
      }
      ghost var p := at + [attrPath[i]];
      if i == |attrPath| - 1 {
        if next.value.attribute != None {
          return next.value.attribute, false;
        }
        return None, true;
      }
      ChildrenIff(root, nodeAt, TrieOf(refs), p);
      if next.value.children != None {
        lookup, at := next.value, p;
      }
    }
  }
}
