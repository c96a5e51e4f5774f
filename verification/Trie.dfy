/** A byte-keyed trie changed in place. Follows internal/x/bytetrie/bytetrie.go.
    A node is identified by its path from the root, so the nodes are one map. */
module ByteTries {
  import opened Options

  newtype byte = x: int | 0 <= x < 256

  type Bytes = seq<byte>

  datatype Node<V> = Node(children: set<byte>, value: Option<V>)

  type Nodes<V> = map<Bytes, Node<V>>

  // ---- what a set of nodes stands for --------------------------------------

  function Stored<V>(nodes: Nodes<V>): map<Bytes, V> {
    map key | key in nodes && nodes[key].value.Some? :: nodes[key].value.value
  }

  predicate HasChild<V>(nodes: Nodes<V>, path: Bytes, b: byte) {
    path in nodes && b in nodes[path].children
  }

  /** A node's children are exactly the nodes one byte further. */
  ghost predicate Linked<V>(nodes: Nodes<V>) {
    forall path: Bytes, b: byte :: HasChild(nodes, path, b) <==> path + [b] in nodes
  }

  ghost predicate Leads<V>(nodes: Nodes<V>, path: Bytes) {
    exists key :: key in Stored(nodes) && path <= key
  }

  /** No key is empty, and no branch is dead: each node leads to a stored key. */
  ghost predicate Sound<V>(nodes: Nodes<V>) {
    Linked(nodes) && [] !in Stored(nodes) && forall path :: path in nodes ==> Leads(nodes, path)
  }

  lemma {:induction false} PrefixIsNode<V>(nodes: Nodes<V>, path: Bytes, n: nat)
    requires Linked(nodes) && path in nodes && n <= |path|
    ensures path[..n] in nodes
    decreases |path|
  {
    if n < |path| {
      var parent := path[..|path| - 1];
      assert parent + [path[|path| - 1]] == path;
      assert HasChild(nodes, parent, path[|path| - 1]);
      PrefixIsNode(nodes, parent, n);
      assert parent[..n] == path[..n];
    } else {
      assert path[..n] == path;
    }
  }

  /** A node's path names a child at every step. */
  lemma PathNamesChild<V>(nodes: Nodes<V>, path: Bytes, n: nat)
    requires Linked(nodes) && path in nodes && n < |path|
    ensures HasChild(nodes, path[..n], path[n])
  {
    PrefixIsNode(nodes, path, n + 1);
    assert path[..n + 1] == path[..n] + [path[n]];
  }

  function Stepped<V>(nodes: Nodes<V>, path: Bytes, b: byte): Nodes<V>
    requires path in nodes
  {
    if b in nodes[path].children then nodes
    else nodes[path := nodes[path].(children := nodes[path].children + {b})][path + [b] := Node({}, None)]
  }

  lemma SteppedLinks<V>(nodes: Nodes<V>, path: Bytes, b: byte)
    requires Linked(nodes) && path in nodes && !HasChild(nodes, path, b)
    ensures Linked(Stepped(nodes, path, b))
  {
    var next, child := Stepped(nodes, path, b), path + [b];
    assert child !in nodes;
    forall p: Bytes, c: byte ensures HasChild(next, p, c) <==> p + [c] in next {
      assert HasChild(nodes, p, c) <==> p + [c] in nodes;
      assert p + [c] != p && path != child;
      if p + [c] == child {
        assert p == (p + [c])[..|p|] == child[..|path|] == path && c == child[|path|] == b;
      }
    }
  }

  lemma StepKeeps<V>(nodes: Nodes<V>, path: Bytes, b: byte)
    requires Linked(nodes) && path in nodes
    ensures var next := Stepped(nodes, path, b);
      Linked(next) && path + [b] in next && Stored(next) == Stored(nodes) && next.Keys == nodes.Keys + {path + [b]}
  {
    assert HasChild(nodes, path, b) <==> path + [b] in nodes;
    if !HasChild(nodes, path, b) {
      SteppedLinks(nodes, path, b);
      assert path != path + [b];
      var next := Stepped(nodes, path, b);
      assert forall p :: p in nodes ==> p in next && next[p].value == nodes[p].value;
    }
  }

  /** Giving a node a value. */
  function Valued<V>(nodes: Nodes<V>, key: Bytes, value: V): Nodes<V>
    requires key in nodes
  {
    nodes[key := nodes[key].(value := Some(value))]
  }

  lemma ValuedLinks<V>(nodes: Nodes<V>, key: Bytes, value: V)
    requires Linked(nodes) && key in nodes
    ensures Linked(Valued(nodes, key, value))
  {
    var next := Valued(nodes, key, value);
    forall p: Bytes, c: byte ensures HasChild(next, p, c) <==> p + [c] in next {
      assert HasChild(nodes, p, c) <==> p + [c] in nodes;
    }
  }

  lemma ValuedStores<V>(nodes: Nodes<V>, key: Bytes, value: V)
    requires key in nodes
    ensures Stored(Valued(nodes, key, value)) == Stored(nodes)[key := value]
  {
  }

  lemma LeadsStill<V>(before: Nodes<V>, next: Nodes<V>, path: Bytes)
    requires Leads(before, path) && Stored(before).Keys <= Stored(next).Keys
    ensures Leads(next, path)
  {
    var key :| key in Stored(before) && path <= key;
    assert key in Stored(next);
  }

  lemma ValuedIsSound<V>(before: Nodes<V>, grown: Nodes<V>, key: Bytes, value: V)
    requires Sound(before) && Linked(grown) && key in grown && key != [] && Stored(grown) == Stored(before)
    requires forall path :: path in grown ==> path in before || path <= key
    ensures var next := Valued(grown, key, value); Sound(next) && Stored(next) == Stored(before)[key := value]
  {
    var next := Valued(grown, key, value);
    ValuedLinks(grown, key, value);
    ValuedStores(grown, key, value);
    forall path | path in next ensures Leads(next, path) {
      if path in before {
        LeadsStill(before, next, path);
      } else {
        assert key in Stored(next);
      }
    }
  }

  /** Where a walk stops short, no stored key is p from there on or starts with it. */
  lemma NothingBeyond<V>(nodes: Nodes<V>, p: Bytes, i: nat)
    requires Linked(nodes) && i < |p| && p[..i] in nodes && p[i] !in nodes[p[..i]].children
    ensures forall k :: i < k <= |p| ==> p[..k] !in Stored(nodes)
    ensures forall key :: key in Stored(nodes) ==> !(p <= key)
  {
    forall key | key in nodes && |key| > i ensures key[..i + 1] != p[..i + 1] {
      PathNamesChild(nodes, key, i);
      assert key[..i + 1] == key[..i] + [key[i]] && p[..i + 1] == p[..i] + [p[i]];
    }
    forall k | i < k <= |p| ensures p[..k] !in Stored(nodes) {
      assert p[..k][..i + 1] == p[..i + 1];
    }
    forall key | key in Stored(nodes) && |p| <= |key| ensures !(p <= key) {
      assert key[..|p|][..i + 1] == key[..i + 1];
    }
  }

  /** At the end of a walk, a longer key follows exactly when there are children. */
  lemma ChildrenMeanMore<V>(nodes: Nodes<V>, p: Bytes)
    requires Sound(nodes) && p in nodes
    ensures nodes[p].children != {} <==> exists key :: key in Stored(nodes) && p < key
  {
    if b :| b in nodes[p].children {
      assert HasChild(nodes, p, b) && p + [b] in nodes && Leads(nodes, p + [b]);
      var key :| key in Stored(nodes) && p + [b] <= key;
      assert p < key;
    }
    if key :| key in Stored(nodes) && p < key {
      PathNamesChild(nodes, key, |p|);
      assert key[..|p|] == p;
    }
  }

  lemma RootUnlessEmpty<V>(nodes: Nodes<V>)
    requires Linked(nodes)
    ensures nodes == map[] || [] in nodes
  {
    if path :| path in nodes {
      PrefixIsNode(nodes, path, 0);
      assert path[..0] == [];
    }
  }

  lemma LinkedRoot<V>(nodes: Nodes<V>)
    requires nodes == map[[] := Node({}, None)]
    ensures Linked(nodes)
  {
    forall p: Bytes, c: byte ensures HasChild(nodes, p, c) <==> p + [c] in nodes {
      assert p + [c] != [];
    }
  }

  // ---- the trie ------------------------------------------------------------

  class Trie<V> {
    /** No root until something is stored. */
    var nodes: Nodes<V>

    ghost predicate Valid()
      reads this
    {
      Sound(nodes)
    }

    ghost function Contents(): map<Bytes, V>
      reads this
    {
      Stored(nodes)
    }

    constructor ()
      ensures Valid() && Contents() == map[]
    {
      nodes := map[];
    }

    /** Follows b from the node at path, which gets that child if it had none. */
    method Descend(path: Bytes, b: byte)
      requires Linked(nodes) && path in nodes
      modifies this
      ensures nodes == Stepped(old(nodes), path, b)
      ensures Linked(nodes) && Stored(nodes) == Stored(old(nodes)) && nodes.Keys == old(nodes).Keys + {path + [b]}
    {
      StepKeeps(nodes, path, b);
      if b !in nodes[path].children {
        nodes := nodes[path := nodes[path].(children := nodes[path].children + {b})][path + [b] := Node({}, None)];
      }
    }

    /** Stores value under key in place of what was there; an empty key is ignored. */
    method Put(key: Bytes, value: V)
      requires Valid()
      modifies this
      ensures Valid() && Contents() == if key == [] then old(Contents()) else old(Contents())[key := value]
    {
      if key == [] {
        return;
      }
      ghost var before := nodes;
      if [] !in nodes {
        RootUnlessEmpty(nodes);
        nodes := map[[] := Node({}, None)];
        LinkedRoot(nodes);
      }
      for i := 0 to |key|
        invariant Linked(nodes) && key[..i] in nodes && Stored(nodes) == Stored(before)
        invariant forall path :: path in nodes ==> path in before || path <= key[..i]
      {
        Descend(key[..i], key[i]);
        assert key[..i] + [key[i]] == key[..i + 1];
      }
      assert key[..|key|] == key;
      ValuedIsSound(before, nodes, key, value);
      nodes := nodes[key := nodes[key].(value := Some(value))];
    }

    /** The longest stored key that p starts with, with its value; and whether
        some longer stored key starts with p. */
    method Lookup(p: Bytes) returns (n: nat, value: Option<V>, partial: bool)
      requires Valid()
      ensures n <= |p| && (n == 0 <==> value == None)
      ensures n > 0 ==> p[..n] in Contents() && value == Some(Contents()[p[..n]])
      ensures forall k :: n < k <= |p| ==> p[..k] !in Contents()
      ensures partial <==> exists key :: key in Contents() && p < key
    {
      n, value := 0, None;
      if [] !in nodes {
        RootUnlessEmpty(nodes);
        return 0, None, false;
      }
      for i := 0 to |p|
        invariant p[..i] in nodes && n <= i && (n == 0 <==> value == None)
        invariant n > 0 ==> p[..n] in Stored(nodes) && value == Some(Stored(nodes)[p[..n]])
        invariant forall k :: n < k <= i ==> p[..k] !in Stored(nodes)
      {
        assert p[..i] + [p[i]] == p[..i + 1];
        if p[i] !in nodes[p[..i]].children {
          NothingBeyond(nodes, p, i);
          return n, value, false;
        }
        if nodes[p[..i + 1]].value.Some? {
          n, value := i + 1, nodes[p[..i + 1]].value;
        }
      }
      assert p[..|p|] == p;
      ChildrenMeanMore(nodes, p);
      return n, value, nodes[p].children != {};
    }
  }
}
