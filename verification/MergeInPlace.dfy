/**
 The merge as the Go program runs it: maps are objects on the heap, the destination is updated
 in place, and whole subtrees of the source end up shared by both trees.
 */
module MergeInPlace {
  import opened ConfigTree
  import opened DeepMerge

  datatype Ref = Nil | Plain(value: Value) | Sub(node: Node)

  /**
   A mutable string-keyed map. `repr` is the set of map objects of the tree it is the root of,
   and `tree` the value that this tree represents.
   */
  class Node {
    var entries: map<string, Ref>
    ghost var repr: set<Node>
    ghost var tree: map<string, Value>

    constructor ()
      ensures Valid() && repr == {this} && tree == map[]
    {
      entries := map[];
      repr := {this};
      tree := map[];
    }

    /** The entry `r` stands for `v`, and the map below it, if any, belongs to this tree. */
    ghost predicate Represents(r: Ref, v: Value)
      reads this, repr
      decreases repr, 0
    {
      match r
      case Nil => v == Null
      case Plain(value) => IsLeaf(value) && v == value
      case Sub(node) =>
        this in repr && node in repr && node.repr <= repr - {this} && node.Valid() && v == Map(node.tree)
    }

    /** The object graph below this node is a finite tree. */
    ghost predicate Valid()
      reads this, repr
      decreases repr, 1
    {
      && this in repr
      && tree.Keys == entries.Keys
      && (forall k <- entries :: Represents(entries[k], tree[k]))
      && (forall k <- entries, l <- entries :: k != l && entries[k].Sub? && entries[l].Sub? ==>
            entries[k].node.repr !! entries[l].node.repr)
    }

    /** Valid, except that the entry at `k` is about to be replaced. */
    ghost predicate ValidBut(k: string)
      reads this, repr
    {
      && this in repr
      && tree.Keys == entries.Keys
      && (forall l <- entries :: l != k ==> Represents(entries[l], tree[l]))
      && (forall l <- entries, m <- entries :: l != k && m != k && l != m && entries[l].Sub? && entries[m].Sub? ==>
            entries[l].node.repr !! entries[m].node.repr)
    }

    /** `dst[k] = v`, where `v` may be a tree of its own. */
    method Put(k: string, v: Ref)
      requires ValidBut(k)
      requires v.Plain? ==> IsLeaf(v.value)
      requires v.Sub? ==> v.node.Valid() && this !in v.node.repr
      requires v.Sub? ==> forall l <- entries :: l != k && entries[l].Sub? ==> entries[l].node.repr !! v.node.repr
      modifies this
      ensures Valid()
      ensures entries == old(entries)[k := v]
      ensures repr == old(repr) + Nodes(v)
      ensures tree == old(tree)[k := RefTree(v)]
    {
      entries, repr, tree := entries[k := v], repr + Nodes(v), tree[k := RefTree(v)];
    }
  }

  ghost function RefTree(v: Ref): Value
    reads if v.Sub? then {v.node} else {}
  {
    match v
    case Nil => Null
    case Plain(value) => value
    case Sub(node) => Map(node.tree)
  }

  ghost function Nodes(v: Ref): set<Node>
    reads if v.Sub? then {v.node} else {}
  {
    if v.Sub? then v.node.repr else {}
  }

  /** `dst[k] = DeepMerge(dst[k], src)` where `dst[k]` is a map. */
  method GoMergeChild(dst: Node, k: string, src: Node)
    requires dst.Valid() && src.Valid() && dst.repr !! src.repr
    requires k in dst.entries && dst.entries[k].Sub?
    modifies dst, dst.entries[k].node.repr
    ensures dst.Valid() && dst.repr <= old(dst.repr) + src.repr
    ensures dst.entries == old(dst.entries)
    ensures forall l <- dst.entries :: l != k ==> Nodes(dst.entries[l]) == old(Nodes(dst.entries[l]))
    ensures dst.tree == old(dst.tree)[k := GoMerge(Map(old(dst.entries[k].node.tree)), Map(src.tree))]
    ensures src.Valid()
    decreases src.repr, 4
  {
    var child := dst.entries[k].node;
    assert forall l <- dst.entries :: dst.Represents(dst.entries[l], dst.tree[l]);
    var merged := GoDeepMerge(child, src);
    // the call wrote inside the child only, so its siblings are what they were
    forall l | l in dst.entries && l != k && dst.entries[l].Sub?
      ensures dst.entries[l].node.repr == old(dst.entries[l].node.repr)
      ensures dst.entries[l].node.Valid() && dst.entries[l].node.tree == old(dst.entries[l].node.tree)
    {
      assert old(dst.Represents(dst.entries[l], dst.tree[l]) && dst.entries[l].node.Valid());
      assert old(dst.entries[l].node.repr) !! old(child.repr);
    }
    dst.Put(k, Sub(merged));
  }

  /**
   The loop of `DeepMerge(r, src)` has still to visit the keys in `todo`; `owned` are the objects
   of the destination.
   */
  ghost predicate Merging(r: Node, src: Node, owned: set<Node>, todo: set<string>)
    reads r, r.repr, src, src.repr
  {
    && src.Valid() && todo <= src.entries.Keys
    && r.Valid() && r.repr <= owned + src.repr && src !in r.repr
    && (forall k <- todo ::
        src.Represents(src.entries[k], src.tree[k]) && (src.entries[k].Sub? ==> src.entries[k].node.repr !! r.repr))
    && (forall k <- todo :: k in r.entries ==>
          r.Represents(r.entries[k], r.tree[k]) && (r.entries[k].Sub? ==> r.entries[k].node.repr <= owned))
  }

  /** What visiting the key `k` makes of the destination's value. */
  ghost function Visit(d: map<string, Value>, s: map<string, Value>, k: string): map<string, Value>
    requires k in s
  {
    if s[k] == Null then d
    else if s[k].Map? && k in d && d[k].Map? then d[k := GoMerge(d[k], s[k])]
    else d[k := s[k]]
  }

  /** One iteration of the Go loop. */
  method GoMergeKey(r: Node, k: string, src: Node, ghost owned: set<Node>, ghost todo: set<string>)
    requires Merging(r, src, owned, todo) && k in todo
    requires r in owned && owned !! src.repr
    modifies owned
    ensures Merging(r, src, owned, todo - {k})
    ensures r.tree == Visit(old(r.tree), src.tree, k)
    decreases src.repr, 1
  {
    var v := src.entries[k];
    if v.Nil? {
    } else if v.Sub? && k in r.entries && r.entries[k].Sub? {
      GoMergeChild(r, k, v.node);
    } else {
      r.Put(k, v);
    }
  }

  /** `now` is the merge of `d` and `s` in which the keys of `todo` have not been visited yet. */
  ghost predicate Partial(d: map<string, Value>, s: map<string, Value>, todo: set<string>, now: map<string, Value>) {
    && (forall k :: k in now <==> k in d || (k in s && k !in todo && s[k] != Null))
    && (forall k <- now :: now[k] ==
          if k in s && k !in todo && s[k] != Null
          then if s[k].Map? && k in d && d[k].Map? then GoMerge(d[k], s[k]) else s[k]
          else d[k])
  }

  lemma VisitKeepsPartial(d: map<string, Value>, s: map<string, Value>, todo: set<string>, now: map<string, Value>,
      k: string)
    requires Partial(d, s, todo, now) && k in todo && k in s
    ensures Partial(d, s, todo - {k}, Visit(now, s, k))
  {
  }

  lemma PartialEnds(d: map<string, Value>, s: map<string, Value>, now: map<string, Value>)
    requires Partial(d, s, {}, now)
    ensures Map(now) == GoMerge(Map(d), Map(s))
  {
    assert now == GoMerge(Map(d), Map(s)).entries;
  }

  /** The loop of `DeepMerge`: the keys of the source in any order. */
  method GoMergeInto(r: Node, src: Node)
    requires r.Valid() && src.Valid() && r.repr !! src.repr
    modifies r.repr
    ensures r.Valid() && Map(r.tree) == GoMerge(Map(old(r.tree)), Map(src.tree))
    ensures r.repr <= old(r.repr) + src.repr
    ensures src.Valid()
    decreases src.repr, 2
  {
    ghost var owned, d, s := r.repr, r.tree, src.tree;
    var todo := src.entries.Keys;
    while todo != {}
      invariant Merging(r, src, owned, todo)
      invariant src.tree == s && Partial(d, s, todo, r.tree)
      decreases todo
    {
      var k :| k in todo;
      VisitKeepsPartial(d, s, todo, r.tree, k);
      GoMergeKey(r, k, src, owned, todo);
      todo := todo - {k};
    }
    PartialEnds(d, s, r.tree);
  }

  method GoDeepMerge(dst: Node?, src: Node) returns (r: Node)
    requires src.Valid()
    requires dst != null ==> dst.Valid() && dst.repr !! src.repr
    modifies if dst == null then {} else dst.repr
    ensures if dst == null then fresh(r) && r.repr <= {r} + src.repr else r == dst && r.repr <= old(dst.repr) + src.repr
    ensures r.Valid() && Map(r.tree) == GoMerge(Map(if dst == null then map[] else old(dst.tree)), Map(src.tree))
    ensures src.Valid() && unchanged(src.repr)
    decreases src.repr, 3
  {
    if dst == null { r := new Node(); } else { r := dst; }
    GoMergeInto(r, src);
  }
}
