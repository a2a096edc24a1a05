/** The flat pool of syntax nodes: records, spans and one shared array of child indices. */
module Pool {
  import opened Tokens
  import opened Trees

  // An index into the pool; -1 stands for the all-ones null index.
  type NodeId = n: int | -1 <= n

  const NullNode: NodeId := -1

  const PubFlag: nat := 1
  const UnsafeFlag: nat := 2

  datatype NodeData = NodeData(kind: NodeKind, childCount: nat, childrenBegin: nat, payload: nat, flags: nat)

  /////////////////////////// what the arrays stand for ///////////////////////////

  // The tree of an index; `trees[i]` is the whole subtree of node `i`.
  ghost function TreeOf(trees: seq<Tree>, i: NodeId): Tree {
    if 0 <= i < |trees| then trees[i] else NullTree
  }

  ghost function KidsOf(trees: seq<Tree>, i: nat): seq<Tree> {
    if i < |trees| && trees[i].Tree? then trees[i].kids else []
  }

  // The first child slot that node `n` may use, where node `n` is the next one to come.
  ghost function SliceEnd(nodes: seq<NodeData>, trees: seq<Tree>, n: nat): nat
    requires n <= |nodes| && n <= |trees|
  {
    if n == 0 then 0 else nodes[n - 1].childrenBegin + |KidsOf(trees, n - 1)|
  }

  // The child slots from `begin` on hold the subtrees `kids`, all of them older than node `i`.
  ghost predicate Slice(children: seq<NodeId>, trees: seq<Tree>, begin: nat, kids: seq<Tree>, i: nat) {
    && begin + |kids| <= |children|
    && forall j :: 0 <= j < |kids| ==> ChildIs(trees, children[begin..][j], kids[j], i)
  }

  // A child slot's entry `c` is null or older than node `i`, and the root of `kid`.
  ghost predicate ChildIs(trees: seq<Tree>, c: NodeId, kid: Tree, i: nat) {
    c < i && c != 0 && TreeOf(trees, c) == kid
  }

  // Record `i` is the root record of tree `i`: its slice starts where the one before ends, and its
  // child count is the true one cut to sixteen bits.
  ghost predicate RecordOk(nodes: seq<NodeData>, children: seq<NodeId>, spans: seq<Span>, trees: seq<Tree>, i: nat)
    requires i < |nodes| == |spans| == |trees|
  {
    var d := nodes[i];
    var t := trees[i];
    && t.Tree?
    && t.kind == d.kind && t.span == spans[i] && t.flags == d.flags
    && d.childCount == |t.kids| % 0x1_0000
    && d.childrenBegin == SliceEnd(nodes, trees, i)
    && Slice(children, trees, d.childrenBegin, t.kids, i)
  }

  // No node sits in two child slots.
  ghost predicate Unshared(children: seq<NodeId>) {
    forall i, j :: 0 <= i < j < |children| && children[i] == children[j] ==> children[i] == NullNode
  }

  ghost function Owned(children: seq<NodeId>): set<NodeId> { set c | c in children && c != NullNode }

  // The nodes `ids`, oldest first, are in no child slot yet and have the subtrees `kids`.
  ghost predicate Loose(trees: seq<Tree>, owned: set<NodeId>, ids: seq<NodeId>, kids: seq<Tree>) {
    && |ids| == |kids|
    && (forall j :: 0 <= j < |ids| ==> ids[j] < |trees| && ids[j] != 0 && ids[j] !in owned)
    && (forall j :: 0 <= j < |ids| ==> ids[j] < |trees| && TreeOf(trees, ids[j]) == kids[j])
    && (forall i, j :: 0 <= i < j < |ids| && ids[i] == ids[j] ==> ids[i] == NullNode)
  }

  class NodePool {
    var nodes: seq<NodeData>
    var children: seq<NodeId>
    var spans: seq<Span>
    ghost var trees: seq<Tree>

    ghost predicate Valid() reads this {
      && |nodes| == |spans| == |trees| >= 1
      && trees[0] == Tree(Error, Span(0, 0), Zero, 0, [])
      && (forall i :: 0 <= i < |nodes| ==> RecordOk(nodes, children, spans, trees, i))
      && SliceEnd(nodes, trees, |nodes|) == |children|
      && Unshared(children)
      && (forall j :: 0 <= j < |children| ==> children[j] < |nodes|)
    }

    // A new pool holds the sentinel at index 0 and nothing else.
    constructor ()
      ensures Valid() && trees == [Tree(Error, Span(0, 0), Zero, 0, [])] && Owned(children) == {}
      ensures nodes == [NodeData(Error, 0, 0, 0, 0)]
    {
      nodes := [NodeData(Error, 0, 0, 0, 0)];
      spans := [Span(0, 0)];
      children := [];
      trees := [Tree(Error, Span(0, 0), Zero, 0, [])];
    }

    /** Adding a node appends its tree, takes the loose children given into it and changes nothing
        that was there before. */
    method Alloc(kind: NodeKind, s: Span, childNodes: seq<NodeId>, payload: nat, flags: nat,
                 ghost meaning: Payload, ghost kids: seq<Tree>) returns (idx: NodeId)
      requires Valid() && Loose(trees, Owned(children), childNodes, kids)
      modifies this
      ensures Valid() && idx == |old(trees)|
      ensures trees == old(trees) + [Tree(kind, s, meaning, flags, kids)]
      ensures nodes == old(nodes) + [NodeData(kind, |kids| % 0x1_0000, |old(children)|, payload, flags)]
      ensures Owned(children) == old(Owned(children)) + Owned(childNodes)
    {
      var childrenBegin := |children|;
      ghost var was := children;
      ghost var before := trees;
      idx := |nodes|;
      nodes := nodes + [NodeData(kind, |childNodes| % 0x1_0000, childrenBegin, payload, flags)];
      children := children + childNodes;
      spans := spans + [s];
      trees := trees + [Tree(kind, s, meaning, flags, kids)];
      UnsharedCat(was, childNodes, before, kids);
      forall i | 0 <= i < |nodes| ensures RecordOk(nodes, children, spans, trees, i) {
        if i < idx { RecordKept(old(nodes), was, old(spans), before, nodes, children, spans, trees, i); }
        else { assert nodes[..idx] == old(nodes); }
      }
    }

    function KindOf(i: NodeId): NodeKind
      reads this
      requires 0 <= i < |nodes|
    { nodes[i].kind }

    function SpanAt(i: NodeId): Span
      reads this
      requires 0 <= i < |spans|
    { spans[i] }

    /** The child slice is in bounds, holds older nodes or null only, and is exactly what the node
        was built with whenever that were fewer than 65536 children. */
    function ChildrenOf(i: NodeId): (r: seq<NodeId>)
      reads this
      requires Valid() && 0 <= i < |nodes|
      ensures |r| == |KidsOf(trees, i)| % 0x1_0000
      ensures forall j :: 0 <= j < |r| ==>
              (r[j] == NullNode || 0 < r[j] < i) && TreeOf(trees, r[j]) == KidsOf(trees, i)[j]
    {
      assert RecordOk(nodes, children, spans, trees, i);
      var d := nodes[i];
      children[d.childrenBegin..d.childrenBegin + d.childCount]
    }
  }

  // Appending loose children shares nothing.
  lemma OwnedCat(children: seq<NodeId>, more: seq<NodeId>)
    ensures Owned(children + more) == Owned(children) + Owned(more)
  {
    var all := children + more;
    forall c | c in Owned(children) + Owned(more) ensures c in Owned(all) {
      if c in children { assert c in all; } else { assert c in more && c in all; }
    }
  }

  lemma UnsharedCat(children: seq<NodeId>, more: seq<NodeId>, trees: seq<Tree>, kids: seq<Tree>)
    requires Unshared(children) && Loose(trees, Owned(children), more, kids)
    ensures Unshared(children + more) && Owned(children + more) == Owned(children) + Owned(more)
  {
    OwnedCat(children, more);
    var all := children + more;
    forall i, j | 0 <= i < j < |all| && all[i] == all[j] ensures all[i] == NullNode {
      if i < |children| { assert all[i] == children[i]; assert children[i] in children; }
      if |children| <= j { assert all[j] == more[j - |children|]; assert more[j - |children|] !in Owned(children); }
      if |children| <= i { assert all[i] == more[i - |children|]; }
    }
  }

  // A record stays what it was when arrays grow at the end.
  lemma RecordKept(nodes: seq<NodeData>, children: seq<NodeId>, spans: seq<Span>, trees: seq<Tree>,
                   nodes1: seq<NodeData>, children1: seq<NodeId>, spans1: seq<Span>, trees1: seq<Tree>, i: nat)
    requires i < |nodes| == |spans| == |trees| && |nodes1| == |spans1| == |trees1|
    requires nodes <= nodes1 && children <= children1 && spans <= spans1 && trees <= trees1
    requires RecordOk(nodes, children, spans, trees, i)
    ensures RecordOk(nodes1, children1, spans1, trees1, i)
  {
    assert SliceEnd(nodes1, trees1, i) == SliceEnd(nodes, trees, i);
    SliceKept(children, trees, children1, trees1, nodes[i].childrenBegin, trees[i].kids, i);
  }

  lemma SliceKept(children: seq<NodeId>, trees: seq<Tree>, children1: seq<NodeId>, trees1: seq<Tree>,
                  begin: nat, kids: seq<Tree>, i: nat)
    requires i < |trees| && children <= children1 && trees <= trees1
    requires Slice(children, trees, begin, kids, i)
    ensures Slice(children1, trees1, begin, kids, i)
  {
    forall j | 0 <= j < |kids| ensures ChildIs(trees1, children1[begin..][j], kids[j], i) {
      assert ChildIs(trees, children[begin..][j], kids[j], i);
      assert children1[begin..][j] == children[begin..][j];
    }
  }

  /////////////////////////// the pool is a forest ///////////////////////////

  lemma Sizes(pool: NodePool)
    requires pool.Valid()
    ensures |pool.nodes| == |pool.spans| == |pool.trees| >= 1
    ensures forall i :: i in Owned(pool.children) ==> 0 <= i < |pool.trees|
    ensures forall i :: 0 <= i < |pool.trees| ==>
            pool.trees[i].Tree? && pool.nodes[i].kind == pool.trees[i].kind && pool.spans[i] == pool.trees[i].span
  {
    forall i | 0 <= i < |pool.trees|
      ensures pool.trees[i].Tree? && pool.nodes[i].kind == pool.trees[i].kind && pool.spans[i] == pool.trees[i].span
    {
      assert RecordOk(pool.nodes, pool.children, pool.spans, pool.trees, i);
    }
  }

  // What the pool's own accessors say about node `i`.
  lemma Entry(pool: NodePool, i: NodeId)
    requires pool.Valid() && 0 <= i < |pool.trees|
    ensures |pool.nodes| == |pool.spans| == |pool.trees|
    ensures var t := TreeOf(pool.trees, i); t.Tree? && pool.nodes[i].kind == t.kind && pool.spans[i] == t.span
  {
    assert RecordOk(pool.nodes, pool.children, pool.spans, pool.trees, i);
  }

  lemma {:induction false} SlicesOrdered(pool: NodePool, i: nat, k: nat)
    requires pool.Valid() && i < k <= |pool.nodes|
    ensures SliceEnd(pool.nodes, pool.trees, i + 1) <= SliceEnd(pool.nodes, pool.trees, k)
    decreases k
  {
    if i + 1 < k {
      SlicesOrdered(pool, i, k - 1);
      assert RecordOk(pool.nodes, pool.children, pool.spans, pool.trees, k - 1);
    }
  }

  // The slot of child `j` of node `p`.
  lemma Slot(pool: NodePool, p: nat, j: nat)
    requires pool.Valid() && p < |pool.nodes| && j < |KidsOf(pool.trees, p)|
    ensures var a := pool.nodes[p].childrenBegin + j;
            && SliceEnd(pool.nodes, pool.trees, p) <= a < SliceEnd(pool.nodes, pool.trees, p + 1) <= |pool.children|
            && (pool.children[a] == NullNode || 0 < pool.children[a] < p)
    ensures pool.nodes[p].childrenBegin == SliceEnd(pool.nodes, pool.trees, p)
  {
    assert RecordOk(pool.nodes, pool.children, pool.spans, pool.trees, p);
    var begin := pool.nodes[p].childrenBegin;
    assert ChildIs(pool.trees, pool.children[begin..][j], KidsOf(pool.trees, p)[j], p);
    assert pool.children[begin..][j] == pool.children[begin + j];
  }

  /** In a valid pool a child is older than its parent, so there is no cycle, and has one parent and
      one place below it: the slot that holds a node is fixed by the node. */
  lemma OneParent(pool: NodePool, p: nat, j: nat, q: nat, k: nat)
    requires pool.Valid() && p < |pool.nodes| && q < |pool.nodes|
    requires j < |KidsOf(pool.trees, p)| && k < |KidsOf(pool.trees, q)|
    ensures var (a, b) := (pool.nodes[p].childrenBegin + j, pool.nodes[q].childrenBegin + k);
            && a < |pool.children| && b < |pool.children|
            && (pool.children[a] == NullNode || 0 < pool.children[a] < p)
            && (pool.children[a] == pool.children[b] && pool.children[a] != NullNode ==> p == q && j == k)
  {
    hide RecordOk, SliceEnd, KidsOf;
    Slot(pool, p, j);
    Slot(pool, q, k);
    if p < q { SlicesOrdered(pool, p, q); }
    if q < p { SlicesOrdered(pool, q, p); }
  }
}
