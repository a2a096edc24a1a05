/** What a parse call does to the parser: the state as a value, and how states may follow each other. */
module ParserStates {
  import opened Tokens
  import opened Trees
  import opened Pool
  import opened Interning

  newtype DiagId = n: int | 0 <= n < 54

  const ExpectedTopLevelDecl: DiagId := 0
  const ExpectedStmt: DiagId := 1
  const ExpectedExpr: DiagId := 2
  const ExpectedPattern: DiagId := 3
  const ExpectedName: DiagId := 5
  const ExpectedKeyword: DiagId := 6
  const ExpectedIdentifier: DiagId := 7
  const ExpectedTypeName: DiagId := 8
  const ExpectedPathSegment: DiagId := 11
  const RedundantPathSeparator: DiagId := 12
  const ExpectedOpen: DiagId := 13
  const ExpectedClose: DiagId := 14
  const ExpectedSemi: DiagId := 15
  const ExpectedColon: DiagId := 16
  const ExpectedEq: DiagId := 17
  const ExpectedArgListClose: DiagId := 18
  const ExpectedParenExprClose: DiagId := 19
  const ExpectedTupleExprClose: DiagId := 20
  const ExpectedFieldName: DiagId := 21
  const ExpectedFieldInitName: DiagId := 22
  const ExpectedStructLitClose: DiagId := 23
  const ExpectedArrayLitClose: DiagId := 24
  const ExpectedTensorIndexClose: DiagId := 25
  const ExpectedTensorLitDim: DiagId := 26
  const ExpectedTensorLitClose: DiagId := 27
  const ExpectedRSquare: DiagId := 28
  const ExpectedTupleTypeClose: DiagId := 29
  const ExpectedArrayTypeSemi: DiagId := 30
  const ExpectedArrayTypeClose: DiagId := 31
  const ExpectedTensorTypeSemi: DiagId := 32
  const ExpectedTensorTypeClose: DiagId := 33
  const ExpectedTensorOpen: DiagId := 34
  const ExpectedFatArrow: DiagId := 35
  const ExpectedTuplePatClose: DiagId := 36
  const ExpectedStructPatClose: DiagId := 37
  const ExpectedFieldPatName: DiagId := 38
  const ExpectedModOpenOrSemi: DiagId := 39
  const ExpectedTraitFnSemi: DiagId := 41
  const ExpectedReturnTypeColon: DiagId := 42
  const ExpectedBreakOrContinueSemi: DiagId := 43
  const ExpectedGreaterThan: DiagId := 45
  const ExpectedTypeParam: DiagId := 46
  const ExpectedUseItemOrGlob: DiagId := 51
  const ExpectedAsAlias: DiagId := 52
  const DocCommentNotAllowed: DiagId := 53

  datatype Diag = Diag(loc: Span, id: DiagId)

  /** The parser at one moment: cursor, struct-literal flag, diagnostics, the trees of the pool, which
      nodes have a parent, the interned strings, how many brackets that allow struct literals are open,
      and for each struct literal built how many were open around it. */
  datatype State = State(
    cur: nat, sl: Switch, errs: seq<Diag>, trees: seq<Tree>, owned: set<NodeId>, strs: seq<string>,
    open: nat, lits: seq<nat>)

  // The error nodes of a pool, its sentinel not counted.
  ghost function ErrorNodes(trees: seq<Tree>): nat {
    if |trees| <= 1 then 0 else
    var t := trees[|trees| - 1];
    ErrorNodes(trees[..|trees| - 1]) + if t.Tree? && t.kind == Error then 1 else 0
  }

  ghost function Literals(trees: seq<Tree>): nat {
    if trees == [] then 0 else
    var t := trees[|trees| - 1];
    Literals(trees[..|trees| - 1]) + if t.Tree? && t.kind == StructLitExpr then 1 else 0
  }

  /** A struct literal stands inside more brackets than the `open` ones, unless the flag allows it as
      it is. */
  ghost predicate Sheltered(sl: Switch, open: nat, lit: nat) { lit > open || (lit == open && sl.On?) }

  ghost predicate AllSheltered(sl: Switch, open: nat, lits: seq<nat>, from: nat) {
    forall i :: from <= i < |lits| ==> Sheltered(sl, open, lits[i])
  }

  ghost predicate Older<T(!new)>(a: seq<T>, b: seq<T>) {
    |a| <= |b| && forall i :: 0 <= i < |a| ==> b[i] == a[i]
  }

  /** `b` can follow `a`: the cursor has not moved back, the struct-literal flag is as it was, every
      diagnostic, node and string is still there, no old node got a parent, each new error node has a
      new diagnostic to answer for it, and each new struct literal is where the flag allows one. */
  ghost predicate Grew(a: State, b: State) {
    && a.cur <= b.cur && b.sl == a.sl
    && Older(a.errs, b.errs) && Older(a.trees, b.trees) && Extends(a.strs, b.strs)
    && (forall i :: i in b.owned && i < |a.trees| ==> i in a.owned)
    && ErrorNodes(b.trees) + |a.errs| <= ErrorNodes(a.trees) + |b.errs|
    && b.open == a.open && Older(a.lits, b.lits) && AllSheltered(a.sl, a.open, b.lits, |a.lits|)
    && Literals(b.trees) + |a.lits| == Literals(a.trees) + |b.lits|
  }

  ghost predicate Clean(a: State, b: State) { |b.errs| == |a.errs| }

  // Node `r` is new since `a`, has no parent yet, and is an error node only if a diagnostic says so.
  ghost predicate Fresh(a: State, b: State, r: NodeId) {
    && |a.trees| <= r < |b.trees| && r !in b.owned && r > 0
    && b.trees[r].Tree?
    && (b.trees[r].kind == Error ==> |a.errs| < |b.errs|)
  }

  lemma GrewFacts(a: State, b: State)
    requires Grew(a, b)
    ensures a.cur <= b.cur && b.sl == a.sl && |a.errs| <= |b.errs| && |a.trees| <= |b.trees|
  {
  }

  lemma GrewStrings(a: State, b: State)
    requires Grew(a, b)
    ensures Extends(a.strs, b.strs)
  {
  }

  lemma GrewTrans(a: State, b: State, c: State)
    requires Grew(a, b) && Grew(b, c)
    ensures Grew(a, c)
  {
    hide Sheltered;
    forall i | |a.lits| <= i < |c.lits| ensures Sheltered(a.sl, a.open, c.lits[i]) {
      if i < |b.lits| { assert Sheltered(a.sl, a.open, b.lits[i]); }
    }
  }

  // Only the cursor has moved on, or diagnostics or strings have come to be.
  lemma Moved(a: State, b: State, c: State)
    requires Grew(a, b) && b.cur <= c.cur && Older(b.errs, c.errs) && Extends(b.strs, c.strs)
    requires c.trees == b.trees && c.owned == b.owned && c.sl == b.sl && c.open == b.open && c.lits == b.lits
    ensures Grew(a, c)
  {
  }

  lemma Started(a: State, c: State)
    requires a.cur <= c.cur && Older(a.errs, c.errs) && Extends(a.strs, c.strs)
    requires c.trees == a.trees && c.owned == a.owned && c.sl == a.sl && c.open == a.open && c.lits == a.lits
    ensures Grew(a, c)
  {
  }

  // The flag was set for a part that grew from `b` to `c`: switched off, or switched on behind one more
  // bracket. Now both are set back, and perhaps a closing token read.
  lemma Closed(a: State, b0: State, b: State, c: State, d: State)
    requires Grew(a, b0) && Grew(b, c) && b == b0.(sl := b.sl, open := b.open)
    requires b.open > b0.open || (b.open == b0.open && b.sl.Off?)
    requires c.cur <= d.cur && d.sl == b0.sl && d.open == b0.open && Older(c.errs, d.errs) && Extends(c.strs, d.strs)
    requires d.trees == c.trees && d.owned == c.owned && d.lits == c.lits
    ensures Grew(a, d) && Grew(b0, d)
  {
    hide ErrorNodes, Literals, Extends;
    assert AllSheltered(b0.sl, b0.open, d.lits, |b0.lits|) by {
      forall i | |b0.lits| <= i < |d.lits| ensures Sheltered(b0.sl, b0.open, d.lits[i]) {
        assert Sheltered(b.sl, b.open, c.lits[i]);
      }
    }
    GrewClosed(b0, b, c, d);
    GrewTrans(a, b0, d);
  }

  lemma GrewClosed(b0: State, b: State, c: State, d: State)
    requires Grew(b, c) && b == b0.(sl := b.sl, open := b.open) && AllSheltered(b0.sl, b0.open, d.lits, |b0.lits|)
    requires c.cur <= d.cur && d.sl == b0.sl && d.open == b0.open && Older(c.errs, d.errs) && Extends(c.strs, d.strs)
    requires d.trees == c.trees && d.owned == c.owned && d.lits == c.lits
    ensures Grew(b0, d)
  {
  }

  // What grew behind a bracket, seen from in front of it.
  lemma Reflag(a: State, b: State, sl: Switch, open: nat)
    requires Grew(a, b) && open < a.open
    ensures Grew(a.(sl := sl, open := open), b.(sl := sl, open := open))
  {
    hide ErrorNodes, Literals, Extends;
    forall i | |a.lits| <= i < |b.lits| ensures Sheltered(sl, open, b.lits[i]) {
      assert Sheltered(a.sl, a.open, b.lits[i]);
    }
  }

  /** Whatever happens in a call that begins with the flag switched off, every struct literal it builds
      is inside a bracket that the call opened. */
  lemma HeaderSheltered(a: State, b: State)
    requires Grew(a, b) && a.sl.Off?
    ensures Literals(b.trees) - Literals(a.trees) == |b.lits| - |a.lits|
    ensures forall i :: |a.lits| <= i < |b.lits| ==> b.lits[i] > a.open
  {
    forall i | |a.lits| <= i < |b.lits| ensures b.lits[i] > a.open { assert Sheltered(a.sl, a.open, b.lits[i]); }
  }

  lemma FreshFacts(a: State, b: State, r: NodeId)
    requires Fresh(a, b, r)
    ensures 0 < r < |b.trees| && b.trees[r].Tree? && (b.trees[r].kind == Error ==> |a.errs| < |b.errs|)
  {
  }

  // A node built since `b` was built since `a`.
  lemma FreshLater(a: State, b: State, c: State, r: NodeId)
    requires Grew(a, b) && Grew(b, c) && Fresh(b, c, r)
    ensures Grew(a, c) && Fresh(a, c, r)
  {
  }

  // The same when the flag differed in between.
  lemma FreshFrom(a: State, b: State, c: State, d: State, r: NodeId)
    requires Fresh(b, c, r) && |a.trees| <= |b.trees| && |a.errs| <= |b.errs|
    requires d.trees == c.trees && d.owned == c.owned && |c.errs| <= |d.errs|
    ensures Fresh(a, d, r)
  {
  }

  // A node built before `b` is still as it was at `c`.
  lemma FreshStays(a: State, b: State, c: State, r: NodeId)
    requires Fresh(a, b, r) && Grew(b, c)
    ensures Fresh(a, c, r) && TreeOf(c.trees, r) == TreeOf(b.trees, r)
  {
  }

  lemma ErrorNodesAppend(trees: seq<Tree>, t: Tree)
    requires |trees| >= 1
    ensures ErrorNodes(trees + [t]) == ErrorNodes(trees) + if t.Tree? && t.kind == Error then 1 else 0
  {
    assert (trees + [t])[..|trees|] == trees;
  }

  lemma LiteralsAppend(trees: seq<Tree>, t: Tree)
    ensures Literals(trees + [t]) == Literals(trees) + if t.Tree? && t.kind == StructLitExpr then 1 else 0
  {
    assert (trees + [t])[..|trees|] == trees;
  }

  // The nodes `ids` are loose, were all built at index `lo` or later, and have the subtrees `kids`.
  ghost predicate Kept(s: State, lo: nat, ids: seq<NodeId>, kids: seq<Tree>) {
    && Loose(s.trees, s.owned, ids, kids)
    && forall j :: 0 <= j < |ids| ==> ids[j] == NullNode || lo <= ids[j]
  }

  lemma KeptNone(s: State, lo: nat)
    ensures Kept(s, lo, [], [])
  {
  }

  lemma KeptStays(a: State, b: State, lo: nat, ids: seq<NodeId>, kids: seq<Tree>)
    requires Grew(a, b) && Kept(a, lo, ids, kids)
    ensures Kept(b, lo, ids, kids)
  {
    forall j | 0 <= j < |ids| ensures ids[j] < |b.trees| && ids[j] !in b.owned && TreeOf(b.trees, ids[j]) == kids[j] {
      assert TreeOf(a.trees, ids[j]) == kids[j];
    }
  }

  lemma KeptMoved(a: State, b: State, lo: nat, ids: seq<NodeId>, kids: seq<Tree>)
    requires Kept(a, lo, ids, kids) && b.trees == a.trees && b.owned == a.owned
    ensures Kept(b, lo, ids, kids)
  {
  }

  lemma KeptLower(s: State, lo: nat, hi: nat, ids: seq<NodeId>, kids: seq<Tree>)
    requires Kept(s, hi, ids, kids) && lo <= hi
    ensures Kept(s, lo, ids, kids)
  {
  }

  // One more node, built between `a` and `b`.
  lemma KeptPush(a: State, b: State, lo: nat, ids: seq<NodeId>, kids: seq<Tree>, r: NodeId)
    requires Grew(a, b) && Kept(a, lo, ids, kids) && Fresh(a, b, r) && lo <= |a.trees|
    ensures Kept(b, lo, ids + [r], kids + [b.trees[r]])
  {
    KeptStays(a, b, lo, ids, kids);
    forall j | 0 <= j < |ids| ensures ids[j] != r { assert TreeOf(a.trees, ids[j]) == kids[j]; }
  }

  lemma KeptNull(s: State, lo: nat, ids: seq<NodeId>, kids: seq<Tree>)
    requires Kept(s, lo, ids, kids) && NullNode !in s.owned
    ensures Kept(s, lo, ids + [NullNode], kids + [NullTree])
  {
  }

  lemma KeptOne(a: State, b: State, r: NodeId)
    requires Fresh(a, b, r)
    ensures Kept(b, |a.trees|, [r], [TreeOf(b.trees, r)])
  {
  }

  // Two nodes, the first built before state `mid`, the second after it.
  lemma KeptPair(a: State, mid: State, b: State, l: NodeId, r: NodeId)
    requires Fresh(a, mid, l) && Grew(mid, b) && Fresh(mid, b, r) && |a.trees| <= |mid.trees|
    ensures Kept(b, |a.trees|, [l, r], [TreeOf(mid.trees, l), TreeOf(b.trees, r)])
  {
  }

  // What adding a node over nodes kept since `a` comes to, seen from `a`.
  lemma KeptAlloc(a: State, b: State, ids: seq<NodeId>, kids: seq<Tree>, c: State, t: Tree)
    requires Grew(a, b) && Kept(b, |a.trees|, ids, kids) && |b.trees| >= 1
    requires forall i :: i in b.owned ==> i < |b.trees|
    requires t.Tree? && (t.kind == StructLitExpr ==> b.sl.On?)
    requires c == b.(trees := b.trees + [t], owned := b.owned + Owned(ids),
                     lits := if t.kind == StructLitExpr then b.lits + [b.open] else b.lits)
    requires t.kind == Error ==> !Clean(a, b) && ErrorNodes(b.trees) + |a.errs| < ErrorNodes(a.trees) + |b.errs|
    ensures Grew(a, c) && Fresh(a, c, |b.trees|)
  {
    ErrorNodesAppend(b.trees, t);
    LiteralsAppend(b.trees, t);
  }
}
