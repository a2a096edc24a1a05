/** The recursive-descent parser itself: every method, on every token stream. */
module Parsing {
  import opened Tokens
  import opened Trees
  import opened Grammar
  import opened Spelling
  import opened ErrorFree
  import opened Outcomes
  import opened Productions
  import opened Layouts
  import opened Geometry
  import opened Soundness
  import opened Interning
  import opened Pool
  import opened ParserStates
  import opened DeclGrammar
  import opened DeclRuns
  import opened Declarations
  import opened Recovery
  import opened CleanRuns
  import opened Cuts

  // The records of a pool: laid out as their kinds say, their payload words readable.
  ghost predicate NodesOk(nodes: seq<NodeData>, trees: seq<Tree>, strs: seq<string>) {
    && |nodes| == |trees|
    && forall i :: 0 <= i < |trees| ==> NodeOk(nodes[i].payload, trees[i], strs)
  }

  ghost predicate NodeOk(word: nat, t: Tree, strs: seq<string>) { ShapedTree(t) && Stores(strs, word, t.payload) }

  lemma NodesOkIntern(nodes: seq<NodeData>, trees: seq<Tree>, strs: seq<string>, later: seq<string>)
    requires NodesOk(nodes, trees, strs) && Extends(strs, later)
    ensures NodesOk(nodes, trees, later)
  {
    hide NodeOk, Extends;
    forall i | 0 <= i < |trees| ensures NodeOk(nodes[i].payload, trees[i], later) {
      NodeOkIntern(nodes[i].payload, trees[i], strs, later);
    }
  }

  lemma NodeOkIntern(word: nat, t: Tree, strs: seq<string>, later: seq<string>)
    requires NodeOk(word, t, strs) && Extends(strs, later)
    ensures NodeOk(word, t, later)
  {
    hide Shaped, Stores, Extends;
    StoresLater(strs, later, word, t.payload);
  }

  class Parser {
    const inp: Input
    const pool: NodePool
    const interner: StringInterner
    var cursor: nat
    var structLitAllowed: Switch
    var errors: seq<Diag>
    // How many brackets that allow struct literals are open, and how many were around each one built.
    ghost var region: nat
    ghost var literals: seq<nat>

    ghost predicate Valid()
      reads this, pool, interner
    {
      && pool.Valid() && interner.Valid() && cursor <= |inp.toks|
      && NodesOk(pool.nodes, pool.trees, interner.strings)
    }

    ghost function Now(): State
      reads this, pool, interner
    {
      State(cursor, structLitAllowed, errors, pool.trees, Owned(pool.children), interner.strings, region, literals)
    }

    constructor (inp: Input, pool: NodePool, interner: StringInterner)
      requires pool.Valid() && interner.Valid() && NodesOk(pool.nodes, pool.trees, interner.strings)
      ensures Valid() && this.inp == inp && this.pool == pool && this.interner == interner
      ensures cursor == 0 && structLitAllowed == On && errors == [] && region == 0 && literals == []
    {
      this.inp := inp;
      this.pool := pool;
      this.interner := interner;
      cursor := 0;
      structLitAllowed := On;
      errors := [];
      region, literals := 0, [];
    }

    /////////////////////////// token stream ///////////////////////////

    function Peek(): Kind reads `cursor { KindAt(inp, cursor) }

    function PeekAt(offset: nat): Kind reads `cursor { KindAt(inp, cursor + offset) }

    function PeekToken(): Token reads `cursor { TokenAt(inp, cursor) }

    predicate Check(k: Kind) reads `cursor { Peek() == k }

    predicate AtEof() reads `cursor { Check(Eof) }

    function Previous(): (t: Token)
      reads `cursor
      requires cursor <= |inp.toks|
      ensures t.span == PrevSpan(inp, cursor)
    {
      if cursor == 0 then Token(Eof, if |inp.toks| == 0 then Span(0, 0) else inp.toks[0].span) else inp.toks[cursor - 1]
    }

    function Text(s: Span): string { TextOf(inp.src, s) }

    method Advance() returns (t: Token)
      requires Valid()
      modifies `cursor
      ensures Valid() && t == TokenAt(inp, old(cursor))
      ensures cursor == if old(cursor) < |inp.toks| then old(cursor) + 1 else old(cursor)
    {
      t := PeekToken();
      if cursor < |inp.toks| { cursor := cursor + 1; }
    }

    method Consume(k: Kind) returns (b: bool)
      requires Valid() && k != Eof
      modifies `cursor
      ensures Valid() && b == (KindAt(inp, old(cursor)) == k)
      ensures cursor == if b then old(cursor) + 1 else old(cursor)
      ensures cursor == Past(inp, old(cursor), k)
    {
      b := Check(k);
      if b { var _ := Advance(); }
    }

    /////////////////////////// diagnostics ///////////////////////////

    method AddError(s: Span, id: DiagId)
      requires Valid()
      modifies `errors
      ensures Valid() && errors == old(errors) + [Diag(s, id)]
    {
      errors := errors + [Diag(s, id)];
    }

    method Expect(k: Kind, id: DiagId) returns (t: Token)
      requires Valid() && k != Eof
      modifies `cursor, `errors
      ensures Valid() && Older(old(errors), errors)
      ensures KindAt(inp, old(cursor)) == k ==>
              t == TokenAt(inp, old(cursor)) && cursor == old(cursor) + 1 && errors == old(errors)
      ensures KindAt(inp, old(cursor)) != k ==>
              t == Token(Unknown, TokenAt(inp, cursor).span) && cursor == old(cursor)
                && errors == old(errors) + [Diag(t.span, id)]
      ensures cursor == Past(inp, old(cursor), k) && t.span == TokenAt(inp, old(cursor)).span
      ensures (|errors| == |old(errors)|) == (KindAt(inp, old(cursor)) == k)
    {
      var ok := Consume(k);
      if ok { return Previous(); }
      var found := PeekToken();
      AddError(found.span, id);
      t := Token(Unknown, found.span);
    }

    method Intern(s: string) returns (id: Id)
      requires Valid()
      modifies interner
      ensures Valid() && Extends(old(interner.strings), interner.strings)
      ensures 0 < id < |interner.strings| && interner.strings[id] == s
    {
      id := interner.Intern(s);
      NodesOkIntern(pool.nodes, pool.trees, old(interner.strings), interner.strings);
    }

    method ExpectName(k: Kind) returns (id: Id)
      requires Valid() && k != Eof
      modifies `cursor, `errors, interner
      ensures Valid() && Extends(old(interner.strings), interner.strings)
      ensures 0 < id < |interner.strings| && interner.strings[id] == TokText(inp, old(cursor))
      ensures KindAt(inp, old(cursor)) == k ==> cursor == old(cursor) + 1 && errors == old(errors)
      ensures KindAt(inp, old(cursor)) != k ==>
              cursor == old(cursor) && errors == old(errors) + [Diag(TokenAt(inp, cursor).span, ExpectedName)]
      ensures cursor == Past(inp, old(cursor), k)
      ensures (|errors| == |old(errors)|) == (KindAt(inp, old(cursor)) == k)
    {
      var ok := Consume(k);
      if ok {
        id := Intern(Text(Previous().span));
        return;
      }
      var found := PeekToken();
      AddError(found.span, ExpectedName);
      id := Intern(Text(found.span));
    }

    method ExpectAndIntern(k: Kind, diag: DiagId) returns (id: Id)
      requires Valid() && k != Eof
      modifies `cursor, `errors, interner
      ensures Valid() && Extends(old(interner.strings), interner.strings)
      ensures 0 < id < |interner.strings| && interner.strings[id] == TokText(inp, old(cursor))
      ensures KindAt(inp, old(cursor)) == k ==> cursor == old(cursor) + 1 && errors == old(errors)
      ensures KindAt(inp, old(cursor)) != k ==>
              cursor == old(cursor) && errors == old(errors) + [Diag(TokenAt(inp, cursor).span, diag)]
      ensures cursor == Past(inp, old(cursor), k)
      ensures (|errors| == |old(errors)|) == (KindAt(inp, old(cursor)) == k)
    {
      var t := Expect(k, diag);
      id := Intern(Text(t.span));
    }

    /////////////////////////// nodes ///////////////////////////

    // A node over nodes that were built since `a`.
    method Alloc(kind: NodeKind, s: Span, ids: seq<NodeId>, payload: nat, flags: nat,
                 ghost p: Payload, ghost kids: seq<Tree>, ghost a: State) returns (r: NodeId)
      requires Valid() && Grew(a, Now()) && Kept(Now(), |a.trees|, ids, kids)
      requires Shaped(kind, p, kids) && Stores(interner.strings, payload, p)
      requires kind == Error ==> !Clean(a, Now()) && ErrorNodes(pool.trees) + |a.errs| < ErrorNodes(a.trees) + |errors|
      requires kind == StructLitExpr ==> structLitAllowed.On?
      modifies pool, `literals
      ensures Valid() && Grew(a, Now()) && Fresh(a, Now(), r)
      ensures TreeOf(pool.trees, r) == Tree(kind, s, p, flags, kids)
    {
      hide NodePool.Valid, StringInterner.Valid, Shaped, Stores, NodesOk, Loose, ErrorNodes, Grew, Fresh;
      Sizes(pool);
      ghost var b, nodes := Now(), pool.nodes;
      r := pool.Alloc(kind, s, ids, payload, flags, p, kids);
      if kind == StructLitExpr { literals := literals + [region]; }
      KeptAlloc(a, b, ids, kids, Now(), Tree(kind, s, p, flags, kids));
      NodesOkAppend(nodes, b.trees, interner.strings, pool.nodes, pool.trees);
    }

    // An error node, for which a diagnostic recorded since `a` answers.
    method MakeErrorNode(s: Span, ghost a: State) returns (r: NodeId)
      requires Valid() && Grew(a, Now()) && !Clean(a, Now())
      requires ErrorNodes(pool.trees) + |a.errs| < ErrorNodes(a.trees) + |errors|
      modifies pool, `literals
      ensures Valid() && Grew(a, Now()) && Fresh(a, Now(), r)
      ensures TreeOf(pool.trees, r) == Tree(Error, s, Zero, 0, [])
    {
      hide NodePool.Valid, StringInterner.Valid, NodesOk, Loose, ErrorNodes, Grew, Fresh;
      KeptNone(Now(), |a.trees|);
      r := Alloc(Error, s, [], 0, 0, Zero, [], a);
    }

    /////////////////////////// outcomes ///////////////////////////

    // A call that began in state `a` ended well and built `r`, a new node of sort `s`.
    ghost predicate Made(a: State, s: Sort, r: NodeId)
      reads this, pool, interner
    {
      Valid() && Grew(a, Now()) && Fresh(a, Now(), r) && Of(s, TreeOf(pool.trees, r))
    }

    ghost function Got(a: State, r: NodeId): Out
      reads this, pool
    {
      Out(|errors| == |a.errs|, cursor, TreeOf(pool.trees, r))
    }

    // The same for a call that began with `n` diagnostics.
    ghost function Since(n: nat, r: NodeId): Out
      reads this, pool
    {
      Out(|errors| == n, cursor, TreeOf(pool.trees, r))
    }

    // A list of nodes of sort `s` that a call beginning in state `a` added to `ids`; all of them were
    // built at index `lo` or later.
    ghost predicate Added(a: State, lo: nat, ids: seq<NodeId>, kids: seq<Tree>, s: Sort, l: ListOut)
      reads this, pool, interner
    {
      && Valid() && Grew(a, Now()) && Kept(Now(), lo, ids, kids + l.trees) && AllOf(s, l.trees)
      && l.ok == (|errors| == |a.errs|) && l.end == cursor
    }

    // `Made` and `Valid` taken apart, for proofs that hide them.
    lemma Unmake(a: State, s: Sort, r: NodeId)
      requires Made(a, s, r)
      ensures Valid() && pool.Valid() && cursor <= |inp.toks| && Grew(a, Now()) && Fresh(a, Now(), r)
      ensures Of(s, TreeOf(pool.trees, r))
      ensures a.cur <= cursor && structLitAllowed == a.sl && |a.errs| <= |errors| && |a.trees| <= |pool.trees|
      ensures 0 < r < |pool.trees| && TreeOf(pool.trees, r).Tree?
      ensures TreeOf(pool.trees, r).kind == Error ==> |a.errs| < |errors|
    {
    }

    lemma Remake(a: State, s: Sort, r: NodeId)
      requires Valid() && Grew(a, Now()) && Fresh(a, Now(), r) && Of(s, TreeOf(pool.trees, r))
      ensures Made(a, s, r)
    {
    }

    lemma InBounds()
      requires Valid()
      ensures cursor <= |inp.toks| && pool.Valid()
    {
    }

    lemma Unadd(a: State, lo: nat, ids: seq<NodeId>, kids: seq<Tree>, s: Sort, l: ListOut)
      requires Added(a, lo, ids, kids, s, l)
      ensures Valid() && pool.Valid() && cursor <= |inp.toks| && Grew(a, Now()) && Kept(Now(), lo, ids, kids + l.trees)
      ensures AllOf(s, l.trees)
      ensures a.cur <= cursor && structLitAllowed == a.sl && |a.errs| <= |errors| && |a.trees| <= |pool.trees|
      ensures l.ok == (|errors| == |a.errs|) && l.end == cursor
    {
    }

    lemma Readd(a: State, lo: nat, ids: seq<NodeId>, kids: seq<Tree>, s: Sort, l: ListOut)
      requires Valid() && Grew(a, Now()) && Kept(Now(), lo, ids, kids + l.trees) && AllOf(s, l.trees)
      requires l.ok == (|errors| == |a.errs|) && l.end == cursor
      ensures Added(a, lo, ids, kids, s, l)
    {
    }

    // A node of one sort that is of another as well.
    lemma Sorts(a: State, s: Sort, t: Sort, r: NodeId)
      requires Made(a, s, r) && forall k :: KindFits(s, k) ==> Always(t, k)
      ensures Made(a, t, r)
    {
      AlwaysOf(t, TreeOf(pool.trees, r));
    }

    lemma NoneAdded(lo: nat, ids: seq<NodeId>, kids: seq<Tree>, s: Sort)
      requires Valid() && Kept(Now(), lo, ids, kids)
      ensures Added(Now(), lo, ids, kids, s, ListOut(true, cursor, []))
    {
      assert kids + [] == kids;
    }

    // The call that began in state `b` built one more node.
    lemma OneAdded(a: State, b: State, lo: nat, ids: seq<NodeId>, kids: seq<Tree>, s: Sort, l: ListOut, r: NodeId)
      returns (l1: ListOut)
      requires Grew(a, b) && Kept(b, lo, ids, kids + l.trees) && AllOf(s, l.trees) && lo <= |b.trees|
      requires l.ok == (|b.errs| == |a.errs|) && Made(b, s, r)
      ensures var e := Got(b, r); l1 == ListOut(l.ok && e.ok, e.end, l.trees + [e.tree])
      ensures Added(a, lo, ids + [r], kids, s, l1) && b.cur <= cursor <= |inp.toks|
    {
      hide Kept, Grew, Fresh, Of;
      var e := Got(b, r);
      l1 := ListOut(l.ok && e.ok, e.end, l.trees + [e.tree]);
      GrewFacts(a, b);
      GrewFacts(b, Now());
      GrewTrans(a, b, Now());
      KeptPush(b, Now(), lo, ids, kids + l.trees, r);
      FreshFacts(b, Now(), r);
      assert kids + l1.trees == (kids + l.trees) + [e.tree];
    }

    // Nothing was recorded or interned since `b`.
    lemma Unchanged(b: State)
      requires errors == b.errs && interner.strings == b.strs
      ensures Older(b.errs, errors) && Extends(b.strs, interner.strings)
    {
    }

    // Since `b` the cursor has moved on, or diagnostics or strings have come to be.
    lemma MadeMoved(a: State, b: State, s: Sort, r: NodeId)
      requires Valid() && Grew(a, b) && Fresh(a, b, r) && Of(s, TreeOf(b.trees, r))
      requires b.cur <= cursor && structLitAllowed == b.sl && region == b.open && literals == b.lits
      requires Older(b.errs, errors) && Extends(b.strs, interner.strings)
      requires pool.trees == b.trees && Owned(pool.children) == b.owned
      ensures Made(a, s, r)
    {
    }

    // The range of a node, and whether it is an error node.
    function RangeOf(i: NodeId): Span
      reads pool
      requires pool.Valid() && 0 <= i < |pool.trees|
      ensures RangeOf(i) == SpanOf(TreeOf(pool.trees, i))
    {
      Entry(pool, i);
      pool.SpanAt(i)
    }

    predicate IsError(i: NodeId)
      reads pool
      requires pool.Valid() && 0 <= i < |pool.trees|
      ensures TreeOf(pool.trees, i).Tree? && IsError(i) == (TreeOf(pool.trees, i).kind == Error)
    {
      Entry(pool, i);
      pool.KindOf(i) == Error
    }

    // A node without children.
    method AllocLeaf(kind: NodeKind, s: Span, payload: nat, ghost p: Payload, ghost o: Sort, ghost a: State)
      returns (n: NodeId)
      requires Valid() && Grew(a, Now()) && FitsLeaf(kind, p, o) && Stores(interner.strings, payload, p)
      modifies pool, `literals
      ensures Made(a, o, n) && TreeOf(pool.trees, n) == Leaf(kind, s, p)
    {
      hide Owned, NodePool.Valid, StringInterner.Valid, NodesOk, Stores, Shaped, Of, PayloadFits, MayBeLeaf, Always,
           Kept, Grew, Fresh;
      KeptNone(Now(), |a.trees|);
      ShapeNone(kind, p);
      n := Alloc(kind, s, [], payload, 0, p, [], a);
      AlwaysOf(o, TreeOf(pool.trees, n));
    }

    // A node over one node.
    method AllocOne(kind: NodeKind, s: Span, x: NodeId, payload: nat, ghost p: Payload, ghost o: Sort, ghost sx: Sort,
                    ghost a: State)
      returns (n: NodeId)
      requires Made(a, sx, x) && FitsOne(kind, p, o, sx) && Stores(interner.strings, payload, p)
      modifies pool, `literals
      ensures Made(a, o, n) && TreeOf(pool.trees, n) == Tree(kind, s, p, 0, [TreeOf(old(pool.trees), x)])
    {
      hide Owned, NodePool.Valid, StringInterner.Valid, NodesOk, Stores, Shaped, Of, PayloadFits, OneOf, Always,
           Kept, Grew, Fresh;
      ghost var t := TreeOf(pool.trees, x);
      KeptOne(a, Now(), x);
      ShapeOne(kind, p, sx, t);
      n := Alloc(kind, s, [x], payload, 0, p, [t], a);
      AlwaysOf(o, TreeOf(pool.trees, n));
    }

    // A node over two nodes. The first was built before state `mid`, the second after it.
    method AllocTwo(kind: NodeKind, s: Span, l: NodeId, r: NodeId, payload: nat, ghost p: Payload, ghost o: Sort,
                    ghost sl: Sort, ghost sr: Sort, ghost a: State, ghost mid: State) returns (n: NodeId)
      requires Grew(a, mid) && Fresh(a, mid, l) && Of(sl, TreeOf(mid.trees, l)) && Made(mid, sr, r)
      requires FitsTwo(kind, p, o, sl, sr) && Stores(interner.strings, payload, p)
      modifies pool, `literals
      ensures Made(a, o, n)
      ensures TreeOf(pool.trees, n) == Tree(kind, s, p, 0, [TreeOf(mid.trees, l), TreeOf(old(pool.trees), r)])
    {
      hide Owned, NodePool.Valid, StringInterner.Valid, NodesOk, Stores, Shaped, Of, PayloadFits, PairOf, Always,
           Kept, Grew, Fresh;
      GrewTrans(a, mid, Now());
      GrewFacts(a, mid);
      ghost var x, y := TreeOf(mid.trees, l), TreeOf(pool.trees, r);
      KeptPair(a, mid, Now(), l, r);
      ShapeTwo(kind, p, sl, x, sr, y);
      n := Alloc(kind, s, [l, r], payload, 0, p, [x, y], a);
      AlwaysOf(o, TreeOf(pool.trees, n));
    }

    // The same, from the start of the first to the end of the second.
    method Join(kind: NodeKind, l: NodeId, r: NodeId, payload: nat, ghost p: Payload, ghost o: Sort,
                ghost sl: Sort, ghost sr: Sort, ghost a: State, ghost mid: State) returns (n: NodeId)
      requires Grew(a, mid) && Fresh(a, mid, l) && Of(sl, TreeOf(mid.trees, l)) && Made(mid, sr, r)
      requires FitsTwo(kind, p, o, sl, sr) && Stores(interner.strings, payload, p)
      modifies pool, `literals
      ensures Made(a, o, n)
      ensures var (x, y) := (TreeOf(mid.trees, l), TreeOf(old(pool.trees), r));
              TreeOf(pool.trees, n) == Node(kind, SpanOf(x).start, SpanOf(y).end, p, [x, y])
    {
      hide Made, Valid, Owned, Stores, Of, FitsTwo, Grew, Fresh;
      Unmake(mid, sr, r);
      FreshStays(a, mid, Now(), l);
      FreshFacts(a, Now(), l);
      n := AllocTwo(kind, Span(RangeOf(l).start, RangeOf(r).end), l, r, payload, p, o, sl, sr, a, mid);
    }

    // A node over any number of nodes of one sort.
    method AllocMany(kind: NodeKind, s: Span, ids: seq<NodeId>, payload: nat, ghost p: Payload, ghost kids: seq<Tree>,
                     ghost o: Sort, ghost sk: Sort, ghost a: State) returns (n: NodeId)
      requires kind == StructLitExpr ==> structLitAllowed.On?
      requires kind != Error && Valid() && Grew(a, Now()) && Kept(Now(), |a.trees|, ids, kids) && AllOf(sk, kids)
      requires PayloadFits(kind, p) && ManyOf(kind, sk) && Always(o, kind) && Stores(interner.strings, payload, p)
      modifies pool, `literals
      ensures Made(a, o, n) && TreeOf(pool.trees, n) == Tree(kind, s, p, 0, kids)
    {
      hide Owned, NodePool.Valid, StringInterner.Valid, NodesOk, Stores, Shaped, Of, AllOf, PayloadFits, ManyOf,
           Always, Kept, Grew, Fresh;
      ShapeMany(kind, p, sk, kids);
      n := Alloc(kind, s, ids, payload, 0, p, kids, a);
      AlwaysOf(o, TreeOf(pool.trees, n));
    }

    // A node over one node and then any number of one sort.
    method AllocHead(kind: NodeKind, s: Span, x: NodeId, ids: seq<NodeId>, payload: nat, ghost p: Payload,
                     ghost kids: seq<Tree>,
                     ghost o: Sort, ghost sx: Sort, ghost sk: Sort, ghost a: State, ghost t: Tree) returns (n: NodeId)
      requires Valid() && Grew(a, Now()) && Kept(Now(), |a.trees|, [x] + ids, [t] + kids)
      requires Of(sx, t) && AllOf(sk, kids) && FitsHead(kind, p, o, sx, sk) && Stores(interner.strings, payload, p)
      modifies pool, `literals
      ensures Made(a, o, n) && TreeOf(pool.trees, n) == Tree(kind, s, p, 0, [t] + kids)
    {
      hide Owned, NodePool.Valid, StringInterner.Valid, NodesOk, Stores, Shaped, Of, AllOf, PayloadFits, HeadOf,
           Always, Kept, Grew, Fresh;
      ShapeHead(kind, p, sx, t, sk, kids);
      n := Alloc(kind, s, [x] + ids, payload, 0, p, [t] + kids, a);
      AlwaysOf(o, TreeOf(pool.trees, n));
    }

    /////////////////////////// paths ///////////////////////////

    method ParsePathSegments(first: Span) returns (span: Span, isPath: bool)
      requires Valid() && 0 < cursor
      modifies `cursor, `errors
      ensures Valid() && old(cursor) <= cursor && Older(old(errors), errors)
      ensures PathOut(|errors| == |old(errors)|, cursor) == TakeSegs(inp, old(cursor))
      ensures isPath == (old(cursor) < cursor)
      ensures span == Span(first.start, if isPath then EndOf(inp, cursor - 1) else first.end)
    {
      hide NodePool.Valid, StringInterner.Valid, NodesOk, TakeSegs, SegsTaken, RunSegs, MSegs;
      span, isPath := first, false;
      ghost var p0, e0 := cursor, errors;
      TakenStart(inp, p0);
      while Check(ColonColon)
        invariant Valid() && p0 <= cursor && Older(e0, errors)
        invariant span.start == first.start && isPath == (p0 < cursor)
        invariant span.end == (if isPath then EndOf(inp, cursor - 1) else first.end)
        invariant SegsTaken(inp, p0, |errors| == |e0|, cursor)
        decreases |inp.toks| - cursor
      {
        ghost var p := cursor;
        ghost var e := errors;
        var _ := Advance();
        while Check(ColonColon)
          invariant Valid() && p < cursor && Older(e, errors)
          invariant |errors| == |e| ==> cursor == p + 1
          invariant |errors| > |e| ==> KindAt(inp, p + 1) == ColonColon && p + 1 < cursor
          invariant PastSeparators(inp, p + 1) == PastSeparators(inp, cursor)
          decreases |inp.toks| - cursor
        {
          AddError(PeekToken().span, RedundantPathSeparator);
          var _ := Advance();
        }
        var _ := Expect(Identifier, ExpectedPathSegment);
        span := span.(end := Previous().span.end);
        isPath := true;
        TakenStep(inp, p0, |e| == |e0|, p, |errors| == |e|, cursor);
      }
      TakenExit(inp, p0, |errors| == |e0|, cursor);
    }

    method ParseRegime() returns (r: Regime)
      requires Valid()
      modifies `cursor
      ensures Valid() && r == RegimeOf(KindAt(inp, old(cursor)))
      ensures cursor == if IsRegime(KindAt(inp, old(cursor))) then old(cursor) + 1 else old(cursor)
      ensures cursor == AfterRegime(inp, old(cursor))
    {
      r := RegimeOf(Peek());
      if IsRegime(Peek()) { var _ := Advance(); }
    }

    method Synchronize()
      requires Valid()
      modifies `cursor
      ensures Valid() && cursor == SyncFrom(inp, old(cursor))
      ensures cursor == SyncEnd(inp, if KindAt(inp, old(cursor)) == Eof then old(cursor) else old(cursor) + 1)
    {
      if !AtEof() { var _ := Advance(); }
      ghost var p := cursor;
      while !AtEof()
        invariant Valid() && p <= cursor && SyncEnd(inp, p) == SyncEnd(inp, cursor)
        decreases |inp.toks| - cursor
      {
        if Previous().kind == Semi { return; }
        if IsSyncStart(Peek()) { return; }
        var _ := Advance();
      }
    }

    // Inside a bracket struct literals are legal again.
    method OpenRegion()
      requires Valid()
      modifies `structLitAllowed, `region
      ensures Valid() && structLitAllowed == On && region == old(region) + 1
    {
      structLitAllowed, region := On, region + 1;
    }

    // A header switches them off.
    method ForbidStructLit()
      requires Valid()
      modifies `structLitAllowed
      ensures Valid() && structLitAllowed == Off
    {
      structLitAllowed := Off;
    }

    method Restore(saved: Switch, ghost open: nat)
      requires Valid()
      modifies `structLitAllowed, `region
      ensures Valid() && structLitAllowed == saved && region == open
    {
      structLitAllowed, region := saved, open;
    }

    /////////////////////////// comma-separated lists ///////////////////////////

    // A clean call that began in state `a` built a node inside the tokens it read.
    ghost predicate Sited(a: State, r: NodeId)
      reads this, pool
    {
      |errors| == |a.errs| && InOrder(inp.toks) ==> Inside(inp, TreeOf(pool.trees, r), a.cur, cursor)
    }

    /** Elements with commas between them, and one more where a closing token follows. An element that
        records a diagnostic is skipped up to the next comma or the closing token. */
    method ParseCommaSeparated(ids: seq<NodeId>, close: Kind, e: Elem, ghost kids: seq<Tree>, ghost lo: nat,
                               ghost from: nat := 0)
      returns (out: seq<NodeId>, ghost l: ListOut)
      requires Valid() && close == CloseOf(e) && lo <= |pool.trees| && Kept(Now(), lo, ids, kids)
      modifies this, pool, interner
      ensures Added(old(Now()), lo, out, kids, SortOf(e), l) && ids <= out && |out| == |ids| + |l.trees|
      ensures l.ok && InOrder(inp.toks) && Row(inp, kids, from, old(cursor)) ==> Row(inp, kids + l.trees, from, cursor)
      ensures l == TakeComma(inp, old(cursor), e, old(structLitAllowed))
      decreases |inp.toks| - cursor, 8
    {
      hide NodePool.Valid, StringInterner.Valid, NodesOk, Made, Valid, Added, Owned, Of, Grew, Fresh, Kept, AllOf,
           Row, InOrder, Inside, Sited, SortOf, TakeElem, TakeMore, ItemsFound, MoreFound, ElemFound, TakeComma;
      InBounds();
      CommaTaken(inp, cursor, e, structLitAllowed);
      ghost var a := Now();
      if Check(close) || AtEof() {
        out := ids;
        l := ListOut(true, cursor, []);
        NoneAdded(lo, ids, kids, SortOf(e));
        assert kids + [] == kids;
        return;
      }
      var first := ParseElement(e, close);
      Unmake(a, SortOf(e), first);
      ghost var x, b := Got(a, first), Now();
      if x.ok && InOrder(inp.toks) && Row(inp, kids, from, a.cur) {
        SitedInside(a, first);
        RowPush(inp, kids, from, a.cur, x.tree, a.cur, x.end);
      }
      KeptPush(a, b, lo, ids, kids, first);
      ghost var more;
      out, more := ParseMoreElements(ids + [first], close, e, kids + [x.tree], lo, from);
      Unadd(b, lo, out, kids + [x.tree], SortOf(e), more);
      GrewTrans(a, b, Now());
      l := ListOut(x.ok && more.ok, cursor, [x.tree] + more.trees);
      assert (kids + [x.tree]) + more.trees == kids + l.trees;
      AllOfCons(SortOf(e), x.tree, more.trees);
      Readd(a, lo, out, kids, SortOf(e), l);
    }

    // The elements up to a closing token, behind the opening one, of a node that began in state `a`.
    method ParseEnclosed(close: Kind, e: Elem, id: DiagId, ghost a: State, ghost from: nat := 0)
      returns (ids: seq<NodeId>, end: Token, ghost l: ListOut)
      requires Valid() && Grew(a, Now()) && close == CloseOf(e)
      modifies this, pool, interner
      ensures Valid() && Grew(a, Now()) && Kept(Now(), |a.trees|, ids, l.trees) && AllOf(SortOf(e), l.trees)
      ensures old(cursor) <= cursor && structLitAllowed == old(structLitAllowed) && region == old(region)
      ensures Extends(old(interner.strings), interner.strings) && |a.errs| <= |old(errors)| <= |errors|
      ensures (|errors| == |a.errs|) == (|old(errors)| == |a.errs| && l.ok && KindAt(inp, l.end) == close)
      ensures |errors| == |a.errs| ==> cursor == l.end + 1 && end == TokenAt(inp, l.end)
      ensures l.end <= cursor
      ensures l.ok && InOrder(inp.toks) && Row(inp, [], from, old(cursor)) ==> Row(inp, l.trees, from, l.end)
      ensures l == TakeComma(inp, old(cursor), e, old(structLitAllowed))
      ensures cursor == Past(inp, l.end, close) && end.span == TokenAt(inp, l.end).span
      ensures (|errors| == |old(errors)|) == (l.ok && KindAt(inp, l.end) == close)
      decreases |inp.toks| - cursor, 9
    {
      hide NodePool.Valid, StringInterner.Valid, NodesOk, Valid, Added, Owned, Grew, Kept, AllOf, Row, InOrder,
           SortOf, TakeComma, ItemsFound;
      ghost var b := Now();
      GrewFacts(a, b);
      KeptNone(b, |a.trees|);
      ids, l := ParseCommaSeparated([], close, e, [], |a.trees|, from);
      Unadd(b, |a.trees|, ids, [], SortOf(e), l);
      assert [] + l.trees == l.trees;
      ghost var c := Now();
      GrewTrans(a, b, c);
      GrewStrings(b, c);
      end := Expect(close, id);
      Moved(a, c, Now());
      KeptMoved(c, Now(), |a.trees|, ids, l.trees);
    }

    // The elements behind the first.
    method ParseMoreElements(ids: seq<NodeId>, close: Kind, e: Elem, ghost kids: seq<Tree>, ghost lo: nat,
                             ghost from: nat)
      returns (out: seq<NodeId>, ghost l: ListOut)
      requires Valid() && close == CloseOf(e) && lo <= |pool.trees| && Kept(Now(), lo, ids, kids)
      modifies this, pool, interner
      ensures Added(old(Now()), lo, out, kids, SortOf(e), l) && ids <= out && |out| == |ids| + |l.trees|
      ensures l.ok && InOrder(inp.toks) && Row(inp, kids, from, old(cursor)) ==> Row(inp, kids + l.trees, from, cursor)
      ensures l == TakeMore(inp, old(cursor), e, old(structLitAllowed))
      decreases |inp.toks| - cursor, 7
    {
      hide NodePool.Valid, StringInterner.Valid, NodesOk, Made, Valid, Added, Owned, Of, Grew, Fresh, Kept, AllOf,
           Row, InOrder, SortOf, Sited, TakeElem, TakeMore, MoreTaken, MoreFound, ElemFound, CloseOf;
      ghost var a, p0 := Now(), cursor;
      out := ids;
      l := ListOut(true, cursor, []);
      InBounds();
      MoreTakenStart(inp, p0, e, a.sl);
      NoneAdded(lo, ids, kids, SortOf(e));
      Started(a, a);
      assert kids + [] == kids;
      while Check(Comma)
        invariant Added(a, lo, out, kids, SortOf(e), l) && ids <= out && |out| == |ids| + |l.trees|
        invariant MoreTaken(inp, p0, e, a.sl, l)
        invariant l.ok && InOrder(inp.toks) && Row(inp, kids, from, p0) ==> Row(inp, kids + l.trees, from, cursor)
        decreases |inp.toks| - cursor
      {
        Unadd(a, lo, out, kids, SortOf(e), l);
        ghost var b := Now();
        var _ := Advance();
        ghost var c := Now();
        Moved(a, b, c);
        KeptMoved(b, c, lo, out, kids + l.trees);
        if Check(close) {
          if l.ok && InOrder(inp.toks) && Row(inp, kids, from, p0) {
            RowWiden(inp, kids + l.trees, from, b.cur, c.cur);
          }
          MoreTakenExit(inp, p0, e, a.sl, l);
          l := ListOut(l.ok, cursor, l.trees);
          Readd(a, lo, out, kids, SortOf(e), l);
          return;
        }
        var r := ParseElement(e, close);
        Unmake(c, SortOf(e), r);
        ghost var l0 := l;
        MoreTakenStep(inp, p0, e, a.sl, l, Got(c, r));
        l := OneAdded(a, c, lo, out, kids, SortOf(e), l, r);
        if l.ok && InOrder(inp.toks) && Row(inp, kids, from, p0) { RowGrows(b.cur, c, r, kids, l0.trees, from); }
        out := out + [r];
      }
      Unadd(a, lo, out, kids, SortOf(e), l);
      MoreTakenExit(inp, p0, e, a.sl, l);
    }

    // A clean element behind a comma at `pos` extends the row of children.
    lemma RowGrows(pos: nat, c: State, r: NodeId, kids: seq<Tree>, more: seq<Tree>, from: nat)
      requires Sited(c, r) && |errors| == |c.errs| && InOrder(inp.toks) && Row(inp, kids + more, from, pos)
      requires pos <= c.cur <= cursor <= |inp.toks| && TreeOf(pool.trees, r).Tree?
      ensures Row(inp, kids + (more + [TreeOf(pool.trees, r)]), from, cursor)
    {
      hide Row, InOrder, Inside, Sited;
      var t := TreeOf(pool.trees, r);
      SitedInside(c, r);
      RowPush(inp, kids + more, from, pos, t, c.cur, cursor);
      assert kids + (more + [t]) == (kids + more) + [t];
    }

    lemma SitedInside(a: State, r: NodeId)
      requires Sited(a, r) && |errors| == |a.errs| && InOrder(inp.toks)
      ensures Inside(inp, TreeOf(pool.trees, r), a.cur, cursor)
    {
    }

    // One element, and recovery when it recorded a diagnostic.
    method ParseElement(e: Elem, close: Kind) returns (r: NodeId)
      requires Valid() && close == CloseOf(e)
      modifies this, pool, interner
      ensures Made(old(Now()), SortOf(e), r) && Sited(old(Now()), r)
      ensures Got(old(Now()), r) == TakeElem(inp, old(cursor), e, old(structLitAllowed))
      decreases |inp.toks| - cursor, 6
    {
      hide NodePool.Valid, StringInterner.Valid, NodesOk, Made, Valid, Owned, Of, Grew, Fresh, Sited, TakeOne,
           ElemFound;
      ghost var a := Now();
      var errorsBefore := |errors|;
      r := ParseOneElement(e);
      Unmake(a, SortOf(e), r);
      ghost var b, x := Now(), Got(a, r);
      if |errors| != errorsBefore {
        while !Check(Comma) && !Check(close) && !AtEof()
          invariant cursor <= |inp.toks| && Valid() && b.cur <= cursor && b == Now().(cur := b.cur)
          invariant FirstOf(inp, b.cur, {Comma, close}) == FirstOf(inp, cursor, {Comma, close})
          decreases |inp.toks| - cursor
        {
          var _ := Advance();
        }
        MadeMoved(a, b, SortOf(e), r);
        SitedVacuous(a, r);
      }
    }

    lemma SitedVacuous(a: State, r: NodeId)
      requires |errors| != |a.errs|
      ensures Sited(a, r)
    {
    }

    // The element parser a list was called with.
    method ParseOneElement(e: Elem) returns (r: NodeId)
      requires Valid()
      modifies this, pool, interner
      ensures Made(old(Now()), SortOf(e), r) && Sited(old(Now()), r)
      ensures Got(old(Now()), r) == TakeOne(inp, old(cursor), e, old(structLitAllowed))
      decreases |inp.toks| - cursor, 5, 1
    {
      hide NodePool.Valid, StringInterner.Valid, NodesOk, Made, Valid, Owned, Of, Grew, Fresh, Inside, InOrder,
           Sited, TreeOf, TakeType, TakePat, TakeFieldPat, TakeFieldInit, TakeExpr, TakeField, TakeVariant,
           ReadField, ReadVariant, ReadOne, Stands, Says;
      ghost var a := Now();
      match e {
        case AField => r := ParseStructField();
        case AVariant => r := ParseEnumVariant();
        case _ => r := ParseSyntaxElement(e);
      }
    }

    method ParseSyntaxElement(e: Elem) returns (r: NodeId)
      requires Valid() && IsSyntax(e)
      modifies this, pool, interner
      ensures Made(old(Now()), SortOf(e), r) && Sited(old(Now()), r)
      ensures Got(old(Now()), r) == TakeOne(inp, old(cursor), e, old(structLitAllowed))
      decreases |inp.toks| - cursor, 5, 0
    {
      hide NodePool.Valid, StringInterner.Valid, NodesOk, Made, Valid, Owned, Of, Grew, Fresh, Inside, InOrder,
           TreeOf, TakeType, TakePat, TakeFieldPat, TakeFieldInit, TakeExpr, TakeField, TakeVariant, RunElem,
           RunType, RunPat, RunExpr, RunField, Stands, Agrees;
      ghost var a := Now();
      match e {
        case AType => r := ParseType();
        case APat => r := ParsePat();
        case AFieldPat => r := ParseFieldPat();
        case AFieldInit => r := ParseFieldInit();
        case AConst => r := ParseConstExpr(0);
      }
      if |errors| == |a.errs| && InOrder(inp.toks) {
        CleanOne(inp, a.cur, e, a.sl);
        ElemInside(inp, a.cur, ClassOf(ListOf(e)), a.sl, Got(a, r));
      }
    }

    method ParseFieldPat() returns (r: NodeId)
      requires Valid()
      modifies this, pool, interner
      ensures Made(old(Now()), NFieldPat, r)
      ensures Agrees(inp, old(cursor), Got(old(Now()), r), RunField(inp, old(cursor), On, old(structLitAllowed)))
      ensures Got(old(Now()), r) == TakeFieldPat(inp, old(cursor), old(structLitAllowed))
      decreases |inp.toks| - cursor, 0
    {
      hide NodePool.Valid, StringInterner.Valid, NodesOk, Made, Valid, Owned, Of, Grew, Fresh, RunField, Stands,
           Stores, ErrorNodes, RangeOf, TextOf, TakePat, FitsOne, FitsLeaf, Agrees, RunPat;
      InBounds();
      CleanFieldPat(inp, cursor, structLitAllowed);
      ghost var a := Now();
      if !Check(Identifier) {
        var s := PeekToken().span;
        Started(a, a);
        r := FailAt(s, ExpectedFieldPatName, s, NFieldPat, a);
        return;
      }
      var tok := Advance();
      var name := Intern(Text(tok.span));
      FieldPatFits(Text(tok.span));
      var colon := Consume(Colon);
      ghost var b := Now();
      Started(a, b);
      if colon {
        var pat := ParsePat();
        Unmake(b, NPat, pat);
        FreshLater(a, b, Now(), pat);
        Remake(a, NPat, pat);
        GrewStrings(b, Now());
        StoresName(b.strs, interner.strings, name);
        r := AllocOne(FieldPat, Span(tok.span.start, RangeOf(pat).end), pat, name, Name(Text(tok.span)), NFieldPat,
                      NPat, a);
      } else {
        StoresName(interner.strings, interner.strings, name);
        r := AllocLeaf(FieldPat, tok.span, name, Name(Text(tok.span)), NFieldPat, a);
      }
      Unmake(a, NFieldPat, r);
    }

    method ParseFieldInit() returns (r: NodeId)
      requires Valid()
      modifies this, pool, interner
      ensures Made(old(Now()), NFieldInit, r)
      ensures Agrees(inp, old(cursor), Got(old(Now()), r), RunField(inp, old(cursor), Off, old(structLitAllowed)))
      ensures Got(old(Now()), r) == TakeFieldInit(inp, old(cursor), old(structLitAllowed))
      decreases |inp.toks| - cursor, 0
    {
      hide NodePool.Valid, StringInterner.Valid, NodesOk, Made, Valid, Owned, Of, Grew, Fresh, RunField, Stands,
           Stores, ErrorNodes, RangeOf, TextOf, FitsOne, FitsLeaf, Agrees, TakeExpr, RunExpr;
      InBounds();
      CleanFieldInit(inp, cursor, structLitAllowed);
      ghost var a := Now();
      if !Check(Identifier) {
        var s := PeekToken().span;
        Started(a, a);
        r := FailAt(s, ExpectedFieldInitName, s, NFieldInit, a);
        return;
      }
      var tok := Advance();
      var name := Intern(Text(tok.span));
      var colon := Consume(Colon);
      ghost var b := Now();
      Started(a, b);
      FieldFits(Text(tok.span));
      var value;
      if colon {
        value := ParseExpr(0);
        Unmake(b, NExpr, value);
        FreshLater(a, b, Now(), value);
        Remake(a, NExpr, value);
        GrewStrings(b, Now());
        StoresName(b.strs, interner.strings, name);
        r := AllocOne(FieldInit, Span(tok.span.start, RangeOf(value).end), value, name, Name(Text(tok.span)),
                      NFieldInit, NExpr, a);
      } else {
        StoresName(interner.strings, interner.strings, name);
        value := AllocLeaf(IdentExpr, tok.span, name, Name(Text(tok.span)), NExpr, a);
        r := AllocOne(FieldInit, tok.span, value, name, Name(Text(tok.span)), NFieldInit, NExpr, a);
      }
      Unmake(a, NFieldInit, r);
    }

    /** The expressions behind the first of a bracketed list, each with its comma. The source writes
        this loop out in tuples, arrays, argument lists, indices and tensor values. */
    method ParseMoreExprs(lk: ListKind, ids: seq<NodeId>, ghost kids: seq<Tree>, ghost lo: nat)
      returns (out: seq<NodeId>, ghost l: ListOut)
      requires Valid() && lo <= |pool.trees| && Kept(Now(), lo, ids, kids) && ClassOf(lk) == CExpr
      requires structLitAllowed == On
      modifies this, pool, interner
      ensures Added(old(Now()), lo, out, kids, NExpr, l) && ids <= out && |out| == |ids| + |l.trees|
      ensures l == TakeMoreExprs(inp, old(cursor), lk)
      decreases |inp.toks| - cursor, 4
    {
      hide NodePool.Valid, StringInterner.Valid, NodesOk, Made, Valid, Added, Owned, Of, Grew, Fresh, Kept, AllOf,
           IsStop, TakeExpr, TakeMoreExprs, ExprsTaken, RunMore, RunExpr, RunElem, Stands, MMore, AstMore;
      ghost var a, p0 := Now(), cursor;
      out := ids;
      l := ListOut(true, cursor, []);
      InBounds();
      ExprsTakenStart(inp, p0, lk);
      NoneAdded(lo, ids, kids, NExpr);
      while Check(Comma)
        invariant Added(a, lo, out, kids, NExpr, l) && ids <= out && |out| == |ids| + |l.trees|
        invariant ExprsTaken(inp, p0, lk, l)
        decreases |inp.toks| - cursor
      {
        Unadd(a, lo, out, kids, NExpr, l);
        ghost var b := Now();
        var _ := Advance();
        ghost var c := Now();
        Moved(a, b, c);
        KeptMoved(b, c, lo, out, kids + l.trees);
        if IsStop(lk, Peek()) {
          ExprsTakenExit(inp, p0, lk, l);
          l := ListOut(l.ok, cursor, l.trees);
          Readd(a, lo, out, kids, NExpr, l);
          return;
        }
        var r := ParseExpr(0);
        ghost var e := Got(c, r);
        ExprsTakenStep(inp, p0, lk, l, e);
        l := OneAdded(a, c, lo, out, kids, NExpr, l, r);
        out := out + [r];
      }
      Unadd(a, lo, out, kids, NExpr, l);
      ExprsTakenExit(inp, p0, lk, l);
    }

    /** At least one expression, struct literals allowed; the flag is as it was afterwards. */
    method ParseExprItems(lk: ListKind, ids: seq<NodeId>, ghost kids: seq<Tree>, ghost lo: nat)
      returns (out: seq<NodeId>, ghost l: ListOut)
      requires Valid() && lo <= |pool.trees| && Kept(Now(), lo, ids, kids) && ClassOf(lk) == CExpr
      modifies this, pool, interner
      ensures Added(old(Now()), lo, out, kids, NExpr, l) && ids <= out && |out| == |ids| + |l.trees| && |l.trees| >= 1
      ensures l == TakeExprItems(inp, old(cursor), lk)
      decreases |inp.toks| - cursor, 5
    {
      hide NodePool.Valid, StringInterner.Valid, NodesOk, Made, Valid, Added, Owned, Of, Grew, Fresh, Kept, AllOf,
           IsStop, TakeExpr, TakeMoreExprs, RunItems, RunMore, RunExpr, RunElem, Stands, MMore, AstMore, MItems,
           AstItems;
      ghost var a := Now();
      Started(a, a);
      var saved := structLitAllowed;
      OpenRegion();
      ghost var b := Now();
      KeptMoved(a, b, lo, ids, kids);
      var first := ParseExpr(0);
      Unmake(b, NExpr, first);
      ghost var e, c := Got(b, first), Now();
      KeptPush(b, c, lo, ids, kids, first);
      ghost var more;
      out, more := ParseMoreExprs(lk, ids + [first], kids + [e.tree], lo);
      Unadd(c, lo, out, kids + [e.tree], NExpr, more);
      ghost var d := Now();
      GrewTrans(b, c, d);
      Restore(saved, a.open);
      Closed(a, a, b, d, Now());
      l := ListOut(e.ok && more.ok, cursor, [e.tree] + more.trees);
      assert (kids + [e.tree]) + more.trees == kids + l.trees;
      KeptMoved(d, Now(), lo, out, kids + l.trees);
      AllOfCons(NExpr, e.tree, more.trees);
      Readd(a, lo, out, kids, NExpr, l);
    }

    /////////////////////////// expressions ///////////////////////////

    /** The Pratt loop. It is clean exactly when the grammar has an expression here, and then it builds
        that expression's tree. */
    method ParseExpr(m: int) returns (r: NodeId)
      requires Valid() && m >= 0
      modifies this, pool, interner
      ensures Made(old(Now()), NExpr, r)
      ensures Agrees(inp, old(cursor), Got(old(Now()), r), RunExpr(inp, old(cursor), m, old(structLitAllowed)))
      ensures !IsSync(KindAt(inp, old(cursor))) && old(cursor) < |inp.toks| ==> old(cursor) < cursor
      ensures Got(old(Now()), r) == TakeExpr(inp, old(cursor), m, old(structLitAllowed))
      decreases |inp.toks| - cursor, 3
    {
      hide NodePool.Valid, StringInterner.Valid, NodesOk, Made, Valid, Owned, Of, Grew, Fresh, IsSync, RunExpr,
           Stands, InfixBindingPower, TakePrefix, TakePostfix, TakeOps, TakeExpr, OpsTaken, Infix, IsErrorTree,
           RunPrefix, RunPostfix;
      InBounds();
      CleanExpr(inp, cursor, m, structLitAllowed);
      ghost var a := Now();
      ghost var start := cursor;
      var lhs := ParsePrefixExpr();
      Unmake(a, NExpr, lhs);
      ghost var b := Got(a, lhs);
      OpsTakenStart(inp, start, m, a.sl, b);
      while true
        invariant Made(a, NExpr, lhs) && b == Got(a, lhs)
        invariant start <= cursor <= |inp.toks|
        invariant OpsTaken(inp, start, m, a.sl, b)
        invariant !IsSync(KindAt(inp, start)) && start < |inp.toks| ==> start < cursor
        decreases |inp.toks| - cursor
      {
        Unmake(a, NExpr, lhs);
        ghost var e := |errors|;
        lhs := ParsePostfixOrCallExpr(lhs, a);
        Unmake(a, NExpr, lhs);
        ghost var p, x := Got(a, lhs), Since(e, lhs);
        var power := InfixBindingPower(Peek());
        if power.left < m {
          OpsTakenExit(inp, start, m, a.sl, b, x);
          break;
        }
        OperatorNotEof(Peek());
        var done;
        ghost var q;
        lhs, done, q := ParseOperator(lhs, power.right, a);
        Unmake(a, NExpr, lhs);
        OpsTakenStep(inp, start, m, a.sl, b, x, q, Got(a, lhs));
        b := Got(a, lhs);
        if done { break; }
      }
      r := lhs;
    }

    // One turn of the loop behind its break: the operator, the right operand at power `m`, and the
    // node. A right operand that fails altogether takes the place of the whole expression.
    method ParseOperator(lhs: NodeId, m: int, ghost a: State) returns (r: NodeId, done: bool, ghost q: Out)
      requires Made(a, NExpr, lhs) && LeftPower(Peek()) >= 0 && m == RightPower(Peek()) && m >= 0 && cursor < |inp.toks|
      modifies this, pool, interner
      ensures Made(a, NExpr, r) && old(cursor) < cursor
      ensures q.ok == (|errors| == |old(errors)|) && |old(errors)| <= |errors| && q.end == cursor
      ensures done ==> !q.ok
      ensures q.ok ==> var p := TreeOf(old(pool.trees), lhs);
              TreeOf(pool.trees, r)
                == Node(BinaryExpr, SpanOf(p).start, SpanOf(q.tree).end, Op(KindAt(inp, old(cursor))), [p, q.tree])
      ensures q == TakeExpr(inp, old(cursor) + 1, m, old(structLitAllowed)) && done == IsErrorTree(q.tree)
      ensures TreeOf(pool.trees, r) == if done then q.tree
              else Infix(TreeOf(old(pool.trees), lhs), KindAt(inp, old(cursor)), q.tree)
      decreases |inp.toks| - cursor, 1
    {
      hide NodePool.Valid, StringInterner.Valid, NodesOk, Made, Valid, Owned, Stores, Of, PayloadFits, PairOf, Grew,
           Fresh, Always, IsSync, InfixBindingPower, RangeOf, TakeExpr, RunExpr, Stands, Agrees;
      Unmake(a, NExpr, lhs);
      OperatorNotEof(Peek());
      ghost var top := Now();
      var op := Advance();
      ghost var mid := Now();
      Moved(a, top, mid);
      Started(top, mid);
      FreshStays(a, top, mid, lhs);
      var rhs := ParseExpr(m);
      Unmake(mid, NExpr, rhs);
      q := Got(mid, rhs);
      done := IsError(rhs);
      if done {
        FreshLater(a, mid, Now(), rhs);
        r := rhs;
        Remake(a, NExpr, r);
        return;
      }
      ValueOf(q.tree);
      Remake(mid, NValue, rhs);
      BinaryLayout(op.kind);
      StoresOp(interner.strings, op.kind);
      r := Join(BinaryExpr, lhs, rhs, MakeOpPayload(op.kind as nat), Op(op.kind), NExpr, NExpr, NValue, a, mid);
    }

    method ParsePrefixExpr() returns (r: NodeId)
      requires Valid()
      modifies this, pool, interner
      ensures Made(old(Now()), NExpr, r)
      ensures Agrees(inp, old(cursor), Got(old(Now()), r), RunPrefix(inp, old(cursor), old(structLitAllowed)))
      ensures !IsSync(KindAt(inp, old(cursor))) && old(cursor) < |inp.toks| ==> old(cursor) < cursor
      ensures Got(old(Now()), r) == TakePrefix(inp, old(cursor), old(structLitAllowed))
      decreases |inp.toks| - cursor, 2
    {
      hide NodePool.Valid, StringInterner.Valid, NodesOk, Made, Valid, Owned, Of, Grew, Fresh, RunPrefix, Stands,
           TakeName, TakeParen, TakeArray, TakeIf, TakeWhile, TakeMatch, TakeUnsafe, TakeBlock, TakeTensor,
           TakeUnary, RunNameExpr, RunParen, RunArray, RunIf, RunWhile, RunMatch, RunUnsafe, RunBlock, RunTensor,
           RunUnary;
      InBounds();
      CleanPrefix(inp, cursor, structLitAllowed);
      var k := Peek();
      if IsLiteral(k) { r := ParseLitExpr(); }
      else if k == Identifier { r := ParseNameExpr(); }
      else if k == LParen { r := ParseParenExpr(); }
      else if k == LSquare { r := ParseArrayLitExpr(); }
      else if k == KwIf { r := ParseIfExpr(); Sorts(old(Now()), NElse, NExpr, r); }
      else if k == KwWhile { r := ParseWhileStmt(); }
      else if k == KwMatch { r := ParseMatchExpr(); }
      else if k == KwUnsafe { r := ParseUnsafeBlock(); }
      else if k == LBrace { r := ParseBlockExpr(); Sorts(old(Now()), NBlock, NExpr, r); }
      else if k == KwTensor { r := ParseTensorLitExpr(); }
      else if IsPrefixOp(k) { r := ParseUnaryExpr(); }
      else { r := ParseNoExpr(); }
    }

    // Anything that opens no expression is an error; a token that closes something stays.
    method ParseNoExpr() returns (r: NodeId)
      requires Valid() && !StartsExpr(Peek())
      modifies this, pool, interner
      ensures Made(old(Now()), NExpr, r) && |errors| > |old(errors)|
      ensures !IsSync(KindAt(inp, old(cursor))) && old(cursor) < |inp.toks| ==> old(cursor) < cursor
      ensures Got(old(Now()), r)
              == Wrong(inp, old(cursor), if IsSync(KindAt(inp, old(cursor))) then old(cursor)
                       else Next(inp, old(cursor)))
    {
      hide NodePool.Valid, StringInterner.Valid, NodesOk, Made, Valid, Owned, Of, Grew, Fresh, ErrorNodes;
      ghost var a := Now();
      var tok := PeekToken();
      if !IsSync(tok.kind) { var _ := Advance(); }
      AddError(tok.span, ExpectedExpr);
      Started(a, Now());
      r := MakeErrorNode(tok.span, a);
      ErrorOf(NExpr, TreeOf(pool.trees, r));
      Remake(a, NExpr, r);
    }

    method ParseLitExpr() returns (r: NodeId)
      requires Valid() && IsLiteral(Peek())
      modifies this, pool, interner
      ensures Made(old(Now()), NExpr, r) && old(cursor) < cursor
      ensures Agrees(inp, old(cursor), Got(old(Now()), r), RunPrefix(inp, old(cursor), old(structLitAllowed)))
      ensures Got(old(Now()), r) == TakePrefix(inp, old(cursor), old(structLitAllowed))
    {
      hide NodePool.Valid, StringInterner.Valid, NodesOk, Made, Valid, Owned, Of, Grew, Fresh, RunPrefix, Stands,
           Stores, TakeName, TakeParen, TakeArray, TakeIf, TakeWhile, TakeMatch, TakeUnsafe, TakeBlock, TakeTensor,
           TakeUnary;
      InBounds();
      CleanPrefix(inp, cursor, structLitAllowed);
      ghost var a := Now();
      var tok := Advance();
      var name := Intern(Text(tok.span));
      StoresNameRegime(interner.strings, name, NoRegime);
      Started(a, Now());
      r := AllocLeaf(LitExpr, tok.span, MakePayload(name, NoRegime), NameRegime(Text(tok.span), NoRegime), NExpr, a);
    }

    method ParseNameExpr() returns (r: NodeId)
      requires Valid() && Peek() == Identifier
      modifies this, pool, interner
      ensures Made(old(Now()), NExpr, r) && old(cursor) < cursor
      ensures Agrees(inp, old(cursor), Got(old(Now()), r), RunNameExpr(inp, old(cursor), old(structLitAllowed)))
      ensures Got(old(Now()), r) == TakeName(inp, old(cursor), old(structLitAllowed))
      decreases |inp.toks| - cursor, 1
    {
      hide NodePool.Valid, StringInterner.Valid, NodesOk, Made, Valid, Owned, Of, Grew, Fresh, RunNameExpr, Stands,
           TakeSegs, TakeComma;
      InBounds();
      CleanName(inp, cursor, structLitAllowed);
      ghost var a := Now();
      var tok := Advance();
      var path, isPath;
      path, isPath := ParsePathSegments(tok.span);
      var name := Intern(Text(path));
      Started(a, Now());
      if structLitAllowed.On? && Check(LBrace) {
        r := ParseStructLitExpr(name, path, a);
        return;
      }
      r := AllocLeaf(if isPath then PathExpr else IdentExpr, path, name, Name(Text(path)), NExpr, a);
    }

    // The fields of a struct literal that began in state `a`, braces included; inside them struct
    // literals are allowed.
    method ParseFieldInits(ghost a: State) returns (ids: seq<NodeId>, close: Token, ghost l: ListOut)
      requires Valid() && Grew(a, Now()) && structLitAllowed.On? && Peek() == LBrace
      modifies this, pool, interner
      ensures Valid() && Grew(a, Now()) && Kept(Now(), |a.trees|, ids, l.trees) && AllOf(NFieldInit, l.trees)
      ensures old(cursor) < cursor && structLitAllowed.On?
      ensures Extends(old(interner.strings), interner.strings) && |a.errs| <= |old(errors)| <= |errors|
      ensures (|errors| == |a.errs|) == (|old(errors)| == |a.errs| && l.ok && KindAt(inp, l.end) == RBrace)
      ensures |errors| == |a.errs| ==> cursor == l.end + 1 && close == TokenAt(inp, l.end)
      ensures l == TakeComma(inp, old(cursor) + 1, AFieldInit, On)
      ensures cursor == Past(inp, l.end, RBrace) && close.span == TokenAt(inp, l.end).span
      decreases |inp.toks| - cursor, 0
    {
      hide NodePool.Valid, StringInterner.Valid, NodesOk, Valid, Owned, Grew, Kept, AllOf, TakeComma, RunComma,
           AgreesItems;
      ghost var top := Now();
      GrewFacts(a, top);
      var _ := Advance();
      ghost var b0 := Now();
      var saved := structLitAllowed;
      OpenRegion();
      ghost var b := Now();
      Started(b, b);
      ids, close, l := ParseEnclosed(RBrace, AFieldInit, ExpectedStructLitClose, b);
      ghost var c := Now();
      Restore(saved, top.open);
      Moved(a, top, b0);
      Closed(a, b0, b, c, Now());
      KeptLower(c, |a.trees|, |b.trees|, ids, l.trees);
      KeptMoved(c, Now(), |a.trees|, ids, l.trees);
    }

    // Behind a name that began in state `a` and has `n` path segments.
    method ParseStructLitExpr(name: Id, start: Span, ghost a: State) returns (r: NodeId)
      requires Valid() && Grew(a, Now()) && structLitAllowed.On? && Peek() == LBrace
      requires KindAt(inp, a.cur) == Identifier && a.cur < cursor
      requires name < |interner.strings| && interner.strings[name] == Text(start)
      requires start == PathRange(inp, a.cur, cursor)
               && PathOut(|errors| == |a.errs|, cursor) == TakeSegs(inp, a.cur + 1)
      modifies this, pool, interner
      ensures Made(a, NExpr, r) && old(cursor) < cursor
      ensures Got(a, r) == TakeName(inp, a.cur, On)
      decreases |inp.toks| - cursor, 1
    {
      hide NodePool.Valid, StringInterner.Valid, NodesOk, Made, Valid, Owned, Of, Grew, Fresh, Kept, AllOf, TreeOf,
           TakeSegs, TakeComma, RunNameExpr, RunComma, Stands, MItems, AstItems, Agrees, AgreesItems;
      ghost var top := Now();
      var ids, close;
      ghost var l;
      ids, close, l := ParseFieldInits(a);
      StoresName(top.strs, interner.strings, name);
      r := AllocMany(StructLitExpr, Span(start.start, close.span.end), ids, name, Name(Text(start)), l.trees, NExpr,
                     NFieldInit, a);
    }

    // `()`, `(x)`, `(x,)`, `(x, y, ...)`; only the second leaves no node behind.
    method ParseParenExpr() returns (r: NodeId)
      requires Valid() && Peek() == LParen
      modifies this, pool, interner
      ensures Made(old(Now()), NExpr, r) && old(cursor) < cursor
      ensures Agrees(inp, old(cursor), Got(old(Now()), r), RunParen(inp, old(cursor)))
      ensures Got(old(Now()), r) == TakeParen(inp, old(cursor))
      decreases |inp.toks| - cursor, 1
    {
      hide NodePool.Valid, StringInterner.Valid, NodesOk, Made, Valid, Added, Owned, Of, Grew, Fresh, Kept, AllOf,
           RunParen, Stands, Stores, TakeExpr, TakeMoreExprs, RunMore, RunExpr, MMore, AstMore;
      InBounds();
      CleanParen(inp, cursor);
      ghost var a := Now();
      var tok := Advance();
      ghost var b0 := Now();
      Started(a, b0);
      var saved := structLitAllowed;
      OpenRegion();
      ghost var b := Now();
      if Check(RParen) {
        var end := Advance();
        Restore(saved, a.open);
        Started(a, Now());
        StoresZero(interner.strings);
        r := AllocLeaf(TupleExpr, Span(tok.span.start, end.span.end), 0, Zero, NExpr, a);
        return;
      }
      var inner := ParseExpr(0);
      Unmake(b, NExpr, inner);
      ghost var c := Now();
      if Check(Comma) {
        ghost var more;
        r, more := ParseTupleRest(tok.span.start, inner, saved, a, b);
        return;
      }
      var _ := Expect(RParen, ExpectedParenExprClose);
      Restore(saved, a.open);
      Closed(a, b0, b, c, Now());
      FreshFrom(a, b, c, Now(), inner);
      r := inner;
      Remake(a, NExpr, r);
    }

    // Behind the first value of a tuple, which began in state `a`; values are read since state `b`.
    method ParseTupleRest(start: nat, first: NodeId, saved: Switch, ghost a: State, ghost b: State)
      returns (r: NodeId, ghost more: ListOut)
      requires Made(b, NExpr, first) && Check(Comma) && b == a.(cur := b.cur, sl := On, open := a.open + 1)
      requires saved == a.sl && a.cur <= b.cur
      modifies this, pool, interner
      ensures Made(a, NExpr, r) && old(cursor) <= cursor
      ensures (|errors| == |a.errs|) == (|old(errors)| == |a.errs| && more.ok && KindAt(inp, more.end) == RParen)
      ensures more == TakeMoreExprs(inp, old(cursor), LTuple) && cursor == Past(inp, more.end, RParen)
      ensures TreeOf(pool.trees, r)
                == Node(TupleExpr, start, EndOf(inp, more.end), Zero, [TreeOf(old(pool.trees), first)] + more.trees)
      decreases |inp.toks| - cursor, 5
    {
      hide NodePool.Valid, StringInterner.Valid, NodesOk, Made, Valid, Added, Owned, Of, Grew, Fresh, Kept, AllOf,
           Stores, TakeMoreExprs, RunMore, Stands, MMore, AstMore;
      Unmake(b, NExpr, first);
      ghost var c, t := Now(), TreeOf(pool.trees, first);
      KeptOne(b, c, first);
      var ids;
      ids, more := ParseMoreExprs(LTuple, [first], [t], |a.trees|);
      Unadd(c, |a.trees|, ids, [t], NExpr, more);
      ghost var d := Now();
      GrewTrans(b, c, d);
      var end := Expect(RParen, ExpectedTupleExprClose);
      Restore(saved, a.open);
      ghost var b0 := a.(cur := b.cur);
      Started(a, b0);
      Closed(a, b0, b, d, Now());
      KeptMoved(d, Now(), |a.trees|, ids, [t] + more.trees);
      AllOfCons(NExpr, t, more.trees);
      StoresZero(interner.strings);
      r := AllocMany(TupleExpr, Span(start, end.span.end), ids, 0, Zero, [t] + more.trees, NExpr, NExpr, a);
    }

    method ParseArrayLitExpr() returns (r: NodeId)
      requires Valid() && Peek() == LSquare
      modifies this, pool, interner
      ensures Made(old(Now()), NExpr, r) && old(cursor) < cursor
      ensures Agrees(inp, old(cursor), Got(old(Now()), r), RunArray(inp, old(cursor)))
      ensures Got(old(Now()), r) == TakeArray(inp, old(cursor))
      decreases |inp.toks| - cursor, 1
    {
      hide NodePool.Valid, StringInterner.Valid, NodesOk, Made, Valid, Added, Owned, Of, Grew, Fresh, Kept, AllOf,
           RunArray, Stands, Stores, TakeExpr, TakeMoreExprs, RunMore, RunExpr, MMore, AstMore;
      InBounds();
      CleanArray(inp, cursor);
      ghost var a := Now();
      var start := Advance();
      ghost var b0 := Now();
      Started(a, b0);
      var saved := structLitAllowed;
      OpenRegion();
      ghost var b := Now();
      if Check(RSquare) {
        var end := Advance();
        Restore(saved, a.open);
        Started(a, Now());
        StoresZero(interner.strings);
        r := AllocLeaf(ArrayLitExpr, Span(start.span.start, end.span.end), 0, Zero, NExpr, a);
        return;
      }
      var first := ParseExpr(0);
      Unmake(b, NExpr, first);
      if Check(Semi) {
        ghost var n;
        r, n := ParseRepeatRest(start.span.start, first, saved, a, b);
      } else {
        ghost var more;
        r, more := ParseArrayRest(start.span.start, first, saved, a, b);
      }
    }

    // Behind `[` value, where the count of a repeat form follows.
    method ParseRepeatRest(start: nat, first: NodeId, saved: Switch, ghost a: State, ghost b: State)
      returns (r: NodeId, ghost n: Out)
      requires Made(b, NExpr, first) && Check(Semi) && b == a.(cur := b.cur, sl := On, open := a.open + 1)
      requires saved == a.sl && a.cur <= b.cur
      modifies this, pool, interner
      ensures Made(a, NExpr, r) && old(cursor) < cursor
      ensures (|errors| == |a.errs|) == (|old(errors)| == |a.errs| && n.ok && KindAt(inp, n.end) == RSquare)
      ensures n == TakeExpr(inp, old(cursor) + 1, 0, On) && cursor == Past(inp, n.end, RSquare)
      ensures TreeOf(pool.trees, r)
                == Node(ArrayRepeatExpr, start, EndOf(inp, n.end), Zero, [TreeOf(old(pool.trees), first), n.tree])
      decreases |inp.toks| - cursor, 5
    {
      hide NodePool.Valid, StringInterner.Valid, NodesOk, Made, Valid, Owned, Of, Grew, Fresh, Kept, Stores,
           TakeExpr, RunExpr, Stands;
      Unmake(b, NExpr, first);
      ghost var c0 := Now();
      var _ := Advance();
      ghost var c := Now();
      Started(c0, c);
      GrewTrans(b, c0, c);
      FreshStays(b, c0, c, first);
      var count := ParseConstExpr(0);
      Unmake(c, NExpr, count);
      n := Got(c, count);
      ghost var d := Now();
      GrewTrans(b, c, d);
      var end := Expect(RSquare, ExpectedArrayLitClose);
      Restore(saved, a.open);
      ghost var mid := c.(sl := saved, open := a.open);
      Started(a, a.(cur := b.cur));
      Closed(a, a.(cur := b.cur), b, c, mid);
      FreshFrom(a, b, c, mid, first);
      Reflag(c, d, saved, a.open);
      Moved(mid, d.(sl := saved, open := a.open), Now());
      FreshFrom(mid, c, d, Now(), count);
      Remake(mid, NExpr, count);
      StoresZero(interner.strings);
      r := AllocTwo(ArrayRepeatExpr, Span(start, end.span.end), first, count, 0, Zero, NExpr, NExpr, NExpr, a, mid);
    }

    // Behind the first value of an array literal.
    method ParseArrayRest(start: nat, first: NodeId, saved: Switch, ghost a: State, ghost b: State)
      returns (r: NodeId, ghost more: ListOut)
      requires Made(b, NExpr, first) && b == a.(cur := b.cur, sl := On, open := a.open + 1) && saved == a.sl
      requires a.cur <= b.cur
      modifies this, pool, interner
      ensures Made(a, NExpr, r) && old(cursor) <= cursor
      ensures (|errors| == |a.errs|) == (|old(errors)| == |a.errs| && more.ok && KindAt(inp, more.end) == RSquare)
      ensures more == TakeMoreExprs(inp, old(cursor), LArray) && cursor == Past(inp, more.end, RSquare)
      ensures TreeOf(pool.trees, r)
                == Node(ArrayLitExpr, start, EndOf(inp, more.end), Zero, [TreeOf(old(pool.trees), first)] + more.trees)
      decreases |inp.toks| - cursor, 5
    {
      hide NodePool.Valid, StringInterner.Valid, NodesOk, Made, Valid, Added, Owned, Of, Grew, Fresh, Kept, AllOf,
           Stores, TakeMoreExprs, RunMore, Stands, MMore, AstMore;
      Unmake(b, NExpr, first);
      ghost var c, t := Now(), TreeOf(pool.trees, first);
      KeptOne(b, c, first);
      var ids;
      ids, more := ParseMoreExprs(LArray, [first], [t], |a.trees|);
      Unadd(c, |a.trees|, ids, [t], NExpr, more);
      ghost var d := Now();
      GrewTrans(b, c, d);
      var end := Expect(RSquare, ExpectedArrayLitClose);
      Restore(saved, a.open);
      Started(a, a.(cur := b.cur));
      Closed(a, a.(cur := b.cur), b, d, Now());
      KeptMoved(d, Now(), |a.trees|, ids, [t] + more.trees);
      AllOfCons(NExpr, t, more.trees);
      StoresZero(interner.strings);
      r := AllocMany(ArrayLitExpr, Span(start, end.span.end), ids, 0, Zero, [t] + more.trees, NExpr, NExpr, a);
    }

    method ParseConstExpr(m: int) returns (r: NodeId)
      requires Valid() && m >= 0
      modifies this, pool, interner
      ensures Made(old(Now()), NExpr, r)
      ensures Agrees(inp, old(cursor), Got(old(Now()), r), RunExpr(inp, old(cursor), m, old(structLitAllowed)))
      ensures !IsSync(KindAt(inp, old(cursor))) && old(cursor) < |inp.toks| ==> old(cursor) < cursor
      ensures Got(old(Now()), r) == TakeExpr(inp, old(cursor), m, old(structLitAllowed))
      decreases |inp.toks| - cursor, 4
    {
      hide TakeExpr;
      r := ParseExpr(m);
    }

    method ParseUnaryExpr() returns (r: NodeId)
      requires Valid() && IsPrefixOp(Peek())
      modifies this, pool, interner
      ensures Made(old(Now()), NExpr, r) && old(cursor) < cursor
      ensures Agrees(inp, old(cursor), Got(old(Now()), r), RunUnary(inp, old(cursor), old(structLitAllowed)))
      ensures Got(old(Now()), r) == TakeUnary(inp, old(cursor), old(structLitAllowed))
      decreases |inp.toks| - cursor, 1
    {
      hide NodePool.Valid, StringInterner.Valid, NodesOk, Made, Valid, Owned, Of, Grew, Fresh, RunUnary, Stands,
           Stores, RangeOf, TakeExpr, RunExpr;
      InBounds();
      CleanUnary(inp, cursor, structLitAllowed);
      ghost var a := Now();
      var power := PrefixBindingPower(Peek());
      var tok := Advance();
      ghost var b := Now();
      Started(a, b);
      var operand := ParseExpr(power);
      Unmake(b, NExpr, operand);
      ghost var c := Now();
      if tok.kind == Star && Check(Eq) {
        ghost var y;
        r, y := ParseProjRest(tok.span.start, operand, a, b);
        return;
      }
      FreshLater(a, b, c, operand);
      Remake(a, NExpr, operand);
      StoresOp(interner.strings, tok.kind);
      r := AllocOne(UnaryExpr, Span(tok.span.start, RangeOf(operand).end), operand, MakeOpPayload(tok.kind as nat),
                    Op(tok.kind), NExpr, NExpr, a);
    }

    // Behind `*target`, where `=` and the value follow; the operator began in state `a`, its operand in `b`.
    method ParseProjRest(start: nat, target: NodeId, ghost a: State, ghost b: State) returns (r: NodeId, ghost y: Out)
      requires Grew(a, b) && Made(b, NExpr, target) && Check(Eq)
      modifies this, pool, interner
      ensures Made(a, NExpr, r) && old(cursor) < cursor
      ensures (|errors| == |a.errs|) == (|old(errors)| == |a.errs| && y.ok) && cursor == y.end
      ensures y == TakeExpr(inp, old(cursor) + 1, 0, old(structLitAllowed))
      ensures TreeOf(pool.trees, r)
                == Node(ProjAssignExpr, start, SpanOf(y.tree).end, Zero, [TreeOf(old(pool.trees), target), y.tree])
      decreases |inp.toks| - cursor, 5
    {
      hide NodePool.Valid, StringInterner.Valid, NodesOk, Made, Valid, Owned, Of, Grew, Fresh, Stores, RangeOf,
           TakeExpr, RunExpr, Stands;
      Unmake(b, NExpr, target);
      ghost var c0 := Now();
      var _ := Consume(Eq);
      ghost var c := Now();
      FreshLater(a, b, c0, target);
      Moved(a, c0, c);
      Started(c0, c);
      FreshStays(a, c0, c, target);
      var rhs := ParseExpr(0);
      Unmake(c, NExpr, rhs);
      y := Got(c, rhs);
      StoresZero(interner.strings);
      GrewFacts(a, b);
      r := AllocTwo(ProjAssignExpr, Span(start, RangeOf(rhs).end), target, rhs, 0, Zero, NExpr, NExpr, NExpr, a, c);
    }

    method ParseTensorLitExpr() returns (r: NodeId)
      requires Valid() && Peek() == KwTensor
      modifies this, pool, interner
      ensures Made(old(Now()), NExpr, r) && old(cursor) < cursor
      ensures Agrees(inp, old(cursor), Got(old(Now()), r), RunTensor(inp, old(cursor), old(structLitAllowed)))
      ensures Got(old(Now()), r) == TakeTensor(inp, old(cursor), old(structLitAllowed))
      decreases |inp.toks| - cursor, 1
    {
      hide NodePool.Valid, StringInterner.Valid, NodesOk, Made, Valid, Added, Owned, Of, Grew, Fresh, Kept, AllOf,
           RunTensor, Stands, Stores, TakeExprItems, TakeComma, RunItems, RunComma, MItems, AstItems;
      InBounds();
      CleanTensor(inp, cursor, structLitAllowed);
      ghost var a := Now();
      var start := Advance();
      var _ := Expect(LSquare, ExpectedTensorOpen);
      ghost var b0 := Now();
      Started(a, b0);
      var ids;
      ghost var vs;
      KeptNone(b0, |a.trees|);
      ids, vs := ParseExprItems(LTensorVals, [], [], |a.trees|);
      Unadd(b0, |a.trees|, ids, [], NExpr, vs);
      assert [] + vs.trees == vs.trees;
      GrewTrans(a, b0, Now());
      ghost var ds;
      r, ds := ParseTensorDims(start.span.start, ids, vs.trees, a);
    }

    // The end of a list of dimensions, of which there must be some.
    method CloseDims(missing: bool, id: DiagId, ghost ids: seq<NodeId>, ghost kids: seq<Tree>, ghost a: State)
      returns (end: Token)
      requires Valid() && Grew(a, Now()) && Kept(Now(), |a.trees|, ids, kids)
      modifies `cursor, `errors
      ensures Valid() && Grew(a, Now()) && Kept(Now(), |a.trees|, ids, kids)
      ensures old(cursor) <= cursor && |a.errs| <= |old(errors)| <= |errors|
      ensures (|errors| == |a.errs|) == (|old(errors)| == |a.errs| && !missing && KindAt(inp, old(cursor)) == RSquare)
      ensures |errors| == |a.errs| ==> cursor == old(cursor) + 1 && end == TokenAt(inp, old(cursor))
      ensures cursor == Past(inp, old(cursor), RSquare) && end.span == TokenAt(inp, old(cursor)).span
    {
      hide NodePool.Valid, StringInterner.Valid, NodesOk, Owned, Grew, Kept;
      ghost var d := Now();
      GrewFacts(a, d);
      if missing { AddError(PeekToken().span, ExpectedTensorLitDim); }
      end := Expect(RSquare, id);
      Moved(a, d, Now());
      KeptMoved(d, Now(), |a.trees|, ids, kids);
    }

    // Behind the values `vs` of a tensor literal that began in state `a`.
    method ParseTensorDims(start: nat, vids: seq<NodeId>, ghost vs: seq<Tree>, ghost a: State)
      returns (r: NodeId, ghost ds: ListOut)
      requires Valid() && Grew(a, Now()) && Kept(Now(), |a.trees|, vids, vs) && |vids| == |vs| >= 1 && AllOf(NExpr, vs)
      modifies this, pool, interner
      ensures Made(a, NExpr, r) && old(cursor) <= cursor
      ensures ds == TakeComma(inp, Past(inp, old(cursor), Semi), AConst, old(structLitAllowed))
      ensures cursor == Past(inp, ds.end, RSquare)
      ensures TreeOf(pool.trees, r)
              == Node(TensorLitExpr, start, EndOf(inp, ds.end), Count(|vs| % 0x1_0000), vs + ds.trees)
      ensures (|errors| == |a.errs|) == (|old(errors)| == |a.errs| && KindAt(inp, old(cursor)) == Semi && ds.ok
                                         && |ds.trees| % 0x1_0000 != 0 && KindAt(inp, ds.end) == RSquare)
      decreases |inp.toks| - cursor, 9
    {
      hide NodePool.Valid, StringInterner.Valid, NodesOk, Made, Valid, Added, Owned, Of, Grew, Fresh, Kept, AllOf,
           Stores, TreeOf, TakeComma, RunComma, MItems, AstItems, Stands, AgreesItems;
      ghost var c0 := Now();
      GrewFacts(a, c0);
      var numValues := |vids| % 0x1_0000;
      var _ := Expect(Semi, ExpectedSemi);
      ghost var c := Now();
      Moved(a, c0, c);
      KeptMoved(c0, c, |a.trees|, vids, vs);
      var ids;
      ids, ds := ParseCommaSeparated(vids, RSquare, AConst, vs, |a.trees|);
      Unadd(c, |a.trees|, ids, vs, NExpr, ds);
      ghost var d := Now();
      GrewTrans(a, c, d);
      SameModulo(|vids|, |ds.trees|);
      var end := CloseDims(|ids| % 0x1_0000 == numValues, ExpectedTensorLitClose, ids, vs + ds.trees, a);
      r := AllocTensor(Span(start, end.span.end), ids, vs, ds.trees, numValues, a);
    }

    method AllocTensor(s: Span, ids: seq<NodeId>, ghost vs: seq<Tree>, ghost ds: seq<Tree>, numValues: nat,
                       ghost a: State)
      returns (n: NodeId)
      requires Valid() && Grew(a, Now()) && Kept(Now(), |a.trees|, ids, vs + ds) && |vs| >= 1 && AllOf(NExpr, vs)
      requires AllOf(NExpr, ds)
      requires numValues == |vs| % 0x1_0000
      modifies pool, `literals
      ensures Made(a, NExpr, n) && TreeOf(pool.trees, n) == Tree(TensorLitExpr, s, Count(|vs| % 0x1_0000), 0, vs + ds)
    {
      hide Owned, NodePool.Valid, StringInterner.Valid, NodesOk, Shaped, Of, Kept, Grew, Fresh;
      assert vs + ds == [vs[0]] + (vs[1..] + ds);
      assert Splits(Count(|vs| % 0x1_0000), |vs|);
      ShapeHead(TensorLitExpr, Count(|vs| % 0x1_0000), NExpr, vs[0], NExpr, vs[1..] + ds);
      n := Alloc(TensorLitExpr, s, ids, MakeOpPayload(numValues), 0, Count(|vs| % 0x1_0000), vs + ds, a);
      AlwaysOf(NExpr, TreeOf(pool.trees, n));
    }

    /////////////////////////// postfix operators ///////////////////////////

    method ParsePostfixOrCallExpr(first: NodeId, ghost a: State) returns (lhs: NodeId)
      requires Made(a, NExpr, first)
      modifies this, pool, interner
      ensures old(cursor) <= cursor
      ensures Since(|old(errors)|, lhs)
              == TakePostfix(inp, old(cursor), TreeOf(old(pool.trees), first), old(structLitAllowed))
      ensures Made(a, NExpr, lhs) && |old(errors)| <= |errors|
      decreases |inp.toks| - cursor, 2
    {
      hide NodePool.Valid, StringInterner.Valid, NodesOk, Made, Valid, Owned, Of, Grew, Fresh, IsPostfix,
           TakePostfix, TakePostfixOp, PostfixTaken, RunPostfix, RunPostfix1, Stands, Continues;
      ghost var p0, e0, sl := cursor, |errors|, structLitAllowed;
      lhs := first;
      Unmake(a, NExpr, lhs);
      ghost var t := TreeOf(pool.trees, lhs);
      PostfixTakenStart(inp, p0, t, sl);
      while IsPostfix(Peek())
        invariant Made(a, NExpr, lhs) && e0 <= |errors| && p0 <= cursor && structLitAllowed == sl
        invariant PostfixTaken(inp, p0, t, sl, Since(e0, lhs))
        decreases |inp.toks| - cursor
      {
        Unmake(a, NExpr, lhs);
        ghost var b, e := Since(e0, lhs), |errors|;
        lhs := ParsePostfixOperator(lhs, a);
        Unmake(a, NExpr, lhs);
        PostfixTakenStep(inp, p0, t, sl, b, Since(e, lhs));
      }
      PostfixTakenExit(inp, p0, t, sl, Since(e0, lhs));
    }

    method ParsePostfixOperator(lhs: NodeId, ghost a: State) returns (r: NodeId)
      requires Made(a, NExpr, lhs) && IsPostfix(Peek())
      modifies this, pool, interner
      ensures Made(a, NExpr, r) && |old(errors)| <= |errors|
      ensures old(cursor) < cursor
      ensures Since(|old(errors)|, r)
              == TakePostfixOp(inp, old(cursor), TreeOf(old(pool.trees), lhs), old(structLitAllowed))
      decreases |inp.toks| - cursor, 1
    {
      hide NodePool.Valid, StringInterner.Valid, NodesOk, Made, Valid, Owned, Of, Grew, Fresh, TakeCall, TakeDot,
           TakeIndex, TakeType, RunCall, RunDot, RunIndex, RunCast, Stands;
      var k := Peek();
      if k == LParen { r := ParseCallExpr(lhs, a); }
      else if k == Dot { r := ParseDotExpr(lhs, a); }
      else if k == LSquare { r := ParsePostfixIndex(lhs, a); }
      else if k == Question { r := ParsePropagateExpr(lhs, a); }
      else { r := ParseCastExpr(lhs, a); }
    }

    method ParseCallExpr(lhs: NodeId, ghost a: State) returns (r: NodeId)
      requires Made(a, NExpr, lhs) && Peek() == LParen
      modifies this, pool, interner
      ensures Made(a, NExpr, r) && |old(errors)| <= |errors| && old(cursor) < cursor
      ensures Since(|old(errors)|, r) == TakeCall(inp, old(cursor), TreeOf(old(pool.trees), lhs))
      decreases |inp.toks| - cursor, 1, 0
    {
      hide NodePool.Valid, StringInterner.Valid, NodesOk, Made, Valid, Owned, Of, Grew, Fresh, Stores, RangeOf,
           TakeArgs, RunCall, RunArgs, MItems, AstItems, Stands;
      Unmake(a, NExpr, lhs);
      ghost var top := Now();
      var args := ParseArgList();
      Unmake(top, NArgs, args);
      StoresZero(interner.strings);
      r := Join(CallExpr, lhs, args, 0, Zero, NExpr, NExpr, NArgs, a, top);
      Unmake(a, NExpr, r);
    }

    method ParseArgList() returns (r: NodeId)
      requires Valid() && Peek() == LParen
      modifies this, pool, interner
      ensures Made(old(Now()), NArgs, r) && old(cursor) < cursor
      ensures Got(old(Now()), r) == TakeArgs(inp, old(cursor))
      decreases |inp.toks| - cursor, 0
    {
      hide NodePool.Valid, StringInterner.Valid, NodesOk, Made, Valid, Added, Owned, Of, Grew, Fresh, Kept, AllOf,
           Stores, TakeExprItems, RunArgs, RunItems, MItems, AstItems, Stands;
      ghost var a := Now();
      var open := Expect(LParen, ExpectedOpen);
      ghost var b := Now();
      Started(a, b);
      KeptNone(b, |a.trees|);
      var args := [];
      ghost var l := ListOut(true, cursor, []);
      if !Check(RParen) {
        args, l := ParseExprItems(LArgs, [], [], |a.trees|);
        Unadd(b, |a.trees|, args, [], NExpr, l);
        GrewTrans(a, b, Now());
      }
      assert [] + l.trees == l.trees;
      ghost var c := Now();
      var end := Expect(RParen, ExpectedArgListClose);
      Moved(a, c, Now());
      KeptMoved(c, Now(), |a.trees|, args, l.trees);
      NoneOf(NExpr);
      StoresZero(interner.strings);
      r := AllocMany(ArgList, Span(open.span.start, end.span.end), args, 0, Zero, l.trees, NArgs, NExpr, a);
    }

    method ParsePropagateExpr(lhs: NodeId, ghost a: State) returns (r: NodeId)
      requires Made(a, NExpr, lhs) && Peek() == Question
      modifies this, pool, interner
      ensures Made(a, NExpr, r) && |old(errors)| <= |errors| && old(cursor) < cursor
      ensures Since(|old(errors)|, r)
              == TakePostfixOp(inp, old(cursor), TreeOf(old(pool.trees), lhs), old(structLitAllowed))
    {
      hide NodePool.Valid, StringInterner.Valid, NodesOk, Made, Valid, Owned, Of, Grew, Fresh, Stores, RangeOf,
           TakeCall, TakeDot, TakeIndex, TakeType, Stands;
      Unmake(a, NExpr, lhs);
      ghost var top := Now();
      var _ := Advance();
      MadeMoved(a, top, NExpr, lhs);
      StoresZero(interner.strings);
      r := AllocOne(PropagateExpr, Span(RangeOf(lhs).start, Previous().span.end), lhs, 0, Zero, NExpr, NExpr, a);
      Unmake(a, NExpr, r);
    }

    method ParseCastExpr(lhs: NodeId, ghost a: State) returns (r: NodeId)
      requires Made(a, NExpr, lhs) && Peek() == KwAs
      modifies this, pool, interner
      ensures Made(a, NExpr, r) && |old(errors)| <= |errors|
      ensures old(cursor) < cursor
      ensures Since(|old(errors)|, r)
              == TakePostfixOp(inp, old(cursor), TreeOf(old(pool.trees), lhs), old(structLitAllowed))
      decreases |inp.toks| - cursor, 0
    {
      hide NodePool.Valid, StringInterner.Valid, NodesOk, Made, Valid, Owned, Of, Grew, Fresh, Stores, RangeOf,
           TakeCall, TakeDot, TakeIndex, TakeType, RunCast, RunType, Stands;
      Unmake(a, NExpr, lhs);
      ghost var top := Now();
      var _ := Advance();
      ghost var mid := Now();
      MadeMoved(a, top, NExpr, lhs);
      Unmake(a, NExpr, lhs);
      var ty := ParseType();
      Unmake(mid, NType, ty);
      StoresZero(interner.strings);
      r := Join(CastExpr, lhs, ty, 0, Zero, NExpr, NExpr, NType, a, mid);
      Unmake(a, NExpr, r);
    }

    // `base[i]` and `base[i, j, ...]`.
    method ParsePostfixIndex(lhs: NodeId, ghost a: State) returns (r: NodeId)
      requires Made(a, NExpr, lhs) && Peek() == LSquare
      modifies this, pool, interner
      ensures Made(a, NExpr, r) && |old(errors)| <= |errors| && old(cursor) < cursor
      ensures Since(|old(errors)|, r) == TakeIndex(inp, old(cursor), TreeOf(old(pool.trees), lhs))
      decreases |inp.toks| - cursor, 0
    {
      hide NodePool.Valid, StringInterner.Valid, NodesOk, Made, Valid, Added, Owned, Of, Grew, Fresh, Kept, AllOf,
           Stores, RangeOf, TakeExprItems, RunIndex, RunItems, MItems, AstItems, Stands;
      Unmake(a, NExpr, lhs);
      ghost var top, t := Now(), TreeOf(pool.trees, lhs);
      var _ := Advance();
      ghost var mid := Now();
      MadeMoved(a, top, NExpr, lhs);
      Unmake(a, NExpr, lhs);
      var lhsSpan := RangeOf(lhs);
      KeptOne(a, mid, lhs);
      var ids;
      ghost var l;
      ids, l := ParseExprItems(LIndex, [lhs], [t], |a.trees|);
      Unadd(mid, |a.trees|, ids, [t], NExpr, l);
      ghost var c := Now();
      GrewTrans(a, mid, c);
      var close := Expect(RSquare, if |ids| > 2 then ExpectedTensorIndexClose else ExpectedRSquare);
      Moved(a, c, Now());
      KeptMoved(c, Now(), |a.trees|, ids, [t] + l.trees);
      r := AllocIndex(Span(lhsSpan.start, close.span.end), ids, t, l.trees, a);
      Unmake(a, NExpr, r);
    }

    method AllocIndex(s: Span, ids: seq<NodeId>, ghost t: Tree, ghost ts: seq<Tree>, ghost a: State) returns (n: NodeId)
      requires Valid() && Grew(a, Now()) && Kept(Now(), |a.trees|, ids, [t] + ts) && |ids| == |ts| + 1 && |ts| >= 1
      requires Of(NExpr, t) && AllOf(NExpr, ts)
      modifies pool, `literals
      ensures Made(a, NExpr, n)
      ensures TreeOf(pool.trees, n) == Tree(if |ts| > 1 then TensorIndexExpr else IndexExpr, s, Zero, 0, [t] + ts)
    {
      hide Owned, NodePool.Valid, StringInterner.Valid, NodesOk, Shaped, Of, Kept, Grew, Fresh;
      if |ids| > 2 {
        ShapeTensorIndex(t, ts);
        n := Alloc(TensorIndexExpr, s, ids, 0, 0, Zero, [t] + ts, a);
      } else {
        assert [t] + ts == [t, ts[0]] && ids == [ids[0], ids[1]];
        ShapeTwo(IndexExpr, Zero, NExpr, t, NExpr, ts[0]);
        n := Alloc(IndexExpr, s, [ids[0], ids[1]], 0, 0, Zero, [t] + ts, a);
      }
      AlwaysOf(NExpr, TreeOf(pool.trees, n));
    }

    // What follows a dot: a name, an index, or a float token that is two indices in one.
    method ParseDotExpr(lhs: NodeId, ghost a: State) returns (r: NodeId)
      requires Made(a, NExpr, lhs) && Peek() == Dot
      modifies this, pool, interner
      ensures Made(a, NExpr, r) && |old(errors)| <= |errors| && old(cursor) < cursor
      ensures Since(|old(errors)|, r) == TakeDot(inp, old(cursor), TreeOf(old(pool.trees), lhs))
    {
      hide NodePool.Valid, StringInterner.Valid, NodesOk, Made, Valid, Owned, Of, Grew, Fresh, Stores, RangeOf,
           FloatSplit, TextOf, RunDot, Stands;
      Unmake(a, NExpr, lhs);
      ghost var top := Now();
      var _ := Advance();
      MadeMoved(a, top, NExpr, lhs);
      if Check(IntegerLiteral) {
        r := ParseTupleIndex(lhs, a);
        Unmake(a, NExpr, r);
        return;
      }
      if Check(FloatLiteral) {
        var split := FloatSplit(Text(PeekToken().span));
        if !split.NoSplit? {
          r := ParseFloatIndex(lhs, split, a);
          Unmake(a, NExpr, r);
          return;
        }
      }
      r := ParseFieldExpr(lhs, a);
      Unmake(a, NExpr, r);
    }

    method ParseTupleIndex(lhs: NodeId, ghost a: State) returns (r: NodeId)
      requires Made(a, NExpr, lhs) && Peek() == IntegerLiteral
      modifies this, pool, interner
      ensures Made(a, NExpr, r) && cursor == old(cursor) + 1 && errors == old(errors)
      ensures var b := TreeOf(old(pool.trees), lhs);
              TreeOf(pool.trees, r)
                == Node(TupleIndexExpr, SpanOf(b).start, EndOf(inp, old(cursor)), Name(TokText(inp, old(cursor))), [b])
    {
      hide NodePool.Valid, StringInterner.Valid, NodesOk, Made, Valid, Owned, Of, Grew, Fresh, Stores, RangeOf,
           TextOf;
      Unmake(a, NExpr, lhs);
      ghost var top := Now();
      var idx := Advance();
      var name := Intern(Text(idx.span));
      MadeMoved(a, top, NExpr, lhs);
      Unmake(a, NExpr, lhs);
      StoresName(interner.strings, interner.strings, name);
      r := AllocOne(TupleIndexExpr, Span(RangeOf(lhs).start, idx.span.end), lhs, name, Name(Text(idx.span)), NExpr,
                    NExpr, a);
    }

    method ParseFieldExpr(lhs: NodeId, ghost a: State) returns (r: NodeId)
      requires Made(a, NExpr, lhs) && 0 < cursor
      modifies this, pool, interner
      ensures Made(a, NExpr, r) && (|errors| == |old(errors)|) == (KindAt(inp, old(cursor)) == Identifier)
      ensures |old(errors)| <= |errors|
      ensures old(cursor) <= cursor && (KindAt(inp, old(cursor)) == Identifier ==> cursor == old(cursor) + 1)
      ensures cursor == Past(inp, old(cursor), Identifier)
      ensures var b := TreeOf(old(pool.trees), lhs);
              TreeOf(pool.trees, r) == Node(FieldExpr, SpanOf(b).start, PrevEnd(inp, cursor),
                                            NameRegime(TokText(inp, old(cursor)), NoRegime), [b])
    {
      hide NodePool.Valid, StringInterner.Valid, NodesOk, Made, Valid, Owned, Of, Grew, Fresh, Stores, RangeOf,
           TextOf;
      Unmake(a, NExpr, lhs);
      ghost var top := Now();
      var field := ExpectAndIntern(Identifier, ExpectedFieldName);
      MadeMoved(a, top, NExpr, lhs);
      Unmake(a, NExpr, lhs);
      StoresNameRegime(interner.strings, field, NoRegime);
      r := AllocOne(FieldExpr, Span(RangeOf(lhs).start, Previous().span.end), lhs, MakePayload(field, NoRegime),
                    NameRegime(interner.strings[field], NoRegime), NExpr, NExpr, a);
    }

    // `0.1` behind a dot: index 0 and, when what follows its dot is all digits, index 1 of that.
    method ParseFloatIndex(lhs: NodeId, split: Split, ghost a: State) returns (r: NodeId)
      requires Made(a, NExpr, lhs) && Peek() == FloatLiteral && !split.NoSplit?
      modifies this, pool, interner
      ensures Made(a, NExpr, r) && cursor == old(cursor) + 1 && errors == old(errors)
      ensures var b, x := TreeOf(old(pool.trees), lhs), SpanOf(TreeOf(old(pool.trees), lhs)).start;
              var inner := Node(TupleIndexExpr, x, EndOf(inp, old(cursor)), Name(split.whole), [b]);
              TreeOf(pool.trees, r)
              == if split.Two? then Node(TupleIndexExpr, x, EndOf(inp, old(cursor)), Name(split.frac), [inner])
                  else inner
    {
      hide NodePool.Valid, StringInterner.Valid, NodesOk, Made, Valid, Owned, Of, Grew, Fresh, Stores, RangeOf,
           TextOf;
      Unmake(a, NExpr, lhs);
      ghost var top := Now();
      var tok := Advance();
      var whole := Intern(split.whole);
      MadeMoved(a, top, NExpr, lhs);
      Unmake(a, NExpr, lhs);
      StoresName(interner.strings, interner.strings, whole);
      r := AllocOne(TupleIndexExpr, Span(RangeOf(lhs).start, tok.span.end), lhs, whole, Name(split.whole), NExpr, NExpr,
                    a);
      if split.Two? {
        Unmake(a, NExpr, r);
        ghost var mid := Now();
        var frac := Intern(split.frac);
        MadeMoved(a, mid, NExpr, r);
        Unmake(a, NExpr, r);
        StoresName(interner.strings, interner.strings, frac);
        r := AllocOne(TupleIndexExpr, Span(RangeOf(r).start, tok.span.end), r, frac, Name(split.frac), NExpr, NExpr, a);
      }
    }

    /////////////////////////// blocks and control flow ///////////////////////////

    /** The statements of a block body, up to its closing brace or the end. */
    method ParseStmts(ghost lo: nat) returns (ids: seq<NodeId>, ghost l: ListOut)
      requires Valid() && lo <= |pool.trees|
      modifies this, pool, interner
      ensures Added(old(Now()), lo, ids, [], NStmt, l)
      ensures Check(RBrace) || AtEof()
      ensures l == TakeStmts(inp, old(cursor), old(structLitAllowed))
      decreases |inp.toks| - cursor, 5
    {
      hide NodePool.Valid, StringInterner.Valid, NodesOk, Made, Valid, Added, Owned, Of, Grew, Fresh, Kept, AllOf,
           TakeStmts, TakeStmt, StmtsTaken, RunStmts, RunStmt, Stands, MSeq, AstSeq;
      ghost var a, p0 := Now(), cursor;
      ids := [];
      l := ListOut(true, cursor, []);
      InBounds();
      StmtsTakenStart(inp, p0, a.sl);
      KeptNone(a, lo);
      Started(a, a);
      NoneAdded(lo, ids, [], NStmt);
      while !Check(RBrace) && !AtEof()
        invariant Added(a, lo, ids, [], NStmt, l) && p0 <= cursor
        invariant StmtsTaken(inp, p0, a.sl, l)
        decreases |inp.toks| - cursor
      {
        Unadd(a, lo, ids, [], NStmt, l);
        ghost var b := Now();
        var r := ParseStmt();
        ghost var e := Got(b, r);
        StmtsTakenStep(inp, p0, a.sl, l, e);
        l := OneAdded(a, b, lo, ids, [], NStmt, l, r);
        ids := ids + [r];
      }
      Unadd(a, lo, ids, [], NStmt, l);
      StmtsTakenExit(inp, p0, a.sl, l);
    }

    method ParseBlockExpr() returns (r: NodeId)
      requires Valid()
      modifies this, pool, interner
      ensures Made(old(Now()), NBlock, r)
      ensures Agrees(inp, old(cursor), Got(old(Now()), r), RunBlock(inp, old(cursor), old(structLitAllowed)))
      ensures KindAt(inp, old(cursor)) == LBrace ==> old(cursor) < cursor
      ensures Got(old(Now()), r) == TakeBlock(inp, old(cursor), old(structLitAllowed))
      decreases |inp.toks| - cursor, if Check(LBrace) then 1 else 6
    {
      hide NodePool.Valid, StringInterner.Valid, NodesOk, Made, Valid, Added, Owned, Of, Grew, Fresh, Kept, AllOf,
           RunBlock, Stands, Stores, TakeStmts, RunStmts, MSeq, AstSeq;
      InBounds();
      CleanBlock(inp, cursor, structLitAllowed);
      ghost var a := Now();
      var start := Expect(LBrace, ExpectedOpen);
      ghost var b := Now();
      Started(a, b);
      var ids;
      ghost var l;
      ids, l := ParseStmts(|a.trees|);
      Unadd(b, |a.trees|, ids, [], NStmt, l);
      assert [] + l.trees == l.trees;
      ghost var c := Now();
      GrewTrans(a, b, c);
      var end := Expect(RBrace, ExpectedClose);
      Moved(a, c, Now());
      KeptMoved(c, Now(), |a.trees|, ids, l.trees);
      StoresZero(interner.strings);
      r := AllocMany(BlockExpr, Span(start.span.start, end.span.end), ids, 0, Zero, l.trees, NBlock, NStmt, a);
    }

    method ParseUnsafeBlock() returns (r: NodeId)
      requires Valid() && Peek() == KwUnsafe
      modifies this, pool, interner
      ensures Made(old(Now()), NExpr, r) && old(cursor) < cursor
      ensures Agrees(inp, old(cursor), Got(old(Now()), r), RunUnsafe(inp, old(cursor), old(structLitAllowed)))
      ensures Got(old(Now()), r) == TakeUnsafe(inp, old(cursor), old(structLitAllowed))
      decreases |inp.toks| - cursor, 1
    {
      hide NodePool.Valid, StringInterner.Valid, NodesOk, Made, Valid, Added, Owned, Of, Grew, Fresh, Kept, AllOf,
           RunUnsafe, Stands, Stores, TakeStmts, RunStmts, MSeq, AstSeq;
      InBounds();
      CleanUnsafe(inp, cursor, structLitAllowed);
      ghost var a := Now();
      var start := Expect(KwUnsafe, ExpectedKeyword);
      var open := Consume(LBrace);
      if !open { AddError(PeekToken().span, ExpectedOpen); }
      ghost var b := Now();
      Started(a, b);
      var ids;
      ghost var l;
      ids, l := ParseStmts(|a.trees|);
      Unadd(b, |a.trees|, ids, [], NStmt, l);
      assert [] + l.trees == l.trees;
      ghost var c := Now();
      GrewTrans(a, b, c);
      var end := Expect(RBrace, ExpectedClose);
      Moved(a, c, Now());
      KeptMoved(c, Now(), |a.trees|, ids, l.trees);
      StoresZero(interner.strings);
      r := AllocMany(UnsafeBlock, Span(start.span.start, end.span.end), ids, 0, Zero, l.trees, NExpr, NStmt, a);
    }

    /** A header expression: struct literals are off, so that the brace behind it opens the body. */
    method ParseHeader() returns (r: NodeId)
      requires Valid()
      modifies this, pool, interner
      ensures Made(old(Now()), NExpr, r)
      ensures forall i :: |old(literals)| <= i < |literals| ==> literals[i] > region
      ensures Agrees(inp, old(cursor), Got(old(Now()), r), RunExpr(inp, old(cursor), 0, Off))
      ensures Got(old(Now()), r) == TakeExpr(inp, old(cursor), 0, Off)
      decreases |inp.toks| - cursor, 4
    {
      hide NodePool.Valid, StringInterner.Valid, NodesOk, Made, Valid, Owned, Of, Grew, Fresh, RunExpr, Stands,
           TakeExpr;
      InBounds();
      CleanExpr(inp, cursor, 0, Off);
      ghost var a := Now();
      Started(a, a);
      var saved := structLitAllowed;
      ForbidStructLit();
      ghost var b := Now();
      r := ParseExpr(0);
      Unmake(b, NExpr, r);
      ghost var c := Now();
      HeaderSheltered(b, c);
      Restore(saved, a.open);
      Closed(a, a, b, c, Now());
      FreshFrom(a, b, c, Now(), r);
      Remake(a, NExpr, r);
    }

    method ParseWhileStmt() returns (r: NodeId)
      requires Valid() && Peek() == KwWhile
      modifies this, pool, interner
      ensures Made(old(Now()), NExpr, r) && old(cursor) < cursor
      ensures Agrees(inp, old(cursor), Got(old(Now()), r), RunWhile(inp, old(cursor), old(structLitAllowed)))
      ensures Got(old(Now()), r) == TakeWhile(inp, old(cursor), old(structLitAllowed))
      decreases |inp.toks| - cursor, 1
    {
      hide NodePool.Valid, StringInterner.Valid, NodesOk, Made, Valid, Owned, Of, Grew, Fresh, RunWhile, Stands,
           Stores, TakeExpr, TakeBlock, RunExpr, RunBlock;
      InBounds();
      CleanWhile(inp, cursor, structLitAllowed);
      ghost var a := Now();
      var start := Expect(KwWhile, ExpectedKeyword);
      ghost var b := Now();
      Started(a, b);
      var cond := ParseHeader();
      Unmake(b, NExpr, cond);
      ghost var c := Now();
      FreshLater(a, b, c, cond);
      var body := ParseBlockExpr();
      Unmake(c, NBlock, body);
      StoresZero(interner.strings);
      r := AllocTwo(WhileStmt, Span(start.span.start, Previous().span.end), cond, body, 0, Zero, NExpr, NExpr, NBlock,
                    a, c);
    }

    method AllocIf(s: Span, ids: seq<NodeId>, ghost kids: seq<Tree>, ghost a: State) returns (n: NodeId)
      requires Valid() && Grew(a, Now()) && Kept(Now(), |a.trees|, ids, kids)
      requires |kids| == 2 || (|kids| == 3 && Of(NElse, kids[2]))
      requires Of(NExpr, kids[0]) && Of(NBlock, kids[1])
      modifies pool, `literals
      ensures Made(a, NElse, n) && TreeOf(pool.trees, n) == Tree(IfExpr, s, Zero, 0, kids)
    {
      hide NodePool.Valid, StringInterner.Valid, NodesOk, Valid, Owned, Of, Grew, Fresh, Kept, Stores, Shaped;
      ShapeIf(kids);
      StoresZero(interner.strings);
      n := Alloc(IfExpr, s, ids, 0, 0, Zero, kids, a);
      AlwaysOf(NElse, TreeOf(pool.trees, n));
    }

    method ParseIfExpr() returns (r: NodeId)
      requires Valid() && Peek() == KwIf
      modifies this, pool, interner
      ensures Made(old(Now()), NElse, r) && old(cursor) < cursor
      ensures Agrees(inp, old(cursor), Got(old(Now()), r), RunIf(inp, old(cursor), old(structLitAllowed)))
      ensures Got(old(Now()), r) == TakeIf(inp, old(cursor), old(structLitAllowed))
      decreases |inp.toks| - cursor, 1
    {
      hide NodePool.Valid, StringInterner.Valid, NodesOk, Made, Valid, Owned, Of, Grew, Fresh, RunIf, Stands,
           Agrees, TakeExpr, TakeBranches, RunExpr, RunBlock, RunElse;
      InBounds();
      CleanIf(inp, cursor, structLitAllowed);
      ghost var a := Now();
      var start := Expect(KwIf, ExpectedKeyword);
      ghost var b := Now();
      Started(a, b);
      var cond := ParseHeader();
      Unmake(b, NExpr, cond);
      ghost var c := Now();
      FreshLater(a, b, c, cond);
      r := ParseBranches(start.span.start, cond, a, c);
    }

    // The block behind the condition `cond`, which was built by state `c`, and the other branch.
    method ParseBranches(start: nat, cond: NodeId, ghost a: State, ghost c: State)
      returns (r: NodeId)
      requires Valid() && c == Now() && 0 < c.cur && Grew(a, c) && Fresh(a, c, cond) && Of(NExpr, TreeOf(c.trees, cond))
      modifies this, pool, interner
      ensures Made(a, NElse, r) && c.cur <= cursor
      ensures Got(a, r) == TakeBranches(inp, c.cur, start, Out(|c.errs| == |a.errs|, c.cur, TreeOf(c.trees, cond)),
                                        c.sl)
      decreases |inp.toks| - cursor, 8
    {
      hide NodePool.Valid, StringInterner.Valid, NodesOk, Made, Valid, Owned, Of, Grew, Fresh, Kept, Stores, Shaped,
           TakeBlock, TakeIf, RunBlock, RunElse, Stands, Agrees;
      GrewFacts(a, c);
      var thn := ParseBlockExpr();
      Unmake(c, NBlock, thn);
      ghost var d := Now();
      ghost var y := Got(c, thn);
      GrewTrans(a, c, d);
      KeptPair(a, c, d, cond, thn);
      var ids := [cond, thn];
      ghost var kids := [TreeOf(c.trees, cond), y.tree];
      assert kids + [] == kids;
      if Check(KwElse) {
        var els := ParseElse();
        Unmake(d, NElse, els);
        GrewTrans(a, d, Now());
        KeptPush(d, Now(), |a.trees|, ids, kids, els);
        ids, kids := ids + [els], kids + [TreeOf(pool.trees, els)];
      }
      r := AllocIf(Span(start, Previous().span.end), ids, kids, a);
      Unmake(a, NElse, r);
    }

    // `else` and what follows it.
    method ParseElse() returns (r: NodeId)
      requires Valid() && Check(KwElse)
      modifies this, pool, interner
      ensures Made(old(Now()), NElse, r) && old(cursor) < cursor
      ensures var q := old(cursor) + 1;
              Got(old(Now()), r) == if KindAt(inp, q) == KwIf then TakeIf(inp, q, old(structLitAllowed))
                  else TakeBlock(inp, q, old(structLitAllowed))
      decreases |inp.toks| - cursor, 7
    {
      hide NodePool.Valid, StringInterner.Valid, NodesOk, Made, Valid, Owned, Of, Grew, Fresh, TakeBlock, TakeIf,
           RunIf, RunBlock, RunElse, Stands;
      ghost var a := Now();
      var _ := Advance();
      ghost var b := Now();
      Started(a, b);
      if Check(KwIf) {
        r := ParseIfExpr();
        Unmake(b, NElse, r);
      } else {
        r := ParseBlockExpr();
        Sorts(b, NBlock, NElse, r);
        Unmake(b, NElse, r);
      }
      FreshLater(a, b, Now(), r);
      Remake(a, NElse, r);
    }

    method ParseMatchExpr() returns (r: NodeId)
      requires Valid() && Peek() == KwMatch
      modifies this, pool, interner
      ensures Made(old(Now()), NExpr, r) && old(cursor) < cursor
      ensures Agrees(inp, old(cursor), Got(old(Now()), r), RunMatch(inp, old(cursor), old(structLitAllowed)))
      ensures Got(old(Now()), r) == TakeMatch(inp, old(cursor), old(structLitAllowed))
      decreases |inp.toks| - cursor, 1
    {
      hide NodePool.Valid, StringInterner.Valid, NodesOk, Made, Valid, Added, Owned, Of, Grew, Fresh, Kept, AllOf,
           RunMatch, Stands, Stores, FitsHead, TakeExpr, TakeArms, RunExpr, RunArms, MSeq, AstSeq;
      InBounds();
      CleanMatch(inp, cursor, structLitAllowed);
      ghost var a := Now();
      var start := Expect(KwMatch, ExpectedKeyword);
      ghost var b := Now();
      Started(a, b);
      var scrutinee := ParseHeader();
      Unmake(b, NExpr, scrutinee);
      ghost var x, c0 := Got(b, scrutinee), Now();
      FreshLater(a, b, c0, scrutinee);
      var _ := Expect(LBrace, ExpectedOpen);
      ghost var c := Now();
      Moved(a, c0, c);
      Started(c0, c);
      FreshStays(a, c0, c, scrutinee);
      KeptOne(a, c, scrutinee);
      var arms;
      ghost var l;
      arms, l := ParseArms([scrutinee], [x.tree], |a.trees|);
      Unadd(c, |a.trees|, [scrutinee] + arms, [x.tree], NArm, l);
      ghost var d := Now();
      GrewTrans(a, c, d);
      var end := Expect(RBrace, ExpectedClose);
      Moved(a, d, Now());
      KeptMoved(d, Now(), |a.trees|, [scrutinee] + arms, [x.tree] + l.trees);
      StoresZero(interner.strings);
      HeadFits();
      r := AllocHead(MatchExpr, Span(start.span.start, end.span.end), scrutinee, arms, 0, Zero, l.trees, NExpr, NExpr,
                     NArm, a, x.tree);
    }

    // The arms of a match whose earlier children are `ids`.
    method ParseArms(ids: seq<NodeId>, ghost kids: seq<Tree>, ghost lo: nat)
      returns (arms: seq<NodeId>, ghost l: ListOut)
      requires Valid() && lo <= |pool.trees| && Kept(Now(), lo, ids, kids)
      modifies this, pool, interner
      ensures Added(old(Now()), lo, ids + arms, kids, NArm, l)
      ensures l == TakeArms(inp, old(cursor), old(structLitAllowed))
      decreases |inp.toks| - cursor, 5
    {
      hide NodePool.Valid, StringInterner.Valid, NodesOk, Made, Valid, Added, Owned, Of, Grew, Fresh, Kept, AllOf,
           TakeArms, TakeArm, ArmsTaken, RunArms, RunArm, Stands, MSeq, AstSeq;
      ghost var a, p0 := Now(), cursor;
      arms := [];
      l := ListOut(true, cursor, []);
      InBounds();
      ArmsTakenStart(inp, p0, a.sl);
      Started(a, a);
      assert ids + arms == ids;
      NoneAdded(lo, ids, kids, NArm);
      while !Check(RBrace) && !AtEof()
        invariant Added(a, lo, ids + arms, kids, NArm, l) && p0 <= cursor
        invariant ArmsTaken(inp, p0, a.sl, l)
        decreases |inp.toks| - cursor
      {
        Unadd(a, lo, ids + arms, kids, NArm, l);
        ghost var b := Now();
        var r := ParseMatchArm();
        ghost var e := Got(b, r);
        ArmsTakenStep(inp, p0, a.sl, l, e);
        l := OneAdded(a, b, lo, ids + arms, kids, NArm, l, r);
        assert ids + arms + [r] == ids + (arms + [r]);
        arms := arms + [r];
      }
      Unadd(a, lo, ids + arms, kids, NArm, l);
      ArmsTakenExit(inp, p0, a.sl, l);
    }

    method ParseMatchArm() returns (r: NodeId)
      requires Valid() && cursor < |inp.toks|
      modifies this, pool, interner
      ensures Made(old(Now()), NArm, r) && old(cursor) < cursor
      ensures Agrees(inp, old(cursor), Got(old(Now()), r), RunArm(inp, old(cursor), old(structLitAllowed)))
      ensures Got(old(Now()), r) == TakeArm(inp, old(cursor), old(structLitAllowed))
      decreases |inp.toks| - cursor, 4
    {
      hide NodePool.Valid, StringInterner.Valid, NodesOk, Made, Valid, Owned, Of, Grew, Fresh, RunArm, Stands,
           Stores, Agrees, Extends, TreeOf, FitsTwo, Older, TakePat, TakeExpr, RunPat, RunExpr, SpanOf;
      InBounds();
      CleanArm(inp, cursor, structLitAllowed);
      ghost var a := Now();
      var pat := ParsePat();
      Unmake(a, NPat, pat);
      ghost var b0 := Now();
      var _ := Expect(FatArrow, ExpectedFatArrow);
      ghost var b := Now();
      Moved(a, b0, b);
      Started(b0, b);
      FreshStays(a, b0, b, pat);
      var value := ParseExpr(0);
      Unmake(b, NExpr, value);
      ghost var c := Now();
      var comma := Consume(Comma);
      if !comma { var _ := Consume(Semi); }
      Unchanged(c);
      MadeMoved(b, c, NExpr, value);
      StoresZero(interner.strings);
      ArmFits();
      r := Join(MatchArm, pat, value, 0, Zero, NArm, NPat, NExpr, a, b);
      Unmake(a, NArm, r);
    }

    /////////////////////////// statements ///////////////////////////

    /** One statement; at least one token is consumed unless none is left. */
    method ParseStmt() returns (r: NodeId)
      requires Valid()
      modifies this, pool, interner
      ensures Made(old(Now()), NStmt, r) && (KindAt(inp, old(cursor)) != Eof ==> old(cursor) < cursor)
      ensures Agrees(inp, old(cursor), Got(old(Now()), r), RunStmt(inp, old(cursor), old(structLitAllowed)))
      ensures Got(old(Now()), r) == TakeStmt(inp, old(cursor), old(structLitAllowed))
      decreases |inp.toks| - cursor, 4
    {
      hide NodePool.Valid, StringInterner.Valid, NodesOk, Made, Valid, Owned, Of, Grew, Fresh, RunStmt, Stands,
           TakeLet, TakeFor, TakeRet, TakeIf, TakeWhile, TakeBlock, TakeUnsafe, TakeExpr, SyncFrom, RunLet, RunFor,
           RunRet, RunIf, RunWhile, RunBlock, RunUnsafe, AsItem;
      InBounds();
      CleanStmt(inp, cursor, structLitAllowed);
      var k := Peek();
      if k == KwLet { r := ParseLetStmt(); }
      else if k == KwFor { r := ParseForStmt(); }
      else if k == KwRet { r := ParseRetStmt(); }
      else if k == KwBreak || k == KwContinue { r := ParseJumpStmt(); }
      else if k == KwIf || k == KwWhile || k == LBrace || k == KwUnsafe { r := ParseItemStmt(); }
      else if IsExprStmtStart(k) { r := ParseExprStmt(); }
      else { r := ParseNoStmt(); }
    }

    method ParseItemStmt() returns (r: NodeId)
      requires Valid() && (Peek() == KwIf || Peek() == KwWhile || Peek() == LBrace || Peek() == KwUnsafe)
      modifies this, pool, interner
      ensures Made(old(Now()), NStmt, r) && old(cursor) < cursor
      ensures Agrees(inp, old(cursor), Got(old(Now()), r), RunStmt(inp, old(cursor), old(structLitAllowed)))
      ensures Got(old(Now()), r) == TakeStmt(inp, old(cursor), old(structLitAllowed))
      decreases |inp.toks| - cursor, 3
    {
      hide NodePool.Valid, StringInterner.Valid, NodesOk, Made, Valid, Owned, Of, Grew, Fresh, RunStmt, Stands,
           TakeLet, TakeFor, TakeRet, TakeIf, TakeWhile, TakeBlock, TakeUnsafe, TakeExpr, SyncFrom, RunIf, RunWhile,
           RunBlock, RunUnsafe, AsItem;
      InBounds();
      CleanStmt(inp, cursor, structLitAllowed);
      ghost var a := Now();
      var k := Peek();
      if k == KwIf {
        r := ParseIfExpr();
        Sorts(a, NElse, NStmt, r);
      } else if k == KwWhile {
        r := ParseWhileStmt();
        Sorts(a, NExpr, NStmt, r);
      } else if k == LBrace {
        r := ParseBlockExpr();
        Sorts(a, NBlock, NStmt, r);
      } else {
        r := ParseUnsafeBlock();
        Sorts(a, NExpr, NStmt, r);
      }
    }

    method ParseExprStmt() returns (r: NodeId)
      requires Valid() && IsExprStmtStart(Peek())
      modifies this, pool, interner
      ensures Made(old(Now()), NStmt, r) && old(cursor) < cursor
      ensures Agrees(inp, old(cursor), Got(old(Now()), r), RunStmt(inp, old(cursor), old(structLitAllowed)))
      ensures Got(old(Now()), r) == TakeStmt(inp, old(cursor), old(structLitAllowed))
      decreases |inp.toks| - cursor, 4, 0
    {
      hide NodePool.Valid, StringInterner.Valid, NodesOk, Made, Valid, Owned, Of, Grew, Fresh, RunStmt, Stands,
           SyncEnd, TakeLet, TakeFor, TakeRet, TakeIf, TakeWhile, TakeBlock, TakeUnsafe, TakeExpr, SyncFrom,
           RunExpr, TakeStmt, Agrees;
      InBounds();
      CleanStmt(inp, cursor, structLitAllowed);
      ExprStmtTaken(inp, cursor, structLitAllowed);
      ghost var a := Now();
      OpensExpr(Peek());
      InBounds();
      r := ParseExpr(0);
      Unmake(a, NExpr, r);
      ghost var b := Now();
      var failed := IsError(r);
      if failed {
        Synchronize();
      } else {
        var semi := Consume(Semi);
        if !semi { AddError(Span(Previous().span.end, Previous().span.end), ExpectedSemi); }
      }
      MadeMoved(a, b, NExpr, r);
      Sorts(a, NExpr, NStmt, r);
    }

    method ParseNoStmt() returns (r: NodeId)
      requires Valid() && !StartsStmt(Peek()) && !IsExprStmtStart(Peek())
      modifies this, pool, interner
      ensures Made(old(Now()), NStmt, r) && |errors| > |old(errors)|
      ensures KindAt(inp, old(cursor)) != Eof ==> old(cursor) < cursor
      ensures Got(old(Now()), r) == Wrong(inp, old(cursor), SyncFrom(inp, old(cursor)))
    {
      hide NodePool.Valid, StringInterner.Valid, NodesOk, Made, Valid, Owned, Of, Grew, Fresh, ErrorNodes, SyncEnd,
           SyncFrom;
      ghost var a := Now();
      var tok := PeekToken();
      AddError(tok.span, ExpectedStmt);
      Synchronize();
      Started(a, Now());
      r := MakeErrorNode(tok.span, a);
      ErrorOf(NStmt, TreeOf(pool.trees, r));
      Remake(a, NStmt, r);
    }

    // `break;` or `continue;`.
    method ParseJumpStmt() returns (r: NodeId)
      requires Valid() && (Peek() == KwBreak || Peek() == KwContinue)
      modifies this, pool, interner
      ensures Made(old(Now()), NStmt, r) && old(cursor) < cursor
      ensures Agrees(inp, old(cursor), Got(old(Now()), r), RunStmt(inp, old(cursor), old(structLitAllowed)))
      ensures Got(old(Now()), r) == TakeStmt(inp, old(cursor), old(structLitAllowed))
    {
      hide NodePool.Valid, StringInterner.Valid, NodesOk, Made, Valid, Owned, Of, Grew, Fresh, RunStmt, Stands,
           Stores, TakeLet, TakeFor, TakeRet, TakeIf, TakeWhile, TakeBlock, TakeUnsafe, TakeExpr, SyncFrom;
      InBounds();
      CleanStmt(inp, cursor, structLitAllowed);
      ghost var a := Now();
      var tok := Advance();
      var _ := Expect(Semi, ExpectedBreakOrContinueSemi);
      Started(a, Now());
      StoresZero(interner.strings);
      r := AllocLeaf(if tok.kind == KwBreak then BreakStmt else ContinueStmt, tok.span, 0, Zero, NStmt, a);
      Unmake(a, NStmt, r);
    }

    method ParseRetStmt() returns (r: NodeId)
      requires Valid() && Peek() == KwRet
      modifies this, pool, interner
      ensures Made(old(Now()), NStmt, r) && old(cursor) < cursor
      ensures Agrees(inp, old(cursor), Got(old(Now()), r), RunRet(inp, old(cursor), old(structLitAllowed)))
      ensures Got(old(Now()), r) == TakeRet(inp, old(cursor), old(structLitAllowed))
      decreases |inp.toks| - cursor, 3
    {
      hide NodePool.Valid, StringInterner.Valid, NodesOk, Made, Valid, Owned, Of, Grew, Fresh, RunRet, Stands,
           Stores, TakeExpr, RunExpr;
      InBounds();
      CleanRet(inp, cursor, structLitAllowed);
      ghost var a := Now();
      var start := Expect(KwRet, ExpectedKeyword);
      ghost var b := Now();
      Started(a, b);
      var value := ParseExpr(0);
      Unmake(b, NExpr, value);
      ghost var c := Now();
      FreshLater(a, b, c, value);
      var end := Expect(Semi, ExpectedSemi);
      MadeMoved(a, c, NExpr, value);
      StoresZero(interner.strings);
      r := AllocOne(RetStmt, Span(start.span.start, end.span.end), value, 0, Zero, NStmt, NExpr, a);
      Unmake(a, NStmt, r);
    }

    // The regime and the name that a keyword introduces; an unexpected token stays.
    method ParseBinder() returns (regime: Regime, name: Id)
      requires Valid() && 0 < cursor
      modifies `cursor, `errors, interner
      ensures Valid() && Extends(old(interner.strings), interner.strings) && Older(old(errors), errors)
      ensures name < |interner.strings|
      ensures var n := NameAt(inp, old(cursor) - 1);
              && regime == RegimeOf(KindAt(inp, old(cursor))) && interner.strings[name] == TokText(inp, n)
              && (|errors| == |old(errors)|) == (KindAt(inp, n) == Identifier)
              && cursor == if KindAt(inp, n) == Identifier then n + 1 else n
      ensures cursor == Past(inp, NameAt(inp, old(cursor) - 1), Identifier)
    {
      hide TextOf;
      regime := ParseRegime();
      name := ExpectName(Identifier);
    }

    method ParseForStmt() returns (r: NodeId)
      requires Valid() && Peek() == KwFor
      modifies this, pool, interner
      ensures Made(old(Now()), NStmt, r) && old(cursor) < cursor
      ensures Agrees(inp, old(cursor), Got(old(Now()), r), RunFor(inp, old(cursor), old(structLitAllowed)))
      ensures Got(old(Now()), r) == TakeFor(inp, old(cursor), old(structLitAllowed))
      decreases |inp.toks| - cursor, 3
    {
      hide NodePool.Valid, StringInterner.Valid, NodesOk, Made, Valid, Owned, Of, Grew, Fresh, RunFor, Stands,
           TextOf, Agrees, Extends, RegimeOf, TokText, TakeExpr, TakeBlock, RunExpr, RunBlock;
      InBounds();
      CleanFor(inp, cursor, structLitAllowed);
      ghost var a := Now();
      var start := Expect(KwFor, ExpectedKeyword);
      var regime, name := ParseBinder();
      var _ := Expect(KwIn, ExpectedKeyword);
      Started(a, Now());
      ghost var x, y;
      r, x, y := ParseForRest(start.span.start, regime, name, a);
    }

    // What is iterated over, and the block.
    method ParseForRest(start: nat, regime: Regime, name: Id, ghost a: State)
      returns (r: NodeId, ghost x: Out, ghost y: Out)
      requires Valid() && Grew(a, Now()) && name < |interner.strings|
      modifies this, pool, interner
      ensures Made(a, NStmt, r) && old(cursor) <= cursor
      ensures (|errors| == |a.errs|) == (|old(errors)| == |a.errs| && x.ok && y.ok)
      ensures TreeOf(pool.trees, r) == Node(ForStmt, start, SpanOf(y.tree).end,
                                            NameRegime(old(interner.strings)[name], regime), [x.tree, y.tree])
      ensures x == TakeExpr(inp, old(cursor), 0, Off) && y == TakeBlock(inp, x.end, a.sl) && cursor == y.end
      decreases |inp.toks| - cursor, 8
    {
      hide NodePool.Valid, StringInterner.Valid, NodesOk, Made, Valid, Owned, Of, Grew, Fresh, Stores, RangeOf,
           Extends, TreeOf, FitsTwo, TakeExpr, TakeBlock, RunExpr, RunBlock, Stands, Agrees;
      ghost var b, text := Now(), interner.strings[name];
      GrewFacts(a, b);
      var iterable := ParseHeader();
      Unmake(b, NExpr, iterable);
      x := Got(b, iterable);
      ghost var c := Now();
      FreshLater(a, b, c, iterable);
      GrewStrings(b, c);
      StringsStay(b.strs, interner.strings, name);
      var body := ParseBlockExpr();
      Unmake(c, NBlock, body);
      y := Got(c, body);
      GrewStrings(c, Now());
      StringsStay(c.strs, interner.strings, name);
      StoresNameRegime(interner.strings, name, regime);
      ForFits(text, regime);
      r := AllocTwo(ForStmt, Span(start, RangeOf(body).end), iterable, body, MakePayload(name, regime),
                    NameRegime(text, regime), NStmt, NExpr, NBlock, a, c);
      Unmake(a, NStmt, r);
    }

    method AllocLet(s: Span, ids: seq<NodeId>, name: Id, regime: Regime, ghost ty: seq<Tree>, ghost init: seq<Tree>,
                    ghost a: State)
      returns (n: NodeId)
      requires Valid() && Grew(a, Now()) && Kept(Now(), |a.trees|, ids, ty + init) && name < |interner.strings|
      requires |ty| <= 1 && AllOf(NType, ty) && |init| <= 1 && AllOf(NExpr, init)
      modifies pool, `literals
      ensures Made(a, NStmt, n)
      ensures TreeOf(pool.trees, n) == Tree(LetStmt, s, NameRegime(interner.strings[name], regime), 0, ty + init)
    {
      hide NodePool.Valid, StringInterner.Valid, NodesOk, Valid, Owned, Of, AllOf, Grew, Fresh, Kept, Stores,
           Shaped;
      ghost var text := interner.strings[name];
      StoresNameRegime(interner.strings, name, regime);
      ShapeLet(NameRegime(text, regime), ty, init);
      n := Alloc(LetStmt, s, ids, MakePayload(name, regime), 0, NameRegime(text, regime), ty + init, a);
      AlwaysOf(NStmt, TreeOf(pool.trees, n));
    }

    method ParseLetStmt() returns (r: NodeId)
      requires Valid() && Peek() == KwLet
      modifies this, pool, interner
      ensures Made(old(Now()), NStmt, r) && old(cursor) < cursor
      ensures Agrees(inp, old(cursor), Got(old(Now()), r), RunLet(inp, old(cursor), old(structLitAllowed)))
      ensures Got(old(Now()), r) == TakeLet(inp, old(cursor), old(structLitAllowed))
      decreases |inp.toks| - cursor, 3
    {
      hide NodePool.Valid, StringInterner.Valid, NodesOk, Made, Valid, Added, Owned, Of, AllOf, Grew, Fresh, Kept,
           RunLet, Stands, Stores, TextOf, Shaped, Agrees, TreeOf, TakeOptType, TakeOptInit, LetEnd, LastIsError,
           RunOptType, RunOptInit, AgreesOpt;
      InBounds();
      CleanLet(inp, cursor, structLitAllowed);
      InBounds();
      Sizes(pool);
      ghost var a := Now();
      var start := Expect(KwLet, ExpectedKeyword);
      var regime, name := ParseBinder();
      ghost var text := interner.strings[name];
      ghost var b := Now();
      Started(a, b);
      KeptNone(b, |a.trees|);
      var ids;
      ghost var ty, init;
      ids, ty := ParseOptType(|a.trees|);
      Unadd(b, |a.trees|, ids, [], NType, ty);
      assert [] + ty.trees == ty.trees;
      ghost var c := Now();
      GrewTrans(a, b, c);
      GrewStrings(b, c);
      ids, init := ParseOptInit(ids, ty.trees, |a.trees|);
      Unadd(c, |a.trees|, ids, ty.trees, NExpr, init);
      ghost var d := Now();
      GrewTrans(a, c, d);
      GrewStrings(c, d);
      var failed := LastFailed(ids, ty.trees + init.trees, |a.trees|);
      EndLet(failed);
      Moved(a, d, Now());
      KeptMoved(d, Now(), |a.trees|, ids, ty.trees + init.trees);
      r := AllocLet(Span(start.span.start, Previous().span.end), ids, name, regime, ty.trees, init.trees, a);
    }

    // Whether the last of the children is an error node.
    method LastFailed(ids: seq<NodeId>, ghost kids: seq<Tree>, ghost lo: nat) returns (b: bool)
      requires Valid() && Kept(Now(), lo, ids, kids) && 0 < lo && forall j :: 0 <= j < |kids| ==> kids[j].Tree?
      ensures b == LastIsError(kids) && b == (kids != [] && kids[|kids| - 1].kind == Error)
    {
      hide NodePool.Valid, StringInterner.Valid, NodesOk, Owned;
      if |ids| == 0 { return false; }
      assert TreeOf(pool.trees, ids[|ids| - 1]) == kids[|kids| - 1];
      b := IsError(ids[|ids| - 1]);
    }

    /** The end of a `let`: behind a failed initialiser the rest of the statement is skipped without
        another diagnostic, but never beyond a closing brace. */
    method EndLet(failed: bool)
      requires Valid() && 0 < cursor
      modifies `cursor, `errors
      ensures Valid() && old(cursor) <= cursor && Older(old(errors), errors)
      ensures failed ==> errors == old(errors)
      ensures !failed ==> (|errors| == |old(errors)|) == (KindAt(inp, old(cursor)) == Semi)
      ensures !failed && |errors| == |old(errors)| ==> cursor == old(cursor) + 1
      ensures cursor == LetEnd(inp, old(cursor), failed)
    {
      if failed {
        while !Check(Semi) && !Check(RBrace) && !AtEof()
          invariant cursor <= |inp.toks| && Valid() && old(cursor) <= cursor && errors == old(errors)
          invariant FirstOf(inp, old(cursor), {Semi, RBrace}) == FirstOf(inp, cursor, {Semi, RBrace})
          decreases |inp.toks| - cursor
        {
          var _ := Advance();
        }
        var _ := Consume(Semi);
      } else {
        var semi := Consume(Semi);
        if !semi { AddError(Previous().span, ExpectedSemi); }
      }
    }

    // `: type`, if there is one.
    method ParseOptType(ghost lo: nat) returns (ids: seq<NodeId>, ghost o: ListOut)
      requires Valid() && lo <= |pool.trees|
      modifies this, pool, interner
      ensures Added(old(Now()), lo, ids, [], NType, o) && |o.trees| <= 1 && OkTrees(o)
      ensures o == TakeOptType(inp, old(cursor), old(structLitAllowed))
      decreases |inp.toks| - cursor, 2
    {
      hide NodePool.Valid, StringInterner.Valid, NodesOk, Made, Valid, Added, Owned, Of, AllOf, Grew, Fresh, Kept,
           TakeType, RunOptType, RunType, AgreesOpt, Stands;
      ghost var a := Now();
      Started(a, a);
      KeptNone(a, lo);
      var colon := Consume(Colon);
      ghost var b := Now();
      Started(a, b);
      KeptMoved(a, b, lo, [], []);
      ids := [];
      if !colon {
        NoneAdded(lo, [], [], NType);
        o := ListOut(true, cursor, []);
        return;
      }
      var ty := ParseType();
      NoneOf(NType);
      ghost var nil: seq<Tree> := [];
      assert nil + nil == nil;
      Unmake(b, NType, ty);
      o := OneAdded(a, b, lo, [], [], NType, ListOut(true, b.cur, []), ty);
      assert [] + [ty] == [ty];
      ids := [ty];
    }

    // `= initialiser`, if there is one.
    method ParseOptInit(ids0: seq<NodeId>, ghost kids: seq<Tree>, ghost lo: nat)
      returns (ids: seq<NodeId>, ghost o: ListOut)
      requires Valid() && lo <= |pool.trees| && Kept(Now(), lo, ids0, kids)
      modifies this, pool, interner
      ensures Added(old(Now()), lo, ids, kids, NExpr, o) && |o.trees| <= 1 && OkTrees(o)
      ensures o == TakeOptInit(inp, old(cursor), old(structLitAllowed))
      decreases |inp.toks| - cursor, 3, 1
    {
      hide NodePool.Valid, StringInterner.Valid, NodesOk, Made, Valid, Added, Owned, Of, AllOf, Grew, Fresh, Kept,
           TakeExpr, RunOptInit, RunExpr, AgreesOpt, Stands;
      ghost var a := Now();
      Started(a, a);
      var eq := Consume(Eq);
      ghost var b := Now();
      Started(a, b);
      KeptMoved(a, b, lo, ids0, kids);
      ids := ids0;
      if !eq {
        NoneAdded(lo, ids0, kids, NExpr);
        o := ListOut(true, cursor, []);
        return;
      }
      var init := ParseExpr(0);
      NoneOf(NExpr);
      assert kids + [] == kids;
      Unmake(b, NExpr, init);
      o := OneAdded(a, b, lo, ids0, kids, NExpr, ListOut(true, b.cur, []), init);
      ids := ids0 + [init];
    }

    /////////////////////////// types ///////////////////////////

    method ParseType() returns (r: NodeId)
      requires Valid()
      modifies this, pool, interner
      ensures Made(old(Now()), NType, r)
      ensures Agrees(inp, old(cursor), Got(old(Now()), r), RunType(inp, old(cursor), old(structLitAllowed)))
      ensures if StartsType(KindAt(inp, old(cursor))) then old(cursor) < cursor else old(cursor) == cursor
      ensures Got(old(Now()), r) == TakeType(inp, old(cursor), old(structLitAllowed))
      decreases |inp.toks| - cursor, 1
    {
      hide NodePool.Valid, StringInterner.Valid, NodesOk, Made, Valid, Owned, Of, Grew, Fresh, RunType, Stands,
           TakeComma, TakeArrayType, TakeTensorType, TakeSegs, PathRange, RunArrayType, RunTensorType;
      InBounds();
      CleanType(inp, cursor, structLitAllowed);
      if Check(LParen) { r := ParseTupleType(); }
      else if Check(LSquare) { r := ParseArrayType(); }
      else if Check(KwTensor) { r := ParseTensorType(); }
      else { r := ParseNamedType(); }
    }

    method ParseNamedType() returns (r: NodeId)
      requires Valid() && Peek() != LParen && Peek() != LSquare && Peek() != KwTensor
      modifies this, pool, interner
      ensures Made(old(Now()), NType, r)
      ensures Agrees(inp, old(cursor), Got(old(Now()), r), RunType(inp, old(cursor), old(structLitAllowed)))
      ensures if StartsType(KindAt(inp, old(cursor))) then old(cursor) < cursor else old(cursor) == cursor
      ensures Got(old(Now()), r) == TakeType(inp, old(cursor), old(structLitAllowed))
    {
      hide NodePool.Valid, StringInterner.Valid, NodesOk, Made, Valid, Owned, Of, Grew, Fresh, RunType, Stands,
           ErrorNodes, TakeComma, TakeArrayType, TakeTensorType, TakeSegs;
      InBounds();
      CleanType(inp, cursor, structLitAllowed);
      ghost var a := Now();
      if !Check(Identifier) && !Check(KwSelf) {
        AddError(PeekToken().span, ExpectedTypeName);
        Started(a, Now());
        r := MakeErrorNode(PeekToken().span, a);
        ErrorOf(NType, TreeOf(pool.trees, r));
        Remake(a, NType, r);
        return;
      }
      var tok := Advance();
      var full, isPath := ParsePathSegments(tok.span);
      var name := Intern(Text(full));
      Started(a, Now());
      r := AllocLeaf(NamedType, full, name, Name(Text(full)), NType, a);
    }

    method ParseTupleType() returns (r: NodeId)
      requires Valid() && Peek() == LParen
      modifies this, pool, interner
      ensures Made(old(Now()), NType, r) && old(cursor) < cursor
      ensures Agrees(inp, old(cursor), Got(old(Now()), r), RunType(inp, old(cursor), old(structLitAllowed)))
      ensures Got(old(Now()), r) == TakeType(inp, old(cursor), old(structLitAllowed))
      decreases |inp.toks| - cursor, 0
    {
      hide NodePool.Valid, StringInterner.Valid, NodesOk, Made, Valid, Owned, Of, Grew, Fresh, Kept, AllOf, RunType,
           Stands, Stores, TreeOf, Agrees, TakeComma, TakeArrayType, TakeTensorType, TakeSegs, RunComma, MItems,
           AstItems, AgreesItems;
      InBounds();
      CleanType(inp, cursor, structLitAllowed);
      ghost var a := Now();
      var start := Advance();
      Started(a, Now());
      var ids, end;
      ghost var l;
      ids, end, l := ParseEnclosed(RParen, AType, ExpectedTupleTypeClose, a);
      StoresZero(interner.strings);
      r := AllocMany(TupleType, Span(start.span.start, end.span.end), ids, 0, Zero, l.trees, NType, NType, a);
    }

    // The element type of an array or a tensor, and the semicolon behind it.
    method ParseElemType(id: DiagId, ghost a: State) returns (elem: NodeId, ghost e: Out)
      requires Valid() && Grew(a, Now())
      modifies this, pool, interner
      ensures Valid() && Grew(a, Now()) && Fresh(a, Now(), elem) && Of(NType, e.tree)
      ensures TreeOf(pool.trees, elem) == e.tree
      ensures |old(errors)| <= |errors| && (|errors| == |old(errors)|) == (e.ok && KindAt(inp, e.end) == Semi)
      ensures |errors| == |old(errors)| ==> cursor == e.end + 1
      ensures old(cursor) <= cursor <= |inp.toks| && structLitAllowed == a.sl && |a.trees| <= |pool.trees|
      ensures |a.errs| <= |errors|
      ensures e == TakeType(inp, old(cursor), a.sl) && cursor == Past(inp, e.end, Semi)
      decreases |inp.toks| - cursor, 2
    {
      hide NodePool.Valid, StringInterner.Valid, NodesOk, Made, Valid, Owned, Of, Grew, Fresh, TakeType, RunType,
           Stands, Agrees;
      ghost var b := Now();
      GrewFacts(a, b);
      elem := ParseType();
      Unmake(b, NType, elem);
      ghost var c := Now();
      e := Got(b, elem);
      FreshLater(a, b, c, elem);
      var _ := Expect(Semi, id);
      Moved(a, c, Now());
      Started(c, Now());
      FreshStays(a, c, Now(), elem);
      GrewFacts(a, Now());
      InBounds();
    }

    method ParseArrayType() returns (r: NodeId)
      requires Valid() && Peek() == LSquare
      modifies this, pool, interner
      ensures Made(old(Now()), NType, r) && old(cursor) < cursor
      ensures Agrees(inp, old(cursor), Got(old(Now()), r), RunArrayType(inp, old(cursor), old(structLitAllowed)))
      ensures Got(old(Now()), r) == TakeArrayType(inp, old(cursor), old(structLitAllowed))
      decreases |inp.toks| - cursor, 0
    {
      hide NodePool.Valid, StringInterner.Valid, NodesOk, Made, Valid, Owned, Of, Grew, Fresh, RunArrayType, Stands,
           Stores, Agrees, TakeType, TakeExpr, RunType, RunExpr;
      InBounds();
      CleanArrayType(inp, cursor, structLitAllowed);
      ghost var a := Now();
      var start := Advance();
      ghost var b := Now();
      Started(a, b);
      var elem;
      ghost var e;
      elem, e := ParseElemType(ExpectedArrayTypeSemi, a);
      ghost var c := Now();
      var size := ParseConstExpr(0);
      Unmake(c, NExpr, size);
      ghost var d := Now();
      var end := Expect(RSquare, ExpectedArrayTypeClose);
      MadeMoved(c, d, NExpr, size);
      StoresZero(interner.strings);
      r := AllocTwo(ArrayType, Span(start.span.start, end.span.end), elem, size, 0, Zero, NType, NType, NExpr, a, c);
      Unmake(a, NType, r);
    }

    method ParseTensorType() returns (r: NodeId)
      requires Valid() && Peek() == KwTensor
      modifies this, pool, interner
      ensures Made(old(Now()), NType, r) && old(cursor) < cursor
      ensures Agrees(inp, old(cursor), Got(old(Now()), r), RunTensorType(inp, old(cursor), old(structLitAllowed)))
      ensures Got(old(Now()), r) == TakeTensorType(inp, old(cursor), old(structLitAllowed))
      decreases |inp.toks| - cursor, 0
    {
      hide NodePool.Valid, StringInterner.Valid, NodesOk, Made, Valid, Added, Owned, Of, Grew, Fresh, Kept, AllOf,
           RunTensorType, Agrees, Stores, TreeOf, FitsHead, TakeType, TakeComma, RunType, RunComma, AgreesItems;
      InBounds();
      CleanTensorType(inp, cursor, structLitAllowed);
      ghost var a := Now();
      var start := Advance();
      var _ := Expect(LSquare, ExpectedTensorOpen);
      ghost var b := Now();
      Started(a, b);
      var elem;
      ghost var e;
      elem, e := ParseElemType(ExpectedTensorTypeSemi, a);
      ghost var c := Now();
      KeptOne(a, c, elem);
      var ids;
      ghost var ds;
      ids, ds := ParseCommaSeparated([elem], RSquare, AConst, [e.tree], |a.trees|);
      Unadd(c, |a.trees|, ids, [e.tree], NExpr, ds);
      ghost var d := Now();
      GrewTrans(a, c, d);
      var end := CloseDims(|ids| == 1, ExpectedTensorTypeClose, ids, [e.tree] + ds.trees, a);
      StoresZero(interner.strings);
      assert ids == [elem] + ids[1..];
      HeadFits();
      r := AllocHead(TensorType, Span(start.span.start, end.span.end), elem, ids[1..], 0, Zero, ds.trees, NType, NType,
                     NExpr, a, e.tree);
    }

    /////////////////////////// patterns ///////////////////////////

    /** A pattern; at least one token is consumed unless none is left. */
    method ParsePat() returns (r: NodeId)
      requires Valid()
      modifies this, pool, interner
      ensures Made(old(Now()), NPat, r) && (old(cursor) < |inp.toks| ==> old(cursor) < cursor)
      ensures Agrees(inp, old(cursor), Got(old(Now()), r), RunPat(inp, old(cursor), old(structLitAllowed)))
      ensures Got(old(Now()), r) == TakePat(inp, old(cursor), old(structLitAllowed))
      decreases |inp.toks| - cursor, 1
    {
      hide NodePool.Valid, StringInterner.Valid, NodesOk, Made, Valid, Owned, Of, Grew, Fresh, RunPat, Stands,
           Stores, ErrorNodes, TextOf, TakePathPat, TakeTuplePat, RunPathPat, RunTuplePat;
      ghost var a := Now();
      InBounds();
      CleanPat(inp, cursor, structLitAllowed);
      var tok := PeekToken();
      if tok.kind == Identifier && Text(tok.span) != "_" {
        r := ParsePathPat();
      } else if tok.kind == LParen {
        StoresZero(interner.strings);
        Started(a, a);
        r := ParseTuplePat(NullStr, tok.span, Zero, a);
      } else if tok.kind == Identifier {
        var _ := Advance();
        Started(a, Now());
        StoresZero(interner.strings);
        r := AllocLeaf(WildcardPat, tok.span, 0, Zero, NPat, a);
      } else if IsLiteral(tok.kind) {
        var _ := Advance();
        var name := Intern(Text(tok.span));
        Started(a, Now());
        StoresName(interner.strings, interner.strings, name);
        r := AllocLeaf(LiteralPat, tok.span, name, Name(Text(tok.span)), NPat, a);
      } else {
        AddError(tok.span, ExpectedPattern);
        var _ := Advance();
        Started(a, Now());
        r := MakeErrorNode(tok.span, a);
        ErrorOf(NPat, TreeOf(pool.trees, r));
        Remake(a, NPat, r);
      }
    }

    // A name or a path, alone or in front of a tuple or struct pattern.
    method ParsePathPat() returns (r: NodeId)
      requires Valid() && Peek() == Identifier && Text(PeekToken().span) != "_"
      modifies this, pool, interner
      ensures Made(old(Now()), NPat, r) && old(cursor) < cursor
      ensures Agrees(inp, old(cursor), Got(old(Now()), r), RunPathPat(inp, old(cursor), old(structLitAllowed)))
      ensures Got(old(Now()), r) == TakePathPat(inp, old(cursor), old(structLitAllowed))
      decreases |inp.toks| - cursor, 0
    {
      hide NodePool.Valid, StringInterner.Valid, NodesOk, Made, Valid, Owned, Of, Grew, Fresh, RunPathPat, Stands,
           Stores, TextOf, TakeTuplePat, TakeSegs, TakeComma, RunTuplePat;
      InBounds();
      CleanPathPat(inp, cursor, structLitAllowed);
      ghost var a := Now();
      var tok := Advance();
      var path, isPath := ParsePathSegments(tok.span);
      var name := Intern(Text(path));
      Started(a, Now());
      StoresName(interner.strings, interner.strings, name);
      if Check(LParen) {
        r := ParseTuplePat(name, path, Name(Text(path)), a);
      } else if Check(LBrace) {
        r := ParseStructPat(name, path, a);
      } else {
        StoresNameRegime(interner.strings, name, NoRegime);
        r := AllocLeaf(IdentPat, path, MakePayload(name, NoRegime), NameRegime(Text(path), NoRegime), NPat, a);
      }
      Unmake(a, NPat, r);
    }

    // `( pattern, ... )`, behind a path of `n` segments that began in state `a` or on its own.
    method ParseTuplePat(name: Id, start: Span, ghost p: Payload, ghost a: State) returns (r: NodeId)
      requires Valid() && Grew(a, Now()) && Peek() == LParen && Stores(interner.strings, name, p)
      requires p.Name? || p.Zero?
      modifies this, pool, interner
      ensures Made(a, NPat, r) && old(cursor) < cursor && |old(errors)| <= |errors|
      ensures Since(|old(errors)|, r) == TakeTuplePat(inp, old(cursor), start.start, p, old(structLitAllowed))
      decreases |inp.toks| - cursor, 0
    {
      hide NodePool.Valid, StringInterner.Valid, NodesOk, Made, Valid, Owned, Of, Grew, Fresh, Kept, AllOf, Stores,
           TextOf, TreeOf, TakeComma, RunTuplePat, RunComma, Stands, MItems, AstItems, MSegs, RunSegs, AgreesItems;
      ghost var top := Now();
      GrewFacts(a, top);
      var _ := Advance();
      Moved(a, top, Now());
      var ids, end;
      ghost var l;
      ids, end, l := ParseEnclosed(RParen, APat, ExpectedTuplePatClose, a);
      StoresLater(top.strs, interner.strings, name, p);
      r := AllocMany(TuplePat, Span(start.start, end.span.end), ids, name, p, l.trees, NPat, NPat, a);
    }

    method ParseStructPat(name: Id, start: Span, ghost a: State) returns (r: NodeId)
      requires Valid() && Grew(a, Now()) && Peek() == LBrace && a.cur < cursor
      requires KindAt(inp, a.cur) == Identifier && TokText(inp, a.cur) != "_"
      requires name < |interner.strings| && interner.strings[name] == Text(start)
      requires start == PathRange(inp, a.cur, cursor)
               && PathOut(|errors| == |a.errs|, cursor) == TakeSegs(inp, a.cur + 1)
      modifies this, pool, interner
      ensures Made(a, NPat, r) && old(cursor) < cursor && |old(errors)| <= |errors|
      ensures Got(a, r) == TakePathPat(inp, a.cur, old(structLitAllowed))
      decreases |inp.toks| - cursor, 0
    {
      hide NodePool.Valid, StringInterner.Valid, NodesOk, Made, Valid, Owned, Of, Grew, Fresh, Kept, AllOf, Stores,
           TextOf, TreeOf, TakeSegs, TakeComma, TakeTuplePat, RunPathPat, RunComma, Stands, MItems, AstItems, MSegs,
           RunSegs, AgreesItems;
      ghost var top := Now();
      GrewFacts(a, top);
      var _ := Advance();
      Moved(a, top, Now());
      var ids, end;
      ghost var l;
      ids, end, l := ParseEnclosed(RBrace, AFieldPat, ExpectedStructPatClose, a);
      StoresName(top.strs, interner.strings, name);
      r := AllocMany(StructPat, Span(start.start, end.span.end), ids, name, Name(Text(start)), l.trees, NPat, NFieldPat,
                     a);
    }

    /////////////////////////// gathering children ///////////////////////////

    // Children gathered since state `a` for a node that will start at offset `from`: loose, and as
    // long as all is clean in source order up to the cursor.
    ghost predicate Gathered(a: State, ids: seq<NodeId>, kids: seq<Tree>, from: nat)
      reads this, pool, interner
    {
      && Valid() && Grew(a, Now()) && Kept(Now(), |a.trees|, ids, kids)
      && (|errors| == |a.errs| && InOrder(inp.toks) ==> Row(inp, kids, from, cursor))
    }

    lemma Ungather(a: State, ids: seq<NodeId>, kids: seq<Tree>, from: nat)
      requires Gathered(a, ids, kids, from)
      ensures Valid() && pool.Valid() && cursor <= |inp.toks| && Grew(a, Now()) && Kept(Now(), |a.trees|, ids, kids)
      ensures a.cur <= cursor && structLitAllowed == a.sl && |a.errs| <= |errors| && |a.trees| <= |pool.trees|
      ensures |errors| == |a.errs| && InOrder(inp.toks) ==> Row(inp, kids, from, cursor)
    {
    }

    // The first child row, behind the token at `pos` that opens the node.
    lemma GatherNone(a: State, pos: nat)
      requires Valid() && Grew(a, Now()) && (|errors| == |a.errs| ==> pos < cursor)
      ensures Gathered(a, [], [], StartOf(inp, pos))
    {
      KeptNone(Now(), |a.trees|);
      if InOrder(inp.toks) && pos < cursor {
        RowEmpty(inp, pos);
        RowWiden(inp, [], StartOf(inp, pos), pos + 1, cursor);
      }
    }

    // Documentation precedes the token that opens the node.
    lemma GatherDocs(a: State, docs: seq<NodeId>, dt: seq<Tree>, pos: nat)
      requires Valid() && Grew(a, Now()) && Kept(Now(), |a.trees|, docs, dt) && (|errors| == |a.errs| ==> pos < cursor)
      requires AllOf(NDoc, dt) && (InOrder(inp.toks) ==> AllNested(dt))
      ensures Gathered(a, docs, dt, StartOf(inp, pos))
    {
      hide NodePool.Valid, StringInterner.Valid, NodesOk, InOrder, AllNested, AllOf, Row, Grew, Kept;
      if InOrder(inp.toks) && pos < cursor { DocsRow(inp, dt, pos, cursor); }
    }

    // The call that began in state `b` built one more child.
    lemma Gather(a: State, b: State, ids: seq<NodeId>, kids: seq<Tree>, from: nat, s: Sort, r: NodeId)
      requires Grew(a, b) && Kept(b, |a.trees|, ids, kids)
      requires |b.errs| == |a.errs| && InOrder(inp.toks) ==> Row(inp, kids, from, b.cur)
      requires Made(b, s, r) && Sited(b, r)
      ensures Gathered(a, ids + [r], kids + [TreeOf(pool.trees, r)], from)
    {
      hide Kept, Grew, Fresh, Of, Row, Inside, InOrder;
      GrewFacts(a, b);
      GrewFacts(b, Now());
      GrewTrans(a, b, Now());
      KeptPush(b, Now(), |a.trees|, ids, kids, r);
      FreshFacts(b, Now(), r);
      if |errors| == |a.errs| && InOrder(inp.toks) {
        RowPush(inp, kids, from, b.cur, TreeOf(pool.trees, r), b.cur, cursor);
      }
    }

    // Tokens, diagnostics and strings came since `b`, no nodes.
    lemma GatherMoved(a: State, b: State, ids: seq<NodeId>, kids: seq<Tree>, from: nat)
      requires Valid() && Grew(a, b) && Kept(b, |a.trees|, ids, kids)
      requires |b.errs| == |a.errs| && InOrder(inp.toks) ==> Row(inp, kids, from, b.cur)
      requires b.cur <= cursor && structLitAllowed == b.sl && region == b.open && literals == b.lits
      requires Older(b.errs, errors) && Extends(b.strs, interner.strings)
      requires pool.trees == b.trees && Owned(pool.children) == b.owned
      ensures Gathered(a, ids, kids, from)
    {
      hide Kept, Row, InOrder, Grew;
      GrewFacts(a, b);
      Moved(a, b, Now());
      KeptMoved(b, Now(), |a.trees|, ids, kids);
      if |errors| == |a.errs| && InOrder(inp.toks) { RowWiden(inp, kids, from, b.cur, cursor); }
    }

    lemma GatherNull(a: State, ids: seq<NodeId>, kids: seq<Tree>, from: nat)
      requires Gathered(a, ids, kids, from)
      ensures Gathered(a, ids + [NullNode], kids + [NullTree], from)
    {
      KeptNull(Now(), |a.trees|, ids, kids);
      if |errors| == |a.errs| && InOrder(inp.toks) {
        ChainPush(kids, from, EndOf(inp, cursor - 1), NullTree, EndOf(inp, cursor - 1));
      }
    }

    // A clean call whose node opens at token `pos` built it inside the tokens from there on.
    ghost predicate Placed(a: State, pos: nat, r: NodeId)
      reads this, pool
    {
      |errors| == |a.errs| && InOrder(inp.toks) ==> Inside(inp, TreeOf(pool.trees, r), pos, cursor)
    }

    /** The node over the gathered children, from the token at `pos` to the one before `end`. */
    method AllocEnding(kind: NodeKind, ghost pos: nat, span: Span, ids: seq<NodeId>, payload: nat, flags: nat,
                       ghost p: Payload, ghost kids: seq<Tree>, ghost o: Sort, ghost a: State, ghost b: State,
                       ghost end: nat)
      returns (n: NodeId)
      requires kind != Error && kind != DocComment && kind != StructLitExpr && Shaped(kind, p, kids)
      requires Stores(interner.strings, payload, p)
      requires KindFits(o, kind) && BodyFits(o, Tree(kind, span, p, flags, kids))
      requires Valid() && Grew(a, Now()) && Kept(Now(), |a.trees|, ids, kids)
      requires |b.errs| == |a.errs| && InOrder(inp.toks) ==> Row(inp, kids, StartOf(inp, pos), b.cur)
      requires |b.errs| <= |errors|
      requires |errors| == |a.errs| ==>
               && |b.errs| == |a.errs| && b.cur <= end <= cursor && pos < end
               && span == Span(StartOf(inp, pos), EndOf(inp, end - 1))
      modifies pool, `literals
      ensures Made(a, o, n) && Placed(a, pos, n)
      ensures TreeOf(pool.trees, n) == Tree(kind, span, p, flags, kids)
    {
      hide Owned, NodePool.Valid, StringInterner.Valid, NodesOk, Stores, Shaped, KindFits, BodyFits, Kept, Grew,
           Fresh, Inside, Row, InOrder;
      n := Alloc(kind, span, ids, payload, flags, p, kids, a);
      if |errors| == |a.errs| && InOrder(inp.toks) {
        RowWiden(inp, kids, StartOf(inp, pos), b.cur, end);
        RowChain(inp, kids, StartOf(inp, pos), end);
        RowNode(inp, kind, p, flags, kids, pos, end, StartOf(inp, pos), EndOf(inp, end - 1));
        InsideWiden(inp, TreeOf(pool.trees, n), pos, pos, end, cursor);
      }
    }

    // The same, to the last token read.
    method AllocGathered(kind: NodeKind, ghost pos: nat, span: Span, ids: seq<NodeId>, payload: nat, flags: nat,
                         ghost p: Payload, ghost kids: seq<Tree>, ghost o: Sort, ghost a: State, ghost b: State)
      returns (n: NodeId)
      requires kind != Error && kind != DocComment && kind != StructLitExpr && Shaped(kind, p, kids)
      requires Stores(interner.strings, payload, p)
      requires KindFits(o, kind) && BodyFits(o, Tree(kind, span, p, flags, kids))
      requires Valid() && Grew(a, Now()) && Kept(Now(), |a.trees|, ids, kids)
      requires |b.errs| == |a.errs| && InOrder(inp.toks) ==> Row(inp, kids, StartOf(inp, pos), b.cur)
      requires |b.errs| <= |errors| && b.cur <= cursor
      requires |errors| == |a.errs| ==>
               |b.errs| == |a.errs| && span == Span(StartOf(inp, pos), EndOf(inp, cursor - 1)) && pos < cursor
      modifies pool, `literals
      ensures Made(a, o, n) && Placed(a, pos, n)
      ensures TreeOf(pool.trees, n) == Tree(kind, span, p, flags, kids)
    {
      n := AllocEnding(kind, pos, span, ids, payload, flags, p, kids, o, a, b, cursor);
    }

    /////////////////////////// fields, variants, parameters ///////////////////////////

    // A failed element: a diagnostic at one range and an error node over another.
    method FailAt(at: Span, id: DiagId, s: Span, ghost o: Sort, ghost a: State) returns (r: NodeId)
      requires Valid() && Grew(a, Now()) && KindFits(o, Error)
      modifies pool, `literals, `errors
      ensures Made(a, o, r) && Sited(a, r) && errors == old(errors) + [Diag(at, id)] && |a.errs| < |errors|
      ensures TreeOf(pool.trees, r) == Leaf(Error, s, Zero)
    {
      hide NodePool.Valid, StringInterner.Valid, NodesOk, Valid, Owned, Of, KindFits, Grew, Fresh, ErrorNodes;
      ghost var b := Now();
      GrewFacts(a, b);
      ErrorsCount(a, b);
      AddError(at, id);
      Moved(a, b, Now());
      r := MakeErrorNode(s, a);
      ErrorOf(o, TreeOf(pool.trees, r));
    }

    // The one child of a node that opens at the token `a` stood at.
    method AllocTyped(kind: NodeKind, start: nat, ty: NodeId, payload: nat, ghost p: Payload, ghost o: Sort,
                      ghost sx: Sort, ghost a: State,
                      ghost b: State) returns (r: NodeId)
      requires kind != DocComment && FitsOne(kind, p, o, sx) && Stores(interner.strings, payload, p)
      requires Grew(a, b) && Made(b, sx, ty)
      requires start == StartOf(inp, a.cur)
      requires |errors| == |a.errs| ==> a.cur < b.cur
      requires |errors| == |a.errs| && InOrder(inp.toks) ==> Inside(inp, TreeOf(pool.trees, ty), b.cur, cursor)
      modifies pool, `literals
      ensures Made(a, o, r) && Sited(a, r)
      ensures TreeOf(pool.trees, r) == Node(kind, start, Previous().span.end, p, [TreeOf(old(pool.trees), ty)])
    {
      hide NodePool.Valid, StringInterner.Valid, NodesOk, Made, Valid, Owned, Of, Grew, Fresh, FitsOne, Stores,
           Inside, InOrder;
      Unmake(b, sx, ty);
      FreshLater(a, b, Now(), ty);
      Remake(a, sx, ty);
      ghost var t := TreeOf(pool.trees, ty);
      r := AllocOne(kind, Span(start, Previous().span.end), ty, payload, p, o, sx, a);
      if |errors| == |a.errs| && InOrder(inp.toks) {
        OpenRow1(inp, a.cur, t, b.cur, cursor);
        WideNode(inp, kind, p, [t], a.cur, cursor, cursor, start);
      }
    }

    // A type, and the node over it that opened at the token `a` stood at.
    method ParseTyped(kind: NodeKind, start: nat, payload: nat, ghost p: Payload, ghost o: Sort, ghost sx: Sort,
                      ghost a: State)
      returns (r: NodeId, ghost x: Out)
      requires kind != DocComment && FitsOne(kind, p, o, sx) && Stores(interner.strings, payload, p)
      requires sx.NType? || sx.NBound?
      requires Valid() && Grew(a, Now()) && start == StartOf(inp, a.cur) && (|errors| == |a.errs| ==> a.cur < cursor)
      modifies this, pool, interner
      ensures Made(a, o, r) && Sited(a, r) && |old(errors)| <= |errors| && old(cursor) <= cursor
      ensures x == Out(|errors| == |old(errors)|, cursor, x.tree)
      ensures cursor <= |inp.toks| && TreeOf(pool.trees, r) == Node(kind, start, Previous().span.end, p, [x.tree])
      ensures x == TakeType(inp, old(cursor), a.sl)
      decreases |inp.toks| - cursor, 2
    {
      hide NodePool.Valid, StringInterner.Valid, NodesOk, Made, Valid, Owned, Of, Grew, Fresh, Stores, Sited,
           FitsOne, TakeType, RunType, Stands, Agrees;
      ghost var b := Now();
      GrewFacts(a, b);
      var ty := ParseType();
      CleanType(inp, b.cur, b.sl);
      TypeInside(b, ty);
      Unmake(b, NType, ty);
      GrewStrings(b, Now());
      StoresLater(b.strs, interner.strings, payload, p);
      SitedPlaced(b, ty);
      BoundFits(b, ty, sx);
      x := Got(b, ty);
      r := AllocTyped(kind, start, ty, payload, p, o, sx, a, b);
      Unmake(a, o, r);
    }

    lemma BoundFits(b: State, ty: NodeId, sx: Sort)
      requires Made(b, NType, ty) && (sx.NType? || sx.NBound?)
      ensures Made(b, sx, ty)
    {
      hide Made;
      if sx.NBound? { Sorts(b, NType, NBound, ty); }
    }

    // A clean call of the type parser built a type inside its tokens.
    lemma TypeInside(a: State, r: NodeId)
      requires Agrees(inp, a.cur, Got(a, r), RunType(inp, a.cur, a.sl))
      ensures Sited(a, r)
    {
      hide RunType, InOrder, Inside, Stands, RunElem;
      ElemCases(inp, a.cur, a.sl);
      if |errors| == |a.errs| && InOrder(inp.toks) { ElemInside(inp, a.cur, CType, a.sl, Got(a, r)); }
    }

    lemma ExprInside(a: State, r: NodeId)
      requires Agrees(inp, a.cur, Got(a, r), RunExpr(inp, a.cur, 0, a.sl))
      ensures Sited(a, r)
    {
      hide RunExpr, InOrder, Inside, Stands, RunElem;
      ElemCases(inp, a.cur, a.sl);
      if |errors| == |a.errs| && InOrder(inp.toks) { ElemInside(inp, a.cur, CExpr, a.sl, Got(a, r)); }
    }

    // `[regime] name : type`.
    method ParseStructField() returns (r: NodeId)
      requires Valid()
      modifies this, pool, interner
      ensures Made(old(Now()), NField, r) && Sited(old(Now()), r)
      ensures Says(Got(old(Now()), r), ReadField(inp, old(cursor), old(structLitAllowed)))
      ensures Got(old(Now()), r) == TakeField(inp, old(cursor), old(structLitAllowed))
      decreases |inp.toks| - cursor, 3
    {
      hide NodePool.Valid, StringInterner.Valid, NodesOk, Made, Valid, Owned, Of, Grew, Fresh, Stores, ErrorNodes,
           TextOf, Sited, ReadField, MakePayload, FitsOne, Says, MakePayload, TakeType, RunType, Stands, Agrees;
      InBounds();
      CleanField(inp, cursor, structLitAllowed);
      ghost var a := Now();
      var startPos := PeekToken().span.start;
      var regime := ParseRegime();
      if !Check(Identifier) {
        var s := PeekToken().span;
        Started(a, Now());
        r := FailAt(s, ExpectedName, Span(startPos, s.end), NField, a);
        return;
      }
      var tok := Advance();
      var name := Intern(Text(tok.span));
      var colon := Consume(Colon);
      if !colon {
        if !Check(Identifier) {
          Started(a, Now());
          r := FailAt(PeekToken().span, ExpectedColon, Span(startPos, Previous().span.end), NField, a);
          return;
        }
        AddError(PeekToken().span, ExpectedColon);
      }
      Started(a, Now());
      StoresNameRegime(interner.strings, name, regime);
      ghost var x;
      ParamFits(Text(tok.span), regime);
      r, x := ParseTyped(StructField, startPos, MakePayload(name, regime), NameRegime(Text(tok.span), regime), NField,
                         NType, a);
    }

    lemma SitedPlaced(b: State, r: NodeId)
      requires Sited(b, r)
      ensures |errors| == |b.errs| && InOrder(inp.toks) ==> Inside(inp, TreeOf(pool.trees, r), b.cur, cursor)
    {
    }

    // `name`, `name = value`, `name ( types )` or `name { fields }`.
    method ParseEnumVariant() returns (r: NodeId)
      requires Valid()
      modifies this, pool, interner
      ensures Made(old(Now()), NVariant, r) && Sited(old(Now()), r)
      ensures Says(Got(old(Now()), r), ReadVariant(inp, old(cursor), old(structLitAllowed)))
      ensures Got(old(Now()), r) == TakeVariant(inp, old(cursor), old(structLitAllowed))
      decreases |inp.toks| - cursor, 0
    {
      hide NodePool.Valid, StringInterner.Valid, NodesOk, Made, Valid, Owned, Of, Grew, Fresh, Stores, ErrorNodes,
           TextOf, Sited, ReadVariant, TakeComma, TakeExpr, RunExpr, Stands, Agrees;
      InBounds();
      CleanVariant(inp, cursor, structLitAllowed);
      ghost var a := Now();
      var startPos := PeekToken().span.start;
      if !Check(Identifier) {
        var s := PeekToken().span;
        Started(a, Now());
        r := FailAt(s, ExpectedName, s, NVariant, a);
        return;
      }
      var tok := Advance();
      var name := Intern(Text(tok.span));
      ghost var b0, text := Now(), Text(tok.span);
      Started(a, b0);
      if Check(LParen) {
        r := ParseVariantBody(EnumVariantTuple, LParen, RParen, AType, startPos, name, a);
      } else if Check(LBrace) {
        r := ParseVariantBody(EnumVariantStruct, LBrace, RBrace, AField, startPos, name, a);
      } else if Check(Eq) {
        r := ParseVariantValue(startPos, name, a);
      } else {
        StoresNameRegime(interner.strings, name, NoRegime);
        r := AllocLeaf(EnumVariantUnit, Span(startPos, Previous().span.end), MakePayload(name, NoRegime),
                       NameRegime(text, NoRegime), NVariant, a);
        UnitInside(a, r, NameRegime(text, NoRegime));
      }
    }

    // A variant with a value, behind its name.
    method ParseVariantValue(startPos: nat, name: Id, ghost a: State) returns (r: NodeId)
      requires Valid() && Grew(a, Now()) && Check(Eq) && cursor == a.cur + 1 && |errors| == |a.errs|
      requires startPos == StartOf(inp, a.cur)
      requires name < |interner.strings| && KindAt(inp, a.cur) == Identifier
      requires interner.strings[name] == TokText(inp, a.cur)
      modifies this, pool, interner
      ensures Made(a, NVariant, r) && Sited(a, r)
      ensures Got(a, r) == TakeVariant(inp, a.cur, a.sl)
      decreases |inp.toks| - cursor, 0
    {
      hide NodePool.Valid, StringInterner.Valid, NodesOk, Made, Valid, Owned, Of, Grew, Fresh, Stores, TextOf,
           Sited, TakeComma, TakeExpr, RunExpr, Stands, Agrees, ReadVariant;
      ghost var top, text := Now(), interner.strings[name];
      var _ := Advance();
      ghost var b := Now();
      Moved(a, top, b);
      var value := ParseConstExpr(0);
      ExprInside(b, value);
      Unmake(b, NExpr, value);
      GrewStrings(b, Now());
      StoresNameRegime(interner.strings, name, NoRegime);
      SitedPlaced(b, value);
      r := AllocTyped(EnumVariantUnit, startPos, value, MakePayload(name, NoRegime), NameRegime(text, NoRegime),
                      NVariant, NExpr, a, b);
    }

    lemma UnitInside(a: State, r: NodeId, p: Payload)
      requires a.cur + 1 == cursor <= |inp.toks|
      requires TreeOf(pool.trees, r) == Leaf(EnumVariantUnit, Span(StartOf(inp, a.cur), EndOf(inp, a.cur)), p)
      ensures Sited(a, r)
    {
      hide Inside, InOrder;
      if InOrder(inp.toks) { LeafInside(inp, EnumVariantUnit, p, a.cur, cursor, cursor); }
    }

    // A variant with types or fields, behind its name.
    method ParseVariantBody(kind: NodeKind, open: Kind, close: Kind, e: Elem, startPos: nat, name: Id, ghost a: State)
      returns (r: NodeId)
      requires Valid() && Grew(a, Now()) && Check(open) && cursor == a.cur + 1 && |errors| == |a.errs|
      requires startPos == StartOf(inp, a.cur)
      requires name < |interner.strings| && close == CloseOf(e) && KindAt(inp, a.cur) == Identifier
      requires interner.strings[name] == TokText(inp, a.cur)
      requires (kind == EnumVariantTuple && e == AType && open == LParen)
               || (kind == EnumVariantStruct && e == AField && open == LBrace)
      modifies this, pool, interner
      ensures Made(a, NVariant, r) && Sited(a, r)
      ensures Got(a, r) == TakeVariant(inp, a.cur, a.sl)
      decreases |inp.toks| - cursor, 0
    {
      hide NodePool.Valid, StringInterner.Valid, NodesOk, Made, Valid, Gathered, Owned, Of, Grew, Fresh, Kept,
           AllOf, Stores, Row, InOrder, Inside, Shaped, Sited, TextOf, TreeOf, TakeComma, TakeExpr, Stands,
           RunComma, ItemsFound, ReadVariant;
      ghost var top, text := Now(), interner.strings[name];
      GrewFacts(a, top);
      var _ := Consume(open);
      Moved(a, top, Now());
      GatherNone(a, a.cur);
      Ungather(a, [], [], startPos);
      var ids, end;
      ghost var l;
      ids, end, l := ParseEnclosed(close, e, ExpectedClose, a, startPos);
      StoresNameRegime(interner.strings, name, NoRegime);
      ShapeMany(kind, NameRegime(text, NoRegime), SortOf(e), l.trees);
      r := AllocGathered(kind, a.cur, Span(startPos, end.span.end), ids, MakePayload(name, NoRegime), 0,
                         NameRegime(text, NoRegime), l.trees, NVariant, a, Now().(cur := l.end));
      PlacedSited(a, r);
    }

    lemma PlacedSited(a: State, r: NodeId)
      requires Placed(a, a.cur, r)
      ensures Sited(a, r)
    {
    }

    // `name` or `name : bound`; an unbounded parameter has the null child.
    method ParseGenericParam() returns (r: NodeId)
      requires Valid()
      modifies this, pool, interner
      ensures Made(old(Now()), NGeneric, r) && Sited(old(Now()), r)
      ensures Says(Got(old(Now()), r), ReadGeneric(inp, old(cursor), old(structLitAllowed)))
      ensures Got(old(Now()), r) == TakeGeneric(inp, old(cursor), old(structLitAllowed))
      decreases |inp.toks| - cursor, 3
    {
      hide NodePool.Valid, StringInterner.Valid, NodesOk, Made, Valid, Gathered, Owned, Of, Grew, Fresh, Kept,
           Stores, ErrorNodes, TextOf, Sited, Shaped, InOrder, Row, Inside, ReadGeneric, FitsOne, Says, MakePayload,
           TakeType, RunType, Stands, Agrees;
      InBounds();
      CleanGeneric(inp, cursor, structLitAllowed);
      ghost var a := Now();
      var startPos := PeekToken().span.start;
      if !Check(Identifier) {
        Started(a, Now());
        r := FailAt(PeekToken().span, ExpectedTypeParam, PeekToken().span, NGeneric, a);
        return;
      }
      var tok := Advance();
      var name := Intern(Text(tok.span));
      var colon := Consume(Colon);
      ghost var b := Now();
      Started(a, b);
      if colon {
        StoresName(interner.strings, interner.strings, name);
        ghost var x;
        ParamFits(Text(tok.span), NoRegime);
        r, x := ParseTyped(GenericParam, startPos, name, Name(Text(tok.span)), NGeneric, NBound, a);
      } else {
        r := ParseFreeGeneric(startPos, name, a);
      }
    }

    // An unbounded parameter, behind its name.
    method ParseFreeGeneric(startPos: nat, name: Id, ghost a: State) returns (r: NodeId)
      requires Valid() && Grew(a, Now()) && cursor == a.cur + 1 && |errors| == |a.errs|
      requires startPos == StartOf(inp, a.cur)
      requires KindAt(inp, a.cur) == Identifier && KindAt(inp, cursor) != Colon
      requires name < |interner.strings| && interner.strings[name] == TokText(inp, a.cur)
      modifies pool, `literals
      ensures Made(a, NGeneric, r) && Sited(a, r)
      ensures Got(a, r) == TakeGeneric(inp, a.cur, a.sl)
    {
      hide NodePool.Valid, StringInterner.Valid, NodesOk, Made, Valid, Gathered, Owned, Of, Grew, Fresh, Kept,
           Stores, TokText, Shaped, InOrder, Row, Inside, Sited, TakeType, ReadGeneric, Says;
      ghost var b, text := Now(), interner.strings[name];
      GatherNone(a, a.cur);
      GatherNull(a, [], [], startPos);
      assert [] + [NullNode] == [NullNode] && [] + [NullTree] == [NullTree];
      Ungather(a, [NullNode], [NullTree], startPos);
      StoresName(interner.strings, interner.strings, name);
      NullBound();
      ShapeOne(GenericParam, Name(text), NBound, NullTree);
      r := AllocGathered(GenericParam, a.cur, Span(startPos, Previous().span.end), [NullNode], name, 0, Name(text),
                         [NullTree], NGeneric, a, b);
      PlacedSited(a, r);
      Unmake(a, NGeneric, r);
    }

    /** `< parameters >`, or nothing at all. */
    method ParseGenericParams() returns (r: NodeId)
      requires Valid()
      modifies this, pool, interner
      ensures r == NullNode ==> Valid() && Now() == old(Now()) && KindAt(inp, old(cursor)) != Less
      ensures r != NullNode ==> Made(old(Now()), NGenerics, r) && Sited(old(Now()), r) && old(cursor) < cursor
      ensures TakeGens(inp, old(cursor), old(structLitAllowed)) == if r == NullNode then None(cursor)
              else OneOut(Got(old(Now()), r))
      decreases |inp.toks| - cursor, 8
    {
      hide NodePool.Valid, StringInterner.Valid, NodesOk, Made, Valid, Gathered, Owned, Of, Grew, Fresh, Kept,
           AllOf, Stores, Sited, Shaped, InOrder, Row, Inside, TakeListed, ReadGenerics, ReadItems, SaysAll;
      if !Check(Less) { return NullNode; }
      ghost var a := Now();
      var start := Advance();
      ghost var b := Now();
      Started(a, b);
      GatherNone(a, a.cur);
      var ids;
      ghost var kids;
      ids, kids := ParseListed(DGeneric, start.span.start, a);
      Ungather(a, ids, kids, start.span.start);
      ghost var c := Now();
      var end := Expect(Greater, ExpectedGreaterThan);
      GatherMoved(a, c, ids, kids, start.span.start);
      Ungather(a, ids, kids, start.span.start);
      StoresZero(interner.strings);
      ShapeMany(GenericParamList, Zero, NGeneric, kids);
      r := AllocGathered(GenericParamList, a.cur, Span(start.span.start, end.span.end), ids, 0, 0, Zero, kids,
                         NGenerics, a, c);
      PlacedSited(a, r);
      Unmake(a, NGenerics, r);
    }

    // The items of a list in angle brackets or parentheses, up to what closes it. Generic parameters
    // may have a comma behind the last.
    method ParseListed(e: DeclItem, ghost from: nat, ghost a: State) returns (ids: seq<NodeId>, ghost kids: seq<Tree>)
      requires (e.DGeneric? || e.DParam?) && Gathered(a, [], [], from)
      modifies this, pool, interner
      ensures Gathered(a, ids, kids, from) && AllOf(SortIn(e), kids) && old(cursor) <= cursor
      ensures |old(errors)| <= |errors|
      ensures ListOut(|errors| == |old(errors)|, cursor, kids) == TakeListed(inp, old(cursor), e, a.sl)
      decreases |inp.toks| - cursor, 7
    {
      hide NodePool.Valid, StringInterner.Valid, NodesOk, Made, Valid, Gathered, Owned, Of, Grew, Fresh, Kept,
           AllOf, Sited, InOrder, Row, Inside, SortIn, TakeItem, TakeListedMore, SaysAll, ReadItems, ReadMore,
           ReadOne;
      NoneOf(SortIn(e));
      if Check(Closer(e)) {
        return [], [];
      }
      Ungather(a, [], [], from);
      ghost var b := Now();
      var first := ParseListItem(e);
      ghost var x, n := Got(b, first), |errors|;
      Unmake(b, SortIn(e), first);
      ids, kids := GatherStep(a, b, [], [], from, SortIn(e), first);
      assert [] + [x.tree] == [x.tree];
      ghost var more;
      ids, more := ParseListedMore(e, ids, kids, from, a);
      kids := kids + more;
    }

    method ParseListedMore(e: DeclItem, gathered: seq<NodeId>, ghost kids: seq<Tree>, ghost from: nat, ghost a: State)
      returns (ids: seq<NodeId>, ghost more: seq<Tree>)
      requires (e.DGeneric? || e.DParam?) && Gathered(a, gathered, kids, from) && AllOf(SortIn(e), kids)
      modifies this, pool, interner
      ensures Gathered(a, ids, kids + more, from) && AllOf(SortIn(e), kids + more) && old(cursor) <= cursor
      ensures |old(errors)| <= |errors|
      ensures ListOut(|errors| == |old(errors)|, cursor, more) == TakeListedMore(inp, old(cursor), e, a.sl)
      decreases |inp.toks| - cursor, 6
    {
      hide NodePool.Valid, StringInterner.Valid, NodesOk, Made, Valid, Gathered, Owned, Of, Grew, Fresh, Kept,
           AllOf, Sited, InOrder, Row, Inside, SortIn, TakeItem, TakeListedMore, ListedTaken, Says, SaysAll,
           ReadMore, ReadOne;
      ghost var p0, n := cursor, |errors|;
      ids, more := gathered, [];
      assert kids + [] == kids;
      Ungather(a, gathered, kids, from);
      ListedTakenStart(inp, p0, e, a.sl);
      while Check(Comma)
        invariant Gathered(a, ids, kids + more, from) && AllOf(SortIn(e), kids + more) && p0 <= cursor && n <= |errors|
        invariant ListedTaken(inp, p0, e, a.sl, ListOut(|errors| == n, cursor, more))
        decreases |inp.toks| - cursor
      {
        Ungather(a, ids, kids + more, from);
        ghost var c, o := Now(), ListOut(|errors| == n, cursor, more);
        var _ := Advance();
        GatherMoved(a, c, ids, kids + more, from);
        if e.DGeneric? && Check(Greater) {
          ListedTakenExit(inp, p0, e, a.sl, o);
          return;
        }
        Ungather(a, ids, kids + more, from);
        ghost var d := Now();
        var next := ParseListItem(e);
        ghost var x := Got(d, next);
        Unmake(d, SortIn(e), next);
        ListedTakenStep(inp, p0, e, a.sl, o, x);
        ghost var all;
        ids, all := GatherStep(a, d, ids, kids + more, from, SortIn(e), next);
        assert (kids + more) + [x.tree] == kids + (more + [x.tree]);
        more := more + [x.tree];
      }
      ListedTakenExit(inp, p0, e, a.sl, ListOut(|errors| == n, cursor, more));
    }

    method ParseListItem(e: DeclItem) returns (r: NodeId)
      requires Valid() && (e.DGeneric? || e.DParam?)
      modifies this, pool, interner
      ensures Made(old(Now()), SortIn(e), r) && Sited(old(Now()), r)
      ensures Got(old(Now()), r) == TakeItem(inp, old(cursor), e, old(structLitAllowed))
      decreases |inp.toks| - cursor, 5
    {
      hide NodePool.Valid, StringInterner.Valid, NodesOk, Made, Valid, Sited, TakeGeneric, TakeParam, Says,
           ReadGeneric, ReadParam, ReadOne;
      if e.DGeneric? { r := ParseGenericParam(); } else { r := ParseParam(); }
    }

    // One more child of a list of nodes of one sort.
    method GatherStep(ghost a: State, ghost b: State, ids: seq<NodeId>, ghost kids: seq<Tree>, ghost from: nat,
                      ghost s: Sort, r: NodeId)
      returns (out: seq<NodeId>, ghost outKids: seq<Tree>)
      requires Grew(a, b) && Kept(b, |a.trees|, ids, kids) && AllOf(s, kids)
      requires |b.errs| == |a.errs| && InOrder(inp.toks) ==> Row(inp, kids, from, b.cur)
      requires Made(b, s, r) && Sited(b, r)
      ensures Gathered(a, out, outKids, from) && AllOf(s, outKids) && b.cur <= cursor <= |inp.toks|
      ensures outKids == kids + [TreeOf(pool.trees, r)] && out == ids + [r]
    {
      hide Gathered, Grew, Fresh, Kept, Of, Row, InOrder, Inside, Owned;
      Gather(a, b, ids, kids, from, s, r);
      GrewFacts(b, Now());
      out := ids + [r];
      outKids := kids + [TreeOf(pool.trees, r)];
    }

    // `[regime] name : type`; `self` in front of a comma or the closing parenthesis stands for
    // `self : Self`.
    method ParseParam() returns (r: NodeId)
      requires Valid()
      modifies this, pool, interner
      ensures Made(old(Now()), NParam, r) && Sited(old(Now()), r)
      ensures Says(Got(old(Now()), r), ReadParam(inp, old(cursor), old(structLitAllowed)))
      ensures Got(old(Now()), r) == TakeParam(inp, old(cursor), old(structLitAllowed))
      decreases |inp.toks| - cursor, 3
    {
      hide NodePool.Valid, StringInterner.Valid, NodesOk, Made, Valid, Owned, Of, Grew, Fresh, Stores, TextOf,
           Sited, ReadParam, Says, Extends, MakePayload, FitsOne, TakeType, RunType, Stands, Agrees;
      InBounds();
      CleanParam(inp, cursor, structLitAllowed);
      ghost var a := Now();
      var startPos := PeekToken().span.start;
      var regime := ParseRegime();
      var name := ExpectName(Identifier);
      ghost var text := interner.strings[name];
      Started(a, Now());
      var isSelfParam := interner.Get(name) == "self" && !Check(Colon) && (Check(RParen) || Check(Comma));
      if isSelfParam {
        r := ParseSelfParam(startPos, name, regime, a);
        return;
      }
      r := ParseTypedParam(startPos, name, regime, a);
    }

    // A parameter behind its name that is no `self` of its own.
    method ParseTypedParam(startPos: nat, name: Id, regime: Regime, ghost a: State) returns (r: NodeId)
      requires var n := AfterRegime(inp, a.cur);
               && Valid() && Grew(a, Now()) && a.cur <= cursor && startPos == StartOf(inp, a.cur)
               && regime == RegimeOf(KindAt(inp, a.cur))
               && name < |interner.strings| && interner.strings[name] == TokText(inp, n)
               && (|errors| == |a.errs|) == (KindAt(inp, n) == Identifier) && cursor == Past(inp, n, Identifier)
               && !(TokText(inp, n) == "self" && (Peek() == RParen || Peek() == Comma))
               && (KindAt(inp, n) == Identifier ==> cursor == n + 1 && !IsSelfParam(inp, n))
      modifies this, pool, interner
      ensures Made(a, NParam, r) && Sited(a, r)
      ensures Got(a, r) == TakeParam(inp, a.cur, a.sl)
      decreases |inp.toks| - cursor, 3
    {
      hide NodePool.Valid, StringInterner.Valid, NodesOk, Made, Valid, Owned, Of, Grew, Fresh, Stores, TextOf,
           Sited, Extends, MakePayload, FitsOne, IsSelfParam, TakeType, RunType, Stands, Agrees, ReadParam, Says;
      ghost var text, b := interner.strings[name], Now();
      GrewFacts(a, b);
      var _ := Expect(Colon, ExpectedColon);
      Moved(a, b, Now());
      StoresNameRegime(interner.strings, name, regime);
      ghost var x;
      ParamFits(text, regime);
      r, x := ParseTyped(Param, startPos, MakePayload(name, regime), NameRegime(text, regime), NParam, NType, a);
    }

    // The parameter `self` without a type: its type node is made up.
    method ParseSelfParam(startPos: nat, name: Id, regime: Regime, ghost a: State) returns (r: NodeId)
      requires Valid() && Grew(a, Now()) && name < |interner.strings| && startPos == StartOf(inp, a.cur)
      requires |errors| == |a.errs| ==> a.cur < cursor
      modifies this, pool, interner
      ensures Made(a, NParam, r) && Sited(a, r) && cursor == old(cursor) <= |inp.toks| && errors == old(errors)
      ensures TreeOf(pool.trees, r)
              == Node(Param, startPos, Previous().span.end, NameRegime(old(interner.strings)[name], regime),
                                            [Leaf(NamedType, Previous().span, Name("Self"))])
    {
      hide NodePool.Valid, StringInterner.Valid, NodesOk, Made, Valid, Owned, Of, Grew, Fresh, Stores, Sited,
           InOrder, Inside;
      ghost var top, text := Now(), interner.strings[name];
      InBounds();
      var selfSpan := Previous().span;
      var selfId := Intern("Self");
      Moved(a, top, Now());
      StoresName(interner.strings, interner.strings, selfId);
      var ty := AllocLeaf(NamedType, selfSpan, selfId, Name("Self"), NType, a);
      Unmake(a, NType, ty);
      ghost var t := TreeOf(pool.trees, ty);
      StoresNameRegime(interner.strings, name, regime);
      r := AllocOne(Param, Span(startPos, Previous().span.end), ty, MakePayload(name, regime), NameRegime(text, regime),
                    NParam, NType, a);
      if |errors| == |a.errs| && InOrder(inp.toks) { SelfInside(a.cur, t, NameRegime(text, regime)); }
      SitedIntro(a, r);
    }

    lemma SelfInside(pos: nat, t: Tree, p: Payload)
      requires InOrder(inp.toks) && pos < cursor <= |inp.toks|
      requires t == Leaf(NamedType, TokenAt(inp, cursor - 1).span, Name("Self"))
      ensures Inside(inp, Node(Param, StartOf(inp, pos), EndOf(inp, cursor - 1), p, [t]), pos, cursor)
    {
      hide InOrder, Nested, Chain;
      LeafInside(inp, NamedType, Name("Self"), cursor - 1, cursor, cursor);
      RowFirst(inp, t, cursor - 1, cursor);
      TokenOrder(inp, pos, cursor - 1);
      RowLower(inp, [t], StartOf(inp, cursor - 1), StartOf(inp, pos), cursor);
      WideNode(inp, Param, p, [t], pos, cursor, cursor, StartOf(inp, pos));
    }

    lemma SitedIntro(a: State, r: NodeId)
      requires |errors| == |a.errs| && InOrder(inp.toks) ==> Inside(inp, TreeOf(pool.trees, r), a.cur, cursor)
      ensures Sited(a, r)
    {
    }

    method ParseParamList() returns (r: NodeId)
      requires Valid()
      modifies this, pool, interner
      ensures Made(old(Now()), NParams, r) && Sited(old(Now()), r)
      ensures Says(Got(old(Now()), r), ReadParams(inp, old(cursor), old(structLitAllowed)))
      ensures Got(old(Now()), r) == TakeParams(inp, old(cursor), old(structLitAllowed))
      decreases |inp.toks| - cursor, 8
    {
      hide NodePool.Valid, StringInterner.Valid, NodesOk, Made, Valid, Gathered, Owned, Of, Grew, Fresh, Kept,
           AllOf, Stores, Sited, Shaped, InOrder, Row, Inside, ReadParams, Says, TakeListed, ReadItems, SaysAll;
      InBounds();
      CleanParams(inp, cursor, structLitAllowed);
      ghost var a := Now();
      var start := Expect(LParen, ExpectedOpen);
      ghost var b, from := Now(), StartOf(inp, a.cur);
      Started(a, b);
      GatherNone(a, a.cur);
      var ids;
      ghost var kids;
      ids, kids := ParseListed(DParam, from, a);
      Ungather(a, ids, kids, from);
      ghost var c := Now();
      var end := Expect(RParen, ExpectedClose);
      GatherMoved(a, c, ids, kids, from);
      Ungather(a, ids, kids, from);
      StoresZero(interner.strings);
      ShapeMany(ParamList, Zero, NParam, kids);
      r := AllocGathered(ParamList, a.cur, Span(start.span.start, end.span.end), ids, 0, 0, Zero, kids, NParams, a, c);
      PlacedSited(a, r);
    }

    /////////////////////////// declarations ///////////////////////////

    // Documentation read since state `a`.
    ghost predicate Documents(a: State, docs: seq<NodeId>, dt: seq<Tree>)
      reads this, pool, interner
    {
      Valid() && Grew(a, Now()) && Kept(Now(), |a.trees|, docs, dt) && AllOf(NDoc, dt)
        && (InOrder(inp.toks) ==> AllNested(dt))
    }

    method ParseDocComments() returns (docs: seq<NodeId>, ghost dt: seq<Tree>)
      requires Valid()
      modifies this, pool, interner
      ensures Documents(old(Now()), docs, dt) && errors == old(errors) && !Check(DocCommentTok)
      ensures KindAt(inp, old(cursor)) != DocCommentTok ==> cursor == old(cursor)
      ensures KindAt(inp, old(cursor)) == DocCommentTok ==> old(cursor) < cursor
      ensures cursor == DocEnd(inp, old(cursor), DocCommentTok)
      ensures dt == DocTrees(inp, old(cursor), DocCommentTok, DocComment)
    {
      hide NodePool.Valid, StringInterner.Valid, NodesOk, Made, Valid, Owned, Of, Grew, Fresh, Kept, AllOf, InOrder,
           TokText, DocEnd, DocTrees;
      ghost var a := Now();
      docs, dt := [], [];
      KeptNone(a, |a.trees|);
      Started(a, a);
      NoneOf(NDoc);
      while Check(DocCommentTok)
        invariant Valid() && Grew(a, Now()) && Kept(Now(), |a.trees|, docs, dt) && AllOf(NDoc, dt)
        invariant InOrder(inp.toks) ==> AllNested(dt)
        invariant errors == a.errs && a.cur <= cursor && structLitAllowed == a.sl && |a.trees| <= |pool.trees|
        invariant KindAt(inp, a.cur) != DocCommentTok ==> cursor == a.cur
        invariant KindAt(inp, a.cur) == DocCommentTok && cursor == a.cur ==> dt == []
        invariant DocEnd(inp, a.cur, DocCommentTok) == DocEnd(inp, cursor, DocCommentTok)
        invariant DocTrees(inp, a.cur, DocCommentTok, DocComment)
                  == dt + DocTrees(inp, cursor, DocCommentTok, DocComment)
        decreases |inp.toks| - cursor
      {
        ghost var p, dt0 := cursor, dt;
        InBounds();
        docs, dt := ParseDoc(DocComment, docs, dt, NDoc, a);
        if InOrder(inp.toks) { DocNested(p, dt[|dt0|], dt0); }
        DocStep(inp, p, DocCommentTok, DocComment);
      }
      DocStop(inp, cursor, DocCommentTok, DocComment);
    }

    // One documentation comment more.
    method ParseDoc(node: NodeKind, docs: seq<NodeId>, ghost dt: seq<Tree>, ghost o: Sort, ghost a: State)
      returns (out: seq<NodeId>, ghost outDt: seq<Tree>)
      requires Valid() && Grew(a, Now()) && Kept(Now(), |a.trees|, docs, dt) && AllOf(o, dt) && cursor < |inp.toks|
      requires |a.trees| <= |pool.trees|
      requires (node == DocComment && o == NDoc) || (node == FileDocComment && o == NFileDoc)
      modifies `cursor, `literals, pool, interner
      ensures Valid() && Grew(a, Now()) && Kept(Now(), |a.trees|, out, outDt) && AllOf(o, outDt)
      ensures cursor == old(cursor) + 1 && |old(pool.trees)| <= |pool.trees|
      ensures outDt == dt + [Leaf(node, TokenAt(inp, old(cursor)).span, Name(TokText(inp, old(cursor))))]
    {
      hide NodePool.Valid, StringInterner.Valid, NodesOk, Made, Valid, Owned, Of, Grew, Fresh, Kept, AllOf, Stores,
           TextOf;
      ghost var b0 := Now();
      var tok := Advance();
      var text := Intern(Text(tok.span));
      ghost var b := Now();
      Moved(a, b0, b);
      KeptMoved(b0, b, |a.trees|, docs, dt);
      Started(b, b);
      StoresName(interner.strings, interner.strings, text);
      var d := AllocLeaf(node, tok.span, text, Name(Text(tok.span)), o, b);
      Unmake(b, o, d);
      GrewTrans(a, b, Now());
      KeptPush(b, Now(), |a.trees|, docs, dt, d);
      AllOfSnoc(o, dt, TreeOf(pool.trees, d));
      out, outDt := docs + [d], dt + [TreeOf(pool.trees, d)];
    }

    lemma DocNested(pos: nat, t: Tree, dt: seq<Tree>)
      requires InOrder(inp.toks) && pos < |inp.toks| && t.Tree? && t.kids == [] && t.span == TokenAt(inp, pos).span
      requires AllNested(dt)
      ensures AllNested(dt + [t])
    {
      TokenOrder(inp, pos, pos);
    }

    // Opening a declaration: its keyword, and the name behind it.
    method ParseOpening(k: Kind) returns (start: nat, name: Id)
      requires Valid() && Check(k) && k != Eof
      modifies `cursor, `errors, interner
      ensures Valid() && Extends(old(interner.strings), interner.strings) && Older(old(errors), errors)
      ensures name < |interner.strings|
      ensures start == StartOf(inp, old(cursor)) && old(cursor) < cursor
      ensures (|errors| == |old(errors)|) == (KindAt(inp, old(cursor) + 1) == Identifier)
      ensures |errors| == |old(errors)| ==>
              cursor == old(cursor) + 2 && interner.strings[name] == TokText(inp, old(cursor) + 1)
      ensures cursor == Past(inp, old(cursor) + 1, Identifier)
              && interner.strings[name] == TokText(inp, old(cursor) + 1)
    {
      hide TextOf;
      var tok := Expect(k, ExpectedKeyword);
      start := tok.span.start;
      name := ExpectName(Identifier);
    }

    // Optional generic parameters, gathered.
    method GatherGenerics(ids: seq<NodeId>, ghost kids: seq<Tree>, ghost from: nat, ghost a: State)
      returns (out: seq<NodeId>, ghost gens: seq<Tree>)
      requires Gathered(a, ids, kids, from)
      modifies this, pool, interner
      ensures Gathered(a, out, kids + gens, from) && |gens| <= 1 && AllOf(NGenerics, gens) && old(cursor) <= cursor
      ensures Extends(old(interner.strings), interner.strings) && |old(errors)| <= |errors|
      ensures ListOut(|errors| == |old(errors)|, cursor, gens) == TakeGens(inp, old(cursor), a.sl)
      decreases |inp.toks| - cursor, 9
    {
      hide NodePool.Valid, StringInterner.Valid, NodesOk, Made, Valid, Gathered, Owned, Of, Grew, Fresh, Kept,
           AllOf, Sited, InOrder, Row, TakeGens, ReadGenerics, SaysAll;
      Ungather(a, ids, kids, from);
      ghost var b := Now();
      var g := ParseGenericParams();
      if g == NullNode {
        NoneOf(NGenerics);
        assert kids + [] == kids;
        out, gens := ids, [];
        GatherMoved(a, b, ids, kids, from);
      } else {
        Unmake(b, NGenerics, g);
        GrewStrings(b, Now());
        Gather(a, b, ids, kids, from, NGenerics, g);
        out, gens := ids + [g], [TreeOf(pool.trees, g)];
        NoneOf(NGenerics);
        AllOfCons(NGenerics, TreeOf(pool.trees, g), []);
        assert [TreeOf(pool.trees, g)] + [] == gens;
      }
    }

    /** A struct, a union or an enum: keyword, name, generics, members in braces. The source has one
        method for each. */
    method ParseMembersDecl(keyword: Kind, kind: NodeKind, e: Elem, docs: seq<NodeId>, flags: nat, ghost dt: seq<Tree>,
                            ghost a: State)
      returns (r: NodeId)
      requires Documents(a, docs, dt) && Check(keyword)
      requires (keyword == KwStruct && kind == StructDecl && e == AField)
               || (keyword == KwUnion && kind == UnionDecl && e == AField)
               || (keyword == KwEnum && kind == EnumDecl && e == AVariant)
      modifies this, pool, interner
      ensures Made(a, NDecl, r) && Placed(a, old(cursor), r) && old(cursor) < cursor
      ensures Says(Since(|old(errors)|, r), ReadNamed(inp, old(cursor), flags, dt, a.sl))
      ensures Since(|old(errors)|, r) == TakeNamed(inp, old(cursor), kind, InnerOf(e), flags, dt, a.sl)
      ensures |old(errors)| <= |errors|
      decreases |inp.toks| - cursor, 11
    {
      hide NodePool.Valid, StringInterner.Valid, NodesOk, Made, Valid, Added, Gathered, Owned, Of, Grew, Fresh,
           Kept, AllOf, Stores, Sited, Shaped, InOrder, Row, Inside, Placed, AllNested, ReadNamed, Says, TextOf,
           TakeGens, TakeInner, TakeBraces, ReadGenerics, SaysAll, Braced, ReadInner;
      Undocument(a, docs, dt);
      CleanNamed(inp, cursor, kind, InnerOf(e), flags, dt, a.sl);
      ghost var top := Now();
      GrewFacts(a, top);
      var start, name := ParseOpening(keyword);
      ghost var text := interner.strings[name];
      Moved(a, top, Now());
      KeptMoved(top, Now(), |a.trees|, docs, dt);
      GatherDocs(a, docs, dt, top.cur);
      ghost var s0 := interner.strings;
      ghost var n0 := |errors|;
      var ids;
      ghost var gens;
      ids, gens := GatherGenerics(docs, dt, start, a);
      Ungather(a, ids, dt + gens, start);
      StringsStay(s0, interner.strings, name);
      ghost var g, n1 := ListOut(|errors| == n0, cursor, gens), |errors|;
      r := ParseMembers(kind, e, ids, flags, start, name, dt, gens, a, top.cur);
    }

    // The opening brace of a declaration, behind what is gathered of it.
    method OpenBraces(ghost a: State, ghost ids: seq<NodeId>, ghost kids: seq<Tree>, ghost from: nat)
      requires Gathered(a, ids, kids, from)
      modifies `cursor, `errors
      ensures Gathered(a, ids, kids, from)
      ensures KindAt(inp, old(cursor)) == LBrace ==> cursor == old(cursor) + 1 && errors == old(errors)
      ensures KindAt(inp, old(cursor)) != LBrace ==> cursor == old(cursor) && |errors| == |old(errors)| + 1
      ensures cursor == Past(inp, old(cursor), LBrace)
    {
      hide NodePool.Valid, StringInterner.Valid, NodesOk, Valid, Gathered, Owned, Grew, Kept, InOrder, Row;
      Ungather(a, ids, kids, from);
      ghost var top := Now();
      var _ := Expect(LBrace, ExpectedOpen);
      GatherMoved(a, top, ids, kids, from);
    }

    // Members in braces, behind what is gathered of the declaration that opens at token `pos`.
    method ParseMembers(kind: NodeKind, e: Elem, gathered: seq<NodeId>, flags: nat, start: nat, name: Id,
                        ghost dt: seq<Tree>, ghost gens: seq<Tree>, ghost a: State, ghost pos: nat) returns (r: NodeId)
      requires Gathered(a, gathered, dt + gens, start) && AllOf(NDoc, dt) && |gens| <= 1 && AllOf(NGenerics, gens)
      requires start == StartOf(inp, pos) && pos < cursor && name < |interner.strings|
      requires (kind == StructDecl && e == AField) || (kind == UnionDecl && e == AField)
               || (kind == EnumDecl && e == AVariant)
      modifies this, pool, interner
      ensures Made(a, NDecl, r) && Placed(a, pos, r) && old(cursor) <= cursor
      ensures Since(|old(errors)|, r) == TakeBraces(inp, pos, kind, Name(old(interner.strings)[name]), flags, dt + gens,
                       TakeInner(inp, old(cursor), InnerOf(e), a.sl))
      ensures |old(errors)| <= |errors|
      decreases |inp.toks| - cursor, 10
    {
      hide NodePool.Valid, StringInterner.Valid, NodesOk, Made, Valid, Added, Gathered, Owned, Of, Grew, Fresh,
           Kept, AllOf, Stores, Sited, Shaped, InOrder, Row, Inside, Placed, Extends, KindFits, BodyFits, TakeComma,
           TakeBraces, ItemsFound, ReadInner, Braced, SaysAll;
      ghost var text, q := interner.strings[name], cursor;
      OpenBraces(a, gathered, dt + gens, start);
      ghost var b := Now();
      Ungather(a, gathered, dt + gens, start);
      var ids;
      ghost var l;
      ids, l := ParseCommaSeparated(gathered, RBrace, e, dt + gens, |a.trees|, start);
      GatherItems(a, b, ids, dt + gens, SortOf(e), l, start);
      MembersReady(b.strs, name, kind, dt, gens, SortOf(e), l.trees, flags);
      r := CloseBraces(kind, ids, start, name, flags, Name(text), dt + gens, l, |b.errs|, a, pos);
      OpenedBraces(inp, pos, kind, Name(text), flags, dt + gens, KindAt(inp, q) == LBrace, l);
    }

    // The closing brace of a declaration, and its node over what was gathered and the inner nodes `l`.
    method CloseBraces(kind: NodeKind, ids: seq<NodeId>, start: nat, payload: nat, flags: nat, ghost p: Payload,
                       ghost before: seq<Tree>,
                       ghost l: ListOut, ghost n: nat, ghost a: State, ghost pos: nat)
      returns (r: NodeId)
      requires Gathered(a, ids, before + l.trees, start) && Shaped(kind, p, before + l.trees)
      requires Stores(interner.strings, payload, p)
      requires kind != Error && kind != DocComment && kind != StructLitExpr && KindFits(NDecl, kind)
      requires BodyFits(NDecl, Tree(kind, Span(0, 0), p, flags, before + l.trees))
      requires start == StartOf(inp, pos) && pos < cursor && n <= |errors|
      requires l.ok == (|errors| == n) && l.end == cursor
      modifies this, pool
      ensures Made(a, NDecl, r) && Placed(a, pos, r) && old(cursor) <= cursor && n <= |errors|
      ensures Since(n, r) == TakeBraces(inp, pos, kind, p, flags, before, l)
    {
      hide NodePool.Valid, StringInterner.Valid, NodesOk, Made, Valid, Gathered, Owned, Of, Grew, Fresh, Kept,
           Stores, Shaped, KindFits, InOrder, Row, Inside, Placed, SaysAll, Says, Braced;
      Ungather(a, ids, before + l.trees, start);
      ghost var c := Now();
      var end := Expect(RBrace, ExpectedClose);
      GatherMoved(a, c, ids, before + l.trees, start);
      Ungather(a, ids, before + l.trees, start);
      r := AllocGathered(kind, pos, Span(start, end.span.end), ids, payload, flags, p, before + l.trees, NDecl, a, c);
    }

    // A comma list behind what was gathered; `b` is the state in front of the list.
    lemma GatherItems(a: State, b: State, ids: seq<NodeId>, kids: seq<Tree>, s: Sort, l: ListOut, from: nat)
      requires Added(b, |a.trees|, ids, kids, s, l) && Grew(a, b)
      requires |b.errs| == |a.errs| && InOrder(inp.toks) ==> Row(inp, kids, from, b.cur)
      requires l.ok && InOrder(inp.toks) && Row(inp, kids, from, b.cur) ==> Row(inp, kids + l.trees, from, cursor)
      ensures Gathered(a, ids, kids + l.trees, from) && AllOf(s, l.trees) && Extends(b.strs, interner.strings)
      ensures l.ok == (|errors| == |b.errs|) && l.end == cursor && |b.errs| <= |errors| && b.cur <= cursor
    {
      hide NodePool.Valid, StringInterner.Valid, NodesOk, Valid, Owned, Kept, AllOf, InOrder, Row, Grew;
      Unadd(b, |a.trees|, ids, kids, s, l);
      GrewFacts(a, b);
      GrewTrans(a, b, Now());
      GrewStrings(b, Now());
    }

    // Members of a declaration whose name was interned when there were the strings `strs`.
    lemma MembersReady(strs: seq<string>, name: Id, kind: NodeKind, docs: seq<Tree>, gens: seq<Tree>, s: Sort,
                       members: seq<Tree>, flags: nat)
      requires Extends(strs, interner.strings) && name < |strs| && HasMembers(kind, s)
      requires AllOf(NDoc, docs) && |gens| <= 1 && AllOf(NGenerics, gens) && AllOf(s, members)
      ensures Stores(interner.strings, name, Name(strs[name])) && Shaped(kind, Name(strs[name]), docs + gens + members)
      ensures kind != Error && kind != DocComment && kind != StructLitExpr && KindFits(NDecl, kind)
      ensures BodyFits(NDecl, Tree(kind, Span(0, 0), Name(strs[name]), flags, docs + gens + members))
    {
      hide AllOf, Shaped;
      StoresName(strs, interner.strings, name);
      ShapeMembers(kind, Name(strs[name]), docs, gens, s, members);
    }

    lemma StringsStay(strs: seq<string>, later: seq<string>, id: Id)
      requires Extends(strs, later) && id < |strs|
      ensures id < |later| && later[id] == strs[id]
    {
    }

    /////////////////////////// functions and constants ///////////////////////////

    lemma BlockInside(a: State, r: NodeId)
      requires Agrees(inp, a.cur, Got(a, r), RunBlock(inp, a.cur, a.sl))
      ensures Sited(a, r)
    {
      hide RunBlock, InOrder, Inside, M, Ast, WF, Follow;
      if |errors| == |a.errs| && InOrder(inp.toks) {
        SoundBlock(inp, a.cur, a.sl);
        AstInside(inp, a.cur, RunBlock(inp, a.cur, a.sl).syn, cursor, a.sl);
      }
    }

    // A node placed behind where the call began.
    lemma PlacedWithin(a: State, pos: nat, r: NodeId)
      requires Placed(a, pos, r) && a.cur <= pos && cursor <= |inp.toks|
      ensures Sited(a, r)
    {
      hide Inside, InOrder;
      if |errors| == |a.errs| && InOrder(inp.toks) {
        PlacedLies(a, pos, r);
        InsideWiden(inp, TreeOf(pool.trees, r), a.cur, pos, cursor, cursor);
      }
    }

    lemma PlacedLies(a: State, pos: nat, r: NodeId)
      requires Placed(a, pos, r) && |errors| == |a.errs| && InOrder(inp.toks)
      ensures pos < cursor
    {
    }

    // `[unsafe] fn [regime] name`.
    method ParseFnHead() returns (start: nat, isUnsafe: bool, regime: Regime, name: Id)
      requires Valid()
      modifies `cursor, `errors, interner
      ensures Valid() && Extends(old(interner.strings), interner.strings) && Older(old(errors), errors)
      ensures name < |interner.strings|
      ensures start == StartOf(inp, old(cursor)) && old(cursor) <= cursor
      ensures isUnsafe == (KindAt(inp, old(cursor)) == KwUnsafe)
      ensures if KindAt(inp, old(cursor)) == KwFn || KindAt(inp, old(cursor)) == KwUnsafe then old(cursor) < cursor
              else |errors| > |old(errors)|
      ensures (|errors| == |old(errors)|) == IsFnHead(inp, old(cursor))
      ensures |errors| == |old(errors)| ==>
              var f := FnAt(inp, old(cursor));
              var n := AfterRegime(inp, f + 1);
              regime == RegimeOf(KindAt(inp, f + 1)) && cursor == n + 1 && interner.strings[name] == TokText(inp, n)
      ensures var f := DeclRuns.FnAt(inp, old(cursor));
              var k := Past(inp, f, KwFn);
              var n := AfterRegime(inp, k);
              && regime == RegimeOf(KindAt(inp, k)) && cursor == Past(inp, n, Identifier)
              && interner.strings[name] == TokText(inp, n)
              && (|errors| == |old(errors)|) == (KindAt(inp, f) == KwFn && KindAt(inp, n) == Identifier)
    {
      hide NodePool.Valid, StringInterner.Valid, NodesOk, TextOf, Valid;
      start := PeekToken().span.start;
      isUnsafe := Consume(KwUnsafe);
      var _ := Expect(KwFn, ExpectedKeyword);
      regime := ParseRegime();
      name := ExpectName(Identifier);
    }

    /** A function, with a body or with a semicolon in its place. Unless a token is consumed a
        diagnostic is recorded, so that the loops over methods make progress. */
    method ParseFnDecl(docs: seq<NodeId>, flags: nat, expectBody: bool, ghost dt: seq<Tree>, ghost a: State)
      returns (r: NodeId)
      requires Documents(a, docs, dt)
      modifies this, pool, interner
      ensures Made(a, if expectBody then NMethod else NSignature, r) && Placed(a, old(cursor), r)
      ensures old(cursor) <= cursor
      ensures if KindAt(inp, old(cursor)) == KwFn || KindAt(inp, old(cursor)) == KwUnsafe then old(cursor) < cursor
              else |errors| > |old(errors)|
      ensures Says(Since(|old(errors)|, r), ReadFn(inp, old(cursor), if expectBody then On else Off, flags, dt, a.sl))
      ensures Since(|old(errors)|, r) == TakeFn(inp, old(cursor), if expectBody then On else Off, flags, dt, a.sl)
      ensures |old(errors)| <= |errors|
      decreases |inp.toks| - cursor, 11
    {
      hide NodePool.Valid, StringInterner.Valid, NodesOk, Made, Valid, Gathered, Owned, Of, Grew, Fresh, Kept,
           AllOf, Stores, Sited, InOrder, Row, Inside, Placed, AllNested, KindFits, BodyFits, ReadFn, Says, TextOf,
           TakeGens, TakeSignature, TakeBody, ReadGenerics, ReadSignature, ReadBody, SaysAll, IsFnHead;
      Undocument(a, docs, dt);
      CleanFn(inp, cursor, if expectBody then On else Off, flags, dt, a.sl);
      ghost var top := Now();
      GrewFacts(a, top);
      var start, isUnsafe, regime, name := ParseFnHead();
      Moved(a, top, Now());
      KeptMoved(top, Now(), |a.trees|, docs, dt);
      GatherDocs(a, docs, dt, top.cur);
      ghost var s0 := interner.strings;
      ghost var n0 := |errors|;
      var ids;
      ghost var gens, params, ret, body;
      ids, gens := GatherGenerics(docs, dt, start, a);
      Ungather(a, ids, dt + gens, start);
      ghost var s1, g, n1 := interner.strings, ListOut(|errors| == n0, cursor, gens), |errors|;
      StringsStay(s0, s1, name);
      ids, params, ret := ParseSignature(ids, dt + gens, start, a);
      StringsStay(s1, interner.strings, name);
      ghost var sig, n2 := ListOut(|errors| == n1, cursor, [params] + ret), |errors|;
      assert dt + gens + [params] + ret == dt + gens + ([params] + ret);
      r, body := ParseFnBody(ids, if isUnsafe then WithUnsafe(flags) else flags, expectBody, start, name, regime, dt,
                             gens, params, ret, a, top.cur);
    }

    // Parameters, and the return type if there is one.
    method ParseSignature(gathered: seq<NodeId>, ghost kids: seq<Tree>, ghost from: nat, ghost a: State)
      returns (out: seq<NodeId>, ghost params: Tree, ghost ret: seq<Tree>)
      requires Gathered(a, gathered, kids, from)
      modifies this, pool, interner
      ensures Gathered(a, out, kids + [params] + ret, from)
      ensures Of(NParams, params) && |ret| <= 1 && AllOf(NType, ret)
      ensures old(cursor) <= cursor && |old(errors)| <= |errors| && Extends(old(interner.strings), interner.strings)
      ensures ListOut(|errors| == |old(errors)|, cursor, [params] + ret) == TakeSignature(inp, old(cursor), a.sl)
      decreases |inp.toks| - cursor, 10
    {
      hide NodePool.Valid, StringInterner.Valid, NodesOk, Made, Valid, Gathered, Owned, Of, Grew, Fresh, Kept,
           AllOf, Sited, InOrder, Row, Inside, TakeParams, TakeReturn, Stands, ReadParams, ReadSignature, Says,
           SaysAll, Agrees, RunType;
      Ungather(a, gathered, kids, from);
      ghost var b := Now();
      var list := ParseParamList();
      Unmake(b, NParams, list);
      GrewStrings(b, Now());
      ghost var x := Got(b, list);
      params := x.tree;
      Gather(a, b, gathered, kids, from, NParams, list);
      ghost var strs := interner.strings;
      out, ret := ParseReturn(gathered + [list], kids + [params], from, a);
      StringsOnwards(b.strs, strs, interner.strings);
    }

    lemma StringsOnwards(x: seq<string>, y: seq<string>, z: seq<string>)
      requires Extends(x, y) && Extends(y, z)
      ensures Extends(x, z)
    {
    }

    // `: type`, if there is one; an arrow in place of the colon is reported.
    method ParseReturn(gathered: seq<NodeId>, ghost kids: seq<Tree>, ghost from: nat, ghost a: State)
      returns (out: seq<NodeId>, ghost ret: seq<Tree>)
      requires Gathered(a, gathered, kids, from)
      modifies this, pool, interner
      ensures Gathered(a, out, kids + ret, from) && |ret| <= 1 && AllOf(NType, ret)
      ensures old(cursor) <= cursor && |old(errors)| <= |errors| && Extends(old(interner.strings), interner.strings)
      ensures ListOut(|errors| == |old(errors)|, cursor, ret) == TakeReturn(inp, old(cursor), a.sl)
      decreases |inp.toks| - cursor, 9
    {
      hide NodePool.Valid, StringInterner.Valid, NodesOk, Made, Valid, Gathered, Owned, Of, Grew, Fresh, Kept,
           AllOf, Sited, InOrder, Row, Inside, TakeType, Stands, RunType, Agrees;
      Ungather(a, gathered, kids, from);
      ghost var c := Now();
      out, ret := gathered, [];
      NoneOf(NType);
      assert kids + [] == kids;
      if Check(Colon) {
        var _ := Advance();
      } else if Check(Arrow) {
        AddError(PeekToken().span, ExpectedReturnTypeColon);
        var _ := Advance();
      } else {
        return;
      }
      GatherMoved(a, c, out, kids, from);
      Ungather(a, out, kids, from);
      ghost var d := Now();
      var ty := ParseType();
      TypeInside(d, ty);
      Unmake(d, NType, ty);
      GrewStrings(d, Now());
      Gather(a, d, out, kids, from, NType, ty);
      out := out + [ty];
      ret := [TreeOf(pool.trees, ty)];
      AllOfCons(NType, ret[0], []);
      assert [ret[0]] + [] == ret;
    }

    // The body, or the semicolon that a trait wants.
    method GatherBody(gathered: seq<NodeId>, expectBody: bool, ghost kids: seq<Tree>, ghost from: nat, ghost a: State)
      returns (out: seq<NodeId>, ghost body: Tree)
      requires Gathered(a, gathered, kids, from)
      modifies this, pool, interner
      ensures Gathered(a, out, kids + [body], from) && old(cursor) <= cursor && |old(errors)| <= |errors|
      ensures Extends(old(interner.strings), interner.strings)
      ensures if expectBody then Of(NBody, body) && body.Tree? else body == NullTree
      ensures Out(|errors| == |old(errors)|, cursor, body)
              == TakeBody(inp, old(cursor), if expectBody then On else Off, a.sl)
      decreases |inp.toks| - cursor, 8
    {
      hide NodePool.Valid, StringInterner.Valid, NodesOk, Made, Valid, Gathered, Owned, Of, Grew, Fresh, Kept,
           Sited, InOrder, Row, Inside, TakeBlock, Agrees, Stands, RunBlock, ReadBody, Says;
      Ungather(a, gathered, kids, from);
      ghost var b := Now();
      body := NullTree;
      if expectBody {
        var block := ParseBlockExpr();
        BlockInside(b, block);
        Unmake(b, NBlock, block);
        GrewStrings(b, Now());
        Gather(a, b, gathered, kids, from, NBlock, block);
        out, body := gathered + [block], TreeOf(pool.trees, block);
        BlockBody(body);
      } else {
        var _ := Expect(Semi, ExpectedTraitFnSemi);
        GatherMoved(a, b, gathered, kids, from);
        GatherNull(a, gathered, kids, from);
        out := gathered + [NullNode];
      }
    }

    // The body and the node.
    method ParseFnBody(gathered: seq<NodeId>, flags: nat, expectBody: bool, start: nat, name: Id, regime: Regime,
                       ghost dt: seq<Tree>, ghost gens: seq<Tree>, ghost params: Tree, ghost ret: seq<Tree>,
                       ghost a: State, ghost pos: nat)
      returns (r: NodeId, ghost body: Tree)
      requires Gathered(a, gathered, dt + gens + [params] + ret, start) && start == StartOf(inp, pos)
      requires name < |interner.strings|
      requires |errors| == |a.errs| ==> pos < cursor
      requires AllOf(NDoc, dt) && |gens| <= 1 && AllOf(NGenerics, gens) && Of(NParams, params) && |ret| <= 1
      requires AllOf(NType, ret)
      modifies this, pool, interner
      ensures Made(a, if expectBody then NMethod else NSignature, r) && Placed(a, pos, r) && old(cursor) <= cursor
      ensures |old(errors)| <= |errors|
      ensures cursor <= |inp.toks| && TreeOf(pool.trees, r) == Tree(FnDecl, Span(start, Previous().span.end),
                        NameRegime(old(interner.strings)[name], regime), flags, dt + gens + [params] + ret + [body])
      ensures Out(|errors| == |old(errors)|, cursor, body)
              == TakeBody(inp, old(cursor), if expectBody then On else Off, a.sl)
      decreases |inp.toks| - cursor, 9
    {
      hide NodePool.Valid, StringInterner.Valid, NodesOk, Made, Valid, Gathered, Owned, Of, Grew, Fresh, Kept,
           AllOf, Stores, Sited, InOrder, Row, Inside, Placed, Shaped, TakeBody, ReadBody, Says;
      ghost var kids, text, strs := dt + gens + [params] + ret, interner.strings[name], interner.strings;
      Ungather(a, gathered, kids, start);
      var ids;
      ids, body := GatherBody(gathered, expectBody, kids, start, a);
      Ungather(a, ids, kids + [body], start);
      ghost var c := Now();
      StringsStay(strs, interner.strings, name);
      StoresNameRegime(interner.strings, name, regime);
      ShapeFn(NameRegime(text, regime), dt, gens, params, ret, body);
      r := AllocGathered(FnDecl, pos, Span(start, Previous().span.end), ids, MakePayload(name, regime), flags,
                         NameRegime(text, regime), kids + [body], if expectBody then NMethod else NSignature, a, c);
      Unmake(a, if expectBody then NMethod else NSignature, r);
    }

    /** `const name : type = value ;`, also where `unsafe` stands before something else than a function. */
    method ParseConstDecl(docs: seq<NodeId>, flags: nat, ghost dt: seq<Tree>, ghost a: State) returns (r: NodeId)
      requires Documents(a, docs, dt)
      modifies this, pool, interner
      ensures Made(a, NDecl, r) && Placed(a, old(cursor), r) && old(cursor) <= cursor
      ensures KindAt(inp, old(cursor)) == KwConst || KindAt(inp, old(cursor)) == KwUnsafe ==> old(cursor) < cursor
      ensures Says(Since(|old(errors)|, r), ReadConst(inp, old(cursor), flags, dt, a.sl))
      ensures Since(|old(errors)|, r) == TakeConst(inp, old(cursor), flags, dt, a.sl)
      ensures |old(errors)| <= |errors|
      decreases |inp.toks| - cursor, 9
    {
      hide NodePool.Valid, StringInterner.Valid, NodesOk, Made, Valid, Gathered, Owned, Of, Grew, Fresh, Kept,
           AllOf, Stores, Sited, InOrder, Row, Inside, Placed, AllNested, Shaped, ReadConst, Says, TextOf, TakeType,
           TakeExpr, Agrees, Stands, RunType, RunExpr;
      Undocument(a, docs, dt);
      CleanConst(inp, cursor, flags, dt, a.sl);
      ghost var top := Now();
      GrewFacts(a, top);
      InBounds();
      var start := Expect(KwConst, ExpectedKeyword);
      var name := ExpectName(Identifier);
      ghost var text := interner.strings[name];
      var _ := Expect(Colon, ExpectedColon);
      ghost var b := Now();
      Moved(a, top, b);
      KeptMoved(top, b, |a.trees|, docs, dt);
      GatherDocs(a, docs, dt, top.cur);
      Ungather(a, docs, dt, StartOf(inp, top.cur));
      var ty := ParseType();
      TypeInside(b, ty);
      Unmake(b, NType, ty);
      GrewStrings(b, Now());
      Gather(a, b, docs, dt, StartOf(inp, top.cur), NType, ty);
      ghost var t := TreeOf(pool.trees, ty);
      StringsStay(b.strs, interner.strings, name);
      ghost var x, v := Got(b, ty), Got(b, ty);
      r, v := ParseConstValue(docs + [ty], flags, start.span.start, name, dt, t, a, top.cur);
    }

    // `= value`, one more child of what is gathered.
    method ParseInit(gathered: seq<NodeId>, ghost kids: seq<Tree>, ghost from: nat, ghost a: State)
      returns (out: seq<NodeId>, ghost v: Out)
      requires Gathered(a, gathered, kids, from)
      modifies this, pool, interner
      ensures Gathered(a, out, kids + [v.tree], from) && Of(NExpr, v.tree)
      ensures old(cursor) <= cursor && |old(errors)| <= |errors| && Extends(old(interner.strings), interner.strings)
      ensures KindAt(inp, old(cursor)) == KwUnsafe ==> old(cursor) < cursor
      ensures (|errors| == |old(errors)|) == (KindAt(inp, old(cursor)) == Eq && v.ok)
      ensures |errors| == |old(errors)| ==> cursor == v.end
      ensures v == TakeExpr(inp, Past(inp, old(cursor), Eq), 0, a.sl) && cursor == v.end
      decreases |inp.toks| - cursor, 8
    {
      hide NodePool.Valid, StringInterner.Valid, NodesOk, Made, Valid, Gathered, Owned, Of, Grew, Fresh, Kept,
           Sited, InOrder, Row, Inside, TakeExpr, Agrees, Stands, RunExpr;
      Ungather(a, gathered, kids, from);
      ghost var b0 := Now();
      var _ := Expect(Eq, ExpectedEq);
      ghost var b := Now();
      GatherMoved(a, b0, gathered, kids, from);
      Ungather(a, gathered, kids, from);
      var value := ParseConstExpr(0);
      ExprInside(b, value);
      Unmake(b, NExpr, value);
      GrewStrings(b, Now());
      Gather(a, b, gathered, kids, from, NExpr, value);
      v := Got(b, value);
      out := gathered + [value];
    }

    method ParseConstValue(gathered: seq<NodeId>, flags: nat, start: nat, name: Id, ghost dt: seq<Tree>, ghost t: Tree,
                           ghost a: State, ghost pos: nat)
      returns (r: NodeId, ghost v: Out)
      requires Gathered(a, gathered, dt + [t], StartOf(inp, pos)) && AllOf(NDoc, dt) && Of(NType, t)
      requires name < |interner.strings|
      requires |errors| == |a.errs| ==> pos < cursor && start == StartOf(inp, pos)
      modifies this, pool, interner
      ensures Made(a, NDecl, r) && Placed(a, pos, r) && old(cursor) <= cursor
      ensures KindAt(inp, old(cursor)) == KwUnsafe ==> old(cursor) < cursor
      ensures |old(errors)| <= |errors|
      ensures (|errors| == |old(errors)|) == (KindAt(inp, old(cursor)) == Eq && v.ok && KindAt(inp, v.end) == Semi)
      ensures |errors| == |old(errors)| ==> cursor == v.end + 1
      ensures v == TakeExpr(inp, Past(inp, old(cursor), Eq), 0, a.sl) && cursor == Past(inp, v.end, Semi)
      ensures TreeOf(pool.trees, r)
              == Tree(ConstDecl, Span(start, PrevEnd(inp, cursor)), Name(old(interner.strings)[name]), flags,
                      dt + [t, v.tree])
      decreases |inp.toks| - cursor, 9
    {
      hide NodePool.Valid, StringInterner.Valid, NodesOk, Made, Valid, Gathered, Owned, Of, Grew, Fresh, Kept,
           AllOf, Stores, Sited, InOrder, Row, Inside, Placed, Shaped, TakeExpr, Agrees, Stands, RunExpr;
      ghost var from, text, b0 := StartOf(inp, pos), interner.strings[name], Now();
      Ungather(a, gathered, dt + [t], from);
      var ids;
      ids, v := ParseInit(gathered, dt + [t], from, a);
      ghost var kids := dt + [t] + [v.tree];
      Ungather(a, ids, kids, from);
      ghost var c := Now();
      var _ := Expect(Semi, ExpectedSemi);
      GatherMoved(a, c, ids, kids, from);
      Ungather(a, ids, kids, from);
      StringsStay(b0.strs, interner.strings, name);
      StoresName(interner.strings, interner.strings, name);
      ShapeConst(Name(text), dt, t, v.tree);
      assert dt + [t, v.tree] == kids;
      r := AllocGathered(ConstDecl, pos, Span(start, Previous().span.end), ids, name, flags, Name(text), kids, NDecl, a,
                         c);
    }

    /////////////////////////// traits and implementations ///////////////////////////

    /** One method of a trait or an implementation with its documentation, and recovery to the next.
        At least one token is consumed, though a failing function need not consume any. */
    method ParseMethod(expectBody: bool) returns (r: NodeId)
      requires Valid() && !Check(RBrace) && !AtEof()
      modifies this, pool, interner
      ensures Made(old(Now()), if expectBody then NMethod else NSignature, r) && Sited(old(Now()), r)
      ensures old(cursor) < cursor
      ensures Says(Got(old(Now()), r),
                   ReadMethod(inp, old(cursor), if expectBody then On else Off, old(structLitAllowed)))
      ensures Got(old(Now()), r) == TakeMethod(inp, old(cursor), if expectBody then On else Off, old(structLitAllowed))
      decreases |inp.toks| - cursor, 12
    {
      hide NodePool.Valid, StringInterner.Valid, NodesOk, Made, Valid, Owned, Of, Grew, Fresh, Kept, AllOf,
           Documents, Sited, Placed, InOrder, Inside, DocEnd, DocTrees, TakeFn, ReadFn;
      InBounds();
      CleanMethod(inp, cursor, if expectBody then On else Off, structLitAllowed);
      ghost var a := Now();
      var docs;
      ghost var dt;
      docs, dt := ParseDocComments();
      Undocument(a, docs, dt);
      ghost var p := cursor;
      var errorsBefore := |errors|;
      r := ParseFnDecl(docs, 0, expectBody, dt, a);
      ghost var s := if expectBody then NMethod else NSignature;
      Unmake(a, s, r);
      PlacedWithin(a, p, r);
      ghost var b := Now();
      if |errors| != errorsBefore {
        while !Check(RBrace) && !Check(KwFn) && !Check(KwUnsafe) && !AtEof()
          invariant cursor <= |inp.toks| && Valid() && b.cur <= cursor && b == Now().(cur := b.cur)
          invariant FirstOf(inp, b.cur, {RBrace, KwFn, KwUnsafe}) == FirstOf(inp, cursor, {RBrace, KwFn, KwUnsafe})
          invariant cursor == b.cur || a.cur < cursor
          decreases |inp.toks| - cursor
        {
          var _ := Advance();
        }
        MadeMoved(a, b, s, r);
        SitedVacuous(a, r);
      }
    }

    lemma Undocument(a: State, docs: seq<NodeId>, dt: seq<Tree>)
      requires Documents(a, docs, dt)
      ensures Valid() && Grew(a, Now()) && Kept(Now(), |a.trees|, docs, dt) && AllOf(NDoc, dt)
      ensures InOrder(inp.toks) ==> AllNested(dt)
      ensures cursor <= |inp.toks| && pool.Valid() && structLitAllowed == a.sl && |a.errs| <= |errors|
      ensures a.cur <= cursor && |a.trees| <= |pool.trees|
    {
    }

    // The methods up to the closing brace.
    method ParseMethods(gathered: seq<NodeId>, expectBody: bool, ghost kids: seq<Tree>, ghost from: nat, ghost a: State)
      returns (out: seq<NodeId>, ghost ms: seq<Tree>)
      requires Gathered(a, gathered, kids, from)
      modifies this, pool, interner
      ensures Gathered(a, out, kids + ms, from) && AllOf(if expectBody then NMethod else NSignature, ms)
      ensures old(cursor) <= cursor && |old(errors)| <= |errors| && Extends(old(interner.strings), interner.strings)
      ensures ListOut(|errors| == |old(errors)|, cursor, ms)
              == TakeMethods(inp, old(cursor), if expectBody then On else Off, a.sl)
      decreases |inp.toks| - cursor, 13
    {
      hide NodePool.Valid, StringInterner.Valid, NodesOk, Made, Valid, Gathered, Owned, Of, Grew, Fresh, Kept,
           AllOf, Sited, InOrder, Row, Inside, TakeMethods, TakeMethod, MethodsTaken, ReadMethod, ReadMethods, Says,
           SaysAll;
      ghost var s, sw := if expectBody then NMethod else NSignature, if expectBody then On else Off;
      out, ms := gathered, [];
      NoneOf(s);
      assert kids + [] == kids;
      ghost var s0, p0, e0 := interner.strings, cursor, |errors|;
      Ungather(a, gathered, kids, from);
      MethodsTakenStart(inp, p0, sw, a.sl);
      while !Check(RBrace) && !AtEof()
        invariant Gathered(a, out, kids + ms, from) && AllOf(s, ms)
        invariant MethodsTaken(inp, p0, sw, a.sl, ListOut(|errors| == e0, cursor, ms))
        invariant p0 <= cursor && e0 <= |errors| && Extends(s0, interner.strings)
        decreases |inp.toks| - cursor
      {
        Ungather(a, out, kids + ms, from);
        ghost var b := Now();
        var m := ParseMethod(expectBody);
        Unmake(b, s, m);
        GrewStrings(b, Now());
        Gather(a, b, out, kids + ms, from, s, m);
        ghost var t := TreeOf(pool.trees, m);
        assert kids + ms + [t] == kids + (ms + [t]);
        AllOfSnoc(s, ms, t);
        MethodsTakenStep(inp, p0, sw, a.sl, ListOut(|b.errs| == e0, b.cur, ms), Got(b, m));
        out, ms := out + [m], ms + [t];
      }
      MethodsTakenExit(inp, p0, sw, a.sl, ListOut(|errors| == e0, cursor, ms));
    }

    method ParseTraitDecl(docs: seq<NodeId>, flags: nat, ghost dt: seq<Tree>, ghost a: State) returns (r: NodeId)
      requires Documents(a, docs, dt) && Check(KwTrait)
      modifies this, pool, interner
      ensures Made(a, NDecl, r) && Placed(a, old(cursor), r) && old(cursor) < cursor
      ensures Says(Since(|old(errors)|, r), ReadNamed(inp, old(cursor), flags, dt, a.sl))
      ensures Since(|old(errors)|, r) == TakeNamed(inp, old(cursor), TraitDecl, Signatures, flags, dt, a.sl)
      ensures |old(errors)| <= |errors|
      decreases |inp.toks| - cursor, 15
    {
      hide NodePool.Valid, StringInterner.Valid, NodesOk, Made, Valid, Gathered, Owned, Of, Grew, Fresh, Kept,
           AllOf, Stores, Sited, Shaped, InOrder, Row, Inside, Placed, AllNested, ReadNamed, Says, TextOf, TakeGens,
           TakeInner, TakeBraces, ReadGenerics, SaysAll, Braced, ReadInner;
      Undocument(a, docs, dt);
      CleanNamed(inp, cursor, TraitDecl, Signatures, flags, dt, a.sl);
      ghost var top := Now();
      GrewFacts(a, top);
      var start, name := ParseOpening(KwTrait);
      Moved(a, top, Now());
      KeptMoved(top, Now(), |a.trees|, docs, dt);
      GatherDocs(a, docs, dt, top.cur);
      ghost var s0 := interner.strings;
      ghost var n0 := |errors|;
      var ids;
      ghost var gens;
      ids, gens := GatherGenerics(docs, dt, start, a);
      Ungather(a, ids, dt + gens, start);
      StringsStay(s0, interner.strings, name);
      ghost var g, n1 := ListOut(|errors| == n0, cursor, gens), |errors|;
      r := ParseTraitBody(ids, flags, start, name, dt, gens, a, top.cur);
    }

    method ParseTraitBody(gathered: seq<NodeId>, flags: nat, start: nat, name: Id,
                          ghost dt: seq<Tree>, ghost gens: seq<Tree>, ghost a: State, ghost pos: nat)
      returns (r: NodeId)
      requires Gathered(a, gathered, dt + gens, start) && AllOf(NDoc, dt) && |gens| <= 1 && AllOf(NGenerics, gens)
      requires start == StartOf(inp, pos) && pos < cursor && name < |interner.strings|
      modifies this, pool, interner
      ensures Made(a, NDecl, r) && Placed(a, pos, r) && old(cursor) <= cursor
      ensures Since(|old(errors)|, r)
              == TakeBraces(inp, pos, TraitDecl, Name(old(interner.strings)[name]), flags, dt + gens,
                       TakeInner(inp, old(cursor), Signatures, a.sl))
      ensures |old(errors)| <= |errors|
      decreases |inp.toks| - cursor, 14
    {
      hide NodePool.Valid, StringInterner.Valid, NodesOk, Made, Valid, Gathered, Owned, Of, Grew, Fresh, Kept,
           AllOf, Stores, Sited, Shaped, InOrder, Row, Inside, Placed, Extends, KindFits, BodyFits, TakeMethods,
           TakeBraces, SaysAll, ReadMethods, Says, Braced;
      ghost var text, q := interner.strings[name], cursor;
      OpenBraces(a, gathered, dt + gens, start);
      ghost var b := Now();
      var ids;
      ghost var ms;
      ids, ms := ParseMethods(gathered, false, dt + gens, start, a);
      Ungather(a, ids, dt + gens + ms, start);
      MembersReady(b.strs, name, TraitDecl, dt, gens, NSignature, ms, flags);
      ghost var l := ListOut(|errors| == |b.errs|, cursor, ms);
      r := CloseBraces(TraitDecl, ids, start, name, flags, Name(text), dt + gens, l, |b.errs|, a, pos);
      OpenedBraces(inp, pos, TraitDecl, Name(text), flags, dt + gens, KindAt(inp, q) == LBrace, l);
    }

    /** `impl [<generics>] Type { ... }` or `impl [<generics>] Trait for Type { ... }`. Without a trait
        its slot is null. */
    method ParseImplDecl(docs: seq<NodeId>, flags: nat, ghost dt: seq<Tree>, ghost a: State) returns (r: NodeId)
      requires Documents(a, docs, dt) && Check(KwImpl)
      modifies this, pool, interner
      ensures Made(a, NDecl, r) && Placed(a, old(cursor), r) && old(cursor) < cursor
      ensures Says(Since(|old(errors)|, r), ReadImpl(inp, old(cursor), flags, dt, a.sl))
      ensures Since(|old(errors)|, r) == TakeImpl(inp, old(cursor), flags, dt, a.sl)
      ensures |old(errors)| <= |errors|
      decreases |inp.toks| - cursor, 15
    {
      hide NodePool.Valid, StringInterner.Valid, NodesOk, Made, Valid, Gathered, Owned, Of, Grew, Fresh, Kept,
           AllOf, Stores, Sited, Shaped, InOrder, Row, Inside, Placed, AllNested, ReadImpl, Says, TakeGens,
           TakeInner, TakeBraces, TakeImplTypes, ReadGenerics, ReadImplTypes, SaysAll, Braced, ReadInner;
      Undocument(a, docs, dt);
      CleanImpl(inp, cursor, flags, dt, a.sl);
      ghost var top := Now();
      GrewFacts(a, top);
      var start := Expect(KwImpl, ExpectedKeyword);
      Moved(a, top, Now());
      KeptMoved(top, Now(), |a.trees|, docs, dt);
      GatherDocs(a, docs, dt, top.cur);
      var ids;
      ghost var gens, bound, ty;
      ids, gens := GatherGenerics(docs, dt, start.span.start, a);
      Ungather(a, ids, dt + gens, start.span.start);
      ghost var g, n1 := ListOut(|errors| == |top.errs|, cursor, gens), |errors|;
      ids, bound, ty := ParseImplTypes(ids, dt + gens, start.span.start, a);
      ghost var types, n2 := ListOut(|errors| == n1, cursor, [bound, ty]), |errors|;
      r := ParseImplBody(ids, flags, start.span.start, dt, gens, bound, ty, a, top.cur);
    }

    // The trait, or null, and the type.
    method ParseImplTypes(gathered: seq<NodeId>, ghost kids: seq<Tree>, ghost from: nat, ghost a: State)
      returns (out: seq<NodeId>, ghost bound: Tree, ghost ty: Tree)
      requires Gathered(a, gathered, kids, from)
      modifies this, pool, interner
      ensures Gathered(a, out, kids + [bound, ty], from) && Of(NBound, bound) && Of(NType, ty) && old(cursor) <= cursor
      ensures |old(errors)| <= |errors|
      ensures ListOut(|errors| == |old(errors)|, cursor, [bound, ty]) == TakeImplTypes(inp, old(cursor), a.sl)
      decreases |inp.toks| - cursor, 2
    {
      hide NodePool.Valid, StringInterner.Valid, NodesOk, Made, Valid, Gathered, Owned, Of, Grew, Fresh, Kept,
           Sited, InOrder, Row, Inside, TakeType, Agrees, Stands, RunType, ReadImplTypes, SaysAll;
      Ungather(a, gathered, kids, from);
      GatherNull(a, gathered, kids, from);
      Ungather(a, gathered + [NullNode], kids + [NullTree], from);
      ghost var b := Now();
      var first := ParseType();
      TypeInside(b, first);
      Unmake(b, NType, first);
      ghost var t, x := TreeOf(pool.trees, first), Got(b, first);
      if Check(KwFor) {
        Gather(a, b, gathered, kids, from, NType, first);
        Ungather(a, gathered + [first], kids + [t], from);
        ghost var c := Now();
        var _ := Advance();
        GatherMoved(a, c, gathered + [first], kids + [t], from);
        Ungather(a, gathered + [first], kids + [t], from);
        ghost var d := Now();
        var second := ParseType();
        TypeInside(d, second);
        Unmake(d, NType, second);
        Gather(a, d, gathered + [first], kids + [t], from, NType, second);
        out := gathered + [first] + [second];
        bound, ty := t, TreeOf(pool.trees, second);
        TypeBound(t);
        assert kids + [t] + [ty] == kids + [bound, ty];
      } else {
        Gather(a, b, gathered + [NullNode], kids + [NullTree], from, NType, first);
        out := gathered + [NullNode] + [first];
        bound, ty := NullTree, t;
        NullBound();
        assert kids + [NullTree] + [t] == kids + [bound, ty];
      }
    }

    method ParseImplBody(gathered: seq<NodeId>, flags: nat, start: nat, ghost dt: seq<Tree>, ghost gens: seq<Tree>,
                         ghost bound: Tree, ghost ty: Tree, ghost a: State, ghost pos: nat) returns (r: NodeId)
      requires Gathered(a, gathered, dt + gens + [bound, ty], start) && AllOf(NDoc, dt) && |gens| <= 1
      requires AllOf(NGenerics, gens)
      requires Of(NBound, bound) && Of(NType, ty) && start == StartOf(inp, pos) && pos < cursor
      modifies this, pool, interner
      ensures Made(a, NDecl, r) && Placed(a, pos, r) && old(cursor) <= cursor
      ensures Since(|old(errors)|, r) == TakeBraces(inp, pos, ImplDecl, Zero, flags, dt + gens + [bound, ty],
                       TakeInner(inp, old(cursor), Methods, a.sl))
      ensures |old(errors)| <= |errors|
      decreases |inp.toks| - cursor, 14
    {
      hide NodePool.Valid, StringInterner.Valid, NodesOk, Made, Valid, Gathered, Owned, Of, Grew, Fresh, Kept,
           AllOf, Stores, Sited, Shaped, InOrder, Row, Inside, Placed, TakeMethods, TakeBraces, SaysAll,
           ReadMethods, Says;
      ghost var kids, q := dt + gens + [bound, ty], cursor;
      OpenBraces(a, gathered, kids, start);
      ghost var b := Now();
      var ids;
      ghost var ms;
      ids, ms := ParseMethods(gathered, true, kids, start, a);
      Ungather(a, ids, kids + ms, start);
      StoresZero(interner.strings);
      ShapeImpl(dt, gens, bound, ty, ms);
      ghost var l := ListOut(|errors| == |b.errs|, cursor, ms);
      r := CloseBraces(ImplDecl, ids, start, 0, flags, Zero, kids, l, |b.errs|, a, pos);
      OpenedBraces(inp, pos, ImplDecl, Zero, flags, kids, KindAt(inp, q) == LBrace, l);
    }

    /////////////////////////// modules and imports ///////////////////////////

    /** `mod name { ... }` or `mod name ;`. */
    method ParseModDecl(docs: seq<NodeId>, flags: nat, ghost dt: seq<Tree>, ghost a: State) returns (r: NodeId)
      requires Documents(a, docs, dt) && Check(KwMod)
      modifies this, pool, interner
      ensures Made(a, NDecl, r) && Placed(a, old(cursor), r) && old(cursor) < cursor
      ensures Says(Since(|old(errors)|, r), ReadMod(inp, old(cursor), flags, dt, a.sl))
      ensures Since(|old(errors)|, r) == TakeMod(inp, old(cursor), flags, dt, a.sl)
      ensures |old(errors)| <= |errors|
      decreases |inp.toks| - cursor, 15
    {
      hide NodePool.Valid, StringInterner.Valid, NodesOk, Made, Valid, Gathered, Owned, Of, Grew, Fresh, Kept,
           AllOf, Stores, Sited, Shaped, InOrder, Row, Inside, Placed, AllNested, ErrorNodes, ReadMod, Says, TextOf,
           TakeDecls, TakeBraces, Braced, ReadDecls;
      Undocument(a, docs, dt);
      CleanMod(inp, cursor, flags, dt, a.sl);
      ghost var top := Now();
      GrewFacts(a, top);
      var start, name := ParseOpening(KwMod);
      ghost var text := interner.strings[name];
      Moved(a, top, Now());
      KeptMoved(top, Now(), |a.trees|, docs, dt);
      GatherDocs(a, docs, dt, top.cur);
      Ungather(a, docs, dt, start);
      ghost var b := Now();
      if Check(LBrace) {
        var _ := Advance();
        GatherMoved(a, b, docs, dt, start);
        r := ParseModBody(docs, flags, start, name, dt, a, top.cur);
      } else if Check(Semi) {
        var end := PeekToken().span;
        var _ := Advance();
        GatherMoved(a, b, docs, dt, start);
        Ungather(a, docs, dt, start);
        StoresName(interner.strings, interner.strings, name);
        ShapeDocs(ModDeclFile, Name(text), dt);
        r := AllocGathered(ModDeclFile, top.cur, Span(start, end.end), docs, name, flags, Name(text), dt, NDecl, a, b);
      } else {
        r := FailAt(PeekToken().span, ExpectedModOpenOrSemi, PeekToken().span, NDecl, a);
        PlacedVacuous(a, top.cur, r);
      }
    }

    lemma PlacedVacuous(a: State, pos: nat, r: NodeId)
      requires |errors| != |a.errs|
      ensures Placed(a, pos, r)
    {
    }

    lemma ErrorsCount(a: State, b: State)
      requires Grew(a, b)
      ensures ErrorNodes(b.trees) + |a.errs| <= ErrorNodes(a.trees) + |b.errs|
    {
    }

    method ParseModBody(docs: seq<NodeId>, flags: nat, start: nat, name: Id, ghost dt: seq<Tree>, ghost a: State,
                        ghost pos: nat)
      returns (r: NodeId)
      requires Gathered(a, docs, dt, start) && AllOf(NDoc, dt) && start == StartOf(inp, pos) && pos < cursor
      requires name < |interner.strings|
      modifies this, pool, interner
      ensures Made(a, NDecl, r) && Placed(a, pos, r) && old(cursor) <= cursor && |old(errors)| <= |errors|
      ensures Since(|old(errors)|, r) == TakeBraces(inp, pos, ModDecl, Name(old(interner.strings)[name]), flags, dt,
                       TakeDecls(inp, old(cursor), On, a.sl))
      decreases |inp.toks| - cursor, 18
    {
      hide NodePool.Valid, StringInterner.Valid, NodesOk, Made, Valid, Gathered, Owned, Of, Grew, Fresh, Kept,
           AllOf, Stores, Sited, Shaped, InOrder, Row, Inside, Placed, TakeDecls, TakeDecl, DeclsTaken, TakeBraces,
           SaysAll, ReadDecls, Says, ReadDecl;
      ghost var s0, text, n0 := interner.strings, interner.strings[name], |errors|;
      var ids := docs;
      ghost var ds := [];
      NoneOf(NDecl);
      assert dt + [] == dt;
      ghost var p0 := cursor;
      Ungather(a, docs, dt, start);
      DeclsTakenStart(inp, p0, On, a.sl);
      while !Check(RBrace) && !AtEof()
        invariant Gathered(a, ids, dt + ds, start) && AllOf(NDecl, ds)
        invariant p0 <= cursor && Extends(s0, interner.strings) && n0 <= |errors|
        invariant DeclsTaken(inp, p0, On, a.sl, ListOut(|errors| == n0, cursor, ds))
        decreases |inp.toks| - cursor
      {
        Ungather(a, ids, dt + ds, start);
        ghost var b := Now();
        var d := ParseTopLevelDecl();
        Unmake(b, NDecl, d);
        GrewStrings(b, Now());
        Gather(a, b, ids, dt + ds, start, NDecl, d);
        ghost var t := TreeOf(pool.trees, d);
        assert dt + ds + [t] == dt + (ds + [t]);
        AllOfSnoc(NDecl, ds, t);
        DeclsTakenStep(inp, p0, On, a.sl, ListOut(|b.errs| == n0, b.cur, ds), Got(b, d));
        ids, ds := ids + [d], ds + [t];
      }
      DeclsTakenExit(inp, p0, On, a.sl, ListOut(|errors| == n0, cursor, ds));
      Ungather(a, ids, dt + ds, start);
      StringsStay(s0, interner.strings, name);
      StoresName(interner.strings, interner.strings, name);
      ShapeModule(ModDecl, Name(text), NDoc, dt, ds);
      r := CloseBraces(ModDecl, ids, start, name, flags, Name(text), dt, ListOut(|errors| == n0, cursor, ds), n0,
                       a, pos);
    }

    // The name and the `::` segments of a `use` path, as far as names go.
    method ParseUseSegments() returns (path: Span)
      requires Valid() && 0 < cursor
      modifies `cursor, `errors
      ensures Valid() && old(cursor) <= cursor && Older(old(errors), errors)
      ensures |errors| == |old(errors)| ==>
              old(cursor) < cursor && path == Span(StartOf(inp, old(cursor)), EndOf(inp, cursor - 1))
      ensures (|errors| == |old(errors)|) == (KindAt(inp, old(cursor)) == Identifier)
      ensures |errors| == |old(errors)| ==> cursor == UseSegments(inp, old(cursor) + 1)
      ensures var p := Past(inp, old(cursor), Identifier);
              cursor == PastUseNames(inp, p) && path == Span(PrevSpan(inp, p).start, PrevEnd(inp, cursor))
    {
      hide NodePool.Valid, StringInterner.Valid, NodesOk, Valid;
      InBounds();
      ghost var p0, e0 := cursor, errors;
      var _ := Expect(Identifier, ExpectedIdentifier);
      InBounds();
      path := Previous().span;
      ghost var e1, p1 := errors, cursor;
      while Check(ColonColon)
        invariant Valid() && p0 <= cursor <= |inp.toks| && errors == e1
        invariant PastUseNames(inp, p1) == PastUseNames(inp, cursor) && p1 <= cursor
        invariant path == Span(PrevSpan(inp, p1).start, PrevEnd(inp, cursor))
        invariant |errors| == |e0| ==> p0 < cursor && path == Span(StartOf(inp, p0), EndOf(inp, cursor - 1))
        invariant |errors| == |e0| ==> UseSegments(inp, p0 + 1) == UseSegments(inp, cursor)
        decreases |inp.toks| - cursor
      {
        if PeekAt(1) == Star { break; }
        if PeekAt(1) != Identifier { break; }
        var _ := Advance();
        var _ := Advance();
        InBounds();
        path := path.(end := Previous().span.end);
      }
    }

    // The path of a `use`, with its glob or alias, and the semicolon. A clean path is interned as it
    // stands in the source, and ends in front of token `stop`.
    method ParseUsePath() returns (start: nat, end: nat, full: Id, ghost stop: nat)
      requires Valid() && Check(KwUse)
      modifies `cursor, `errors, interner
      ensures Valid() && Extends(old(interner.strings), interner.strings) && Older(old(errors), errors)
      ensures full < |interner.strings|
      ensures start == StartOf(inp, old(cursor)) && old(cursor) < cursor
      ensures (|errors| == |old(errors)|)
              == (UseStop(inp, old(cursor)) != 0 && KindAt(inp, UseStop(inp, old(cursor))) == Semi)
      ensures |errors| == |old(errors)| ==>
              && old(cursor) + 1 < stop == UseStop(inp, old(cursor)) && cursor == stop + 1
              && end == EndOf(inp, stop - 1)
              && interner.strings[full] == UseText(inp, old(cursor), stop)
      ensures var p := Past(inp, old(cursor) + 1, Identifier);
              var t := TakeUseTail(inp, PastUseNames(inp, p));
              && end == PrevEnd(inp, t.last) && cursor == Past(inp, t.end, Semi)
              && interner.strings[full] == TextOf(inp.src, Span(PrevSpan(inp, p).start, end))
              && (|errors| == |old(errors)|)
                 == (KindAt(inp, old(cursor) + 1) == Identifier && t.ok && KindAt(inp, t.end) == Semi)
    {
      hide NodePool.Valid, StringInterner.Valid, NodesOk, TextOf, Valid, PastUseNames, UseSegments;
      var tok := Expect(KwUse, ExpectedKeyword);
      start := tok.span.start;
      var path := ParseUseSegments();
      end := path.end;
      stop := cursor;
      full := Intern(Text(path));
      ghost var s1 := interner.strings;
      if Check(ColonColon) || Check(KwAs) {
        var glob := Check(ColonColon);
        var ok;
        end, full, ok := ParseUseTail(glob, path, full);
        stop := if ok then cursor else stop;
      }
      var _ := Expect(Semi, ExpectedSemi);
    }

    // `::*` or `as name`; without the star the path stays as it was.
    method ParseUseTail(glob: bool, path: Span, sofar: Id) returns (end: nat, full: Id, ok: bool)
      requires Valid() && Check(if glob then ColonColon else KwAs) && sofar < |interner.strings|
      modifies `cursor, `errors, interner
      ensures Valid() && Extends(old(interner.strings), interner.strings) && Older(old(errors), errors)
      ensures full < |interner.strings|
      ensures old(cursor) < cursor
      ensures ok ==> end == EndOf(inp, cursor - 1) && interner.strings[full] == Text(Span(path.start, end))
      ensures !ok ==> |errors| > |old(errors)|
      ensures (|errors| == |old(errors)|) == (KindAt(inp, old(cursor) + 1) == if glob then Star else Identifier)
      ensures |errors| == |old(errors)| ==> cursor == old(cursor) + 2
      ensures var t := TakeUseTail(inp, old(cursor));
              && (ok ==> end == PrevEnd(inp, t.last)) && (!ok ==> t.last == old(cursor)) && cursor == t.end
                 && (|errors| == |old(errors)|) == t.ok
      ensures !ok ==> end == path.end && full == sofar
    {
      hide NodePool.Valid, StringInterner.Valid, NodesOk, TextOf, Valid;
      var _ := Advance();
      end, full := path.end, sofar;
      if glob {
        ok := Consume(Star);
        if !ok {
          AddError(PeekToken().span, ExpectedUseItemOrGlob);
          return;
        }
      } else {
        ok := true;
        var _ := ExpectAndIntern(Identifier, ExpectedAsAlias);
      }
      InBounds();
      end := Previous().span.end;
      full := Intern(Text(Span(path.start, end)));
    }

    method ParseUseDecl(docs: seq<NodeId>, flags: nat, ghost dt: seq<Tree>, ghost a: State) returns (r: NodeId)
      requires Documents(a, docs, dt) && Check(KwUse)
      modifies this, pool, interner
      ensures Made(a, NDecl, r) && Placed(a, old(cursor), r) && old(cursor) < cursor
      ensures Says(Since(|old(errors)|, r), ReadUse(inp, old(cursor), flags, dt))
      ensures Since(|old(errors)|, r) == TakeUse(inp, old(cursor), flags, dt)
      ensures |old(errors)| <= |errors|
    {
      hide NodePool.Valid, StringInterner.Valid, NodesOk, Made, Valid, Gathered, Owned, Of, Grew, Fresh, Kept,
           AllOf, Stores, Shaped, InOrder, Row, Inside, Placed, AllNested, ReadUse, TakeUseTail, PastUseNames,
           UseText, UseStop;
      Undocument(a, docs, dt);
      CleanUse(inp, cursor, flags, dt);
      ghost var top := Now();
      GrewFacts(a, top);
      var start, end, full;
      ghost var stop;
      start, end, full, stop := ParseUsePath();
      ghost var text := interner.strings[full];
      Moved(a, top, Now());
      KeptMoved(top, Now(), |a.trees|, docs, dt);
      ghost var b := top.(cur := top.cur + 1);
      if |top.errs| == |a.errs| && InOrder(inp.toks) { DocsRow(inp, dt, top.cur, top.cur + 1); }
      StoresName(interner.strings, interner.strings, full);
      ShapeDocs(UseDecl, Name(text), dt);
      r := AllocEnding(UseDecl, top.cur, Span(start, end), docs, full, flags, Name(text), dt, NDecl, a, b, stop);
    }

    /////////////////////////// files ///////////////////////////

    /** A declaration with its documentation and visibility; at least one token is consumed unless
        none is left. */
    method ParseTopLevelDecl() returns (r: NodeId)
      requires Valid()
      modifies this, pool, interner
      ensures Made(old(Now()), NDecl, r) && Sited(old(Now()), r)
      ensures KindAt(inp, old(cursor)) != Eof ==> old(cursor) < cursor
      ensures Says(Got(old(Now()), r), ReadDecl(inp, old(cursor), old(structLitAllowed)))
      ensures Got(old(Now()), r) == TakeDecl(inp, old(cursor), old(structLitAllowed))
      decreases |inp.toks| - cursor, 17
    {
      hide NodePool.Valid, StringInterner.Valid, NodesOk, Made, Valid, Owned, Of, Grew, Fresh, Kept, AllOf,
           Documents, Sited, Placed, InOrder, Inside, AllNested, ReadDecl, DocEnd, DocTrees, Says, TakeFn,
           TakePlain, ReadFn, ReadItem, ReadPlain, TakeDecl, WithUnsafe, StartOf;
      InBounds();
      CleanDecl(inp, cursor, structLitAllowed);
      ghost var a := Now();
      var docs;
      ghost var dt;
      docs, dt := ParseDocComments();
      Undocument(a, docs, dt);
      ghost var b0 := Now();
      var isPub := Consume(KwPub);
      var flags := if isPub then PubFlag else 0;
      Moved(a, b0, Now());
      KeptMoved(b0, Now(), |a.trees|, docs, dt);
      Document(a, docs, dt);
      ghost var p := cursor;
      DeclTaken(inp, a.cur, a.sl, b0.cur, p, dt, flags);
      if Check(KwFn) || (Check(KwUnsafe) && PeekAt(1) == KwFn) {
        r := ParseFnItem(docs, flags, dt, a);
      } else {
        r := ParseItem(docs, flags, dt, a);
        Unmake(a, NDecl, r);
        PlacedWithin(a, p, r);
      }
    }

    // A function, behind `unsafe` or not.
    method ParseFnItem(docs: seq<NodeId>, flags: nat, ghost dt: seq<Tree>, ghost a: State) returns (r: NodeId)
      requires Documents(a, docs, dt) && (Check(KwFn) || (Check(KwUnsafe) && PeekAt(1) == KwFn))
      modifies this, pool, interner
      ensures Made(a, NDecl, r) && Sited(a, r) && old(cursor) < cursor && |old(errors)| <= |errors|
      ensures Since(|old(errors)|, r)
              == if KindAt(inp, old(cursor)) == KwFn then TakeFn(inp, old(cursor), On, flags, dt, a.sl)
                 else TakeFn(inp, old(cursor) + 1, On, WithUnsafe(flags), dt, a.sl)
      decreases |inp.toks| - cursor, 16
    {
      hide NodePool.Valid, StringInterner.Valid, NodesOk, Made, Valid, Owned, Of, Grew, Fresh, Kept, AllOf,
           Documents, Sited, Placed, InOrder, Inside, AllNested, TakeFn, ReadFn, WithUnsafe, StartOf, Says;
      var now := flags;
      Undocument(a, docs, dt);
      if Check(KwUnsafe) {
        ghost var b := Now();
        var _ := Advance();
        now := WithUnsafe(flags);
        Moved(a, b, Now());
        KeptMoved(b, Now(), |a.trees|, docs, dt);
        Document(a, docs, dt);
        Undocument(a, docs, dt);
      }
      ghost var q, top := cursor, Now();
      r := ParseFnDecl(docs, now, true, dt, a);
      Unmake(a, NMethod, r);
      MethodDecl(TreeOf(pool.trees, r));
      Remake(a, NDecl, r);
      PlacedWithin(a, q, r);
    }

    lemma Document(a: State, docs: seq<NodeId>, dt: seq<Tree>)
      requires Valid() && Grew(a, Now()) && Kept(Now(), |a.trees|, docs, dt) && AllOf(NDoc, dt)
      requires InOrder(inp.toks) ==> AllNested(dt)
      ensures Documents(a, docs, dt)
    {
    }

    // Any declaration but a function.
    method ParseItem(docs: seq<NodeId>, flags: nat, ghost dt: seq<Tree>, ghost a: State) returns (r: NodeId)
      requires Documents(a, docs, dt) && !Check(KwFn) && !(Check(KwUnsafe) && PeekAt(1) == KwFn)
      modifies this, pool, interner
      ensures Made(a, NDecl, r) && Placed(a, old(cursor), r) && old(cursor) <= cursor
      ensures KindAt(inp, old(cursor)) != Eof ==> old(cursor) < cursor
      ensures Says(Since(|old(errors)|, r), ReadPlain(inp, old(cursor), flags, dt, a.sl))
      ensures Since(|old(errors)|, r) == TakePlain(inp, old(cursor), flags, dt, a.sl)
      ensures |old(errors)| <= |errors|
      decreases |inp.toks| - cursor, 16
    {
      hide Made, Documents, Placed, ReadPlain, TakeConst, TakeMod, TakeNamed, TakeUse, TakeImpl, SyncFrom,
           ReadConst, ReadMod, ReadNamed, ReadUse, ReadImpl;
      Undocument(a, docs, dt);
      CleanPlain(inp, cursor, flags, dt, a.sl);
      var k := Peek();
      if k == KwUnsafe || k == KwConst { r := ParseConstDecl(docs, flags, dt, a); }
      else if k == KwMod { r := ParseModDecl(docs, flags, dt, a); }
      else if k == KwStruct { r := ParseMembersDecl(KwStruct, StructDecl, AField, docs, flags, dt, a); }
      else if k == KwEnum { r := ParseMembersDecl(KwEnum, EnumDecl, AVariant, docs, flags, dt, a); }
      else if k == KwUnion { r := ParseMembersDecl(KwUnion, UnionDecl, AField, docs, flags, dt, a); }
      else if k == KwUse { r := ParseUseDecl(docs, flags, dt, a); }
      else if k == KwTrait { r := ParseTraitDecl(docs, flags, dt, a); }
      else if k == KwImpl { r := ParseImplDecl(docs, flags, dt, a); }
      else { r := ParseNoDecl(docs, dt, a); }
    }

    // No declaration: up to two diagnostics, recovery, and an error node without the documentation.
    method ParseNoDecl(docs: seq<NodeId>, ghost dt: seq<Tree>, ghost a: State) returns (r: NodeId)
      requires Documents(a, docs, dt)
      modifies this, pool, interner
      ensures Made(a, NDecl, r) && Placed(a, old(cursor), r) && old(cursor) <= cursor && |old(errors)| < |errors|
      ensures KindAt(inp, old(cursor)) != Eof ==> old(cursor) < cursor
      ensures Since(|old(errors)|, r) == Wrong(inp, old(cursor), SyncFrom(inp, old(cursor)))
    {
      hide NodePool.Valid, StringInterner.Valid, NodesOk, Made, Valid, Owned, Of, Grew, Fresh, Kept, AllOf,
           Documents, Placed, Sited, ErrorNodes, SyncEnd, SyncFrom;
      Undocument(a, docs, dt);
      ghost var b := Now();
      var tok := PeekToken();
      if |docs| != 0 { AddError(tok.span, DocCommentNotAllowed); }
      AddError(tok.span, ExpectedTopLevelDecl);
      Synchronize();
      Moved(a, b, Now());
      ErrorsCount(a, b);
      r := MakeErrorNode(tok.span, a);
      ErrorOf(NDecl, TreeOf(pool.trees, r));
      Remake(a, NDecl, r);
      PlacedVacuous(a, b.cur, r);
    }

    method ParseFileDocComments() returns (docs: seq<NodeId>, ghost dt: seq<Tree>)
      requires Valid()
      modifies this, pool, interner
      ensures Valid() && Grew(old(Now()), Now()) && Kept(Now(), |old(pool.trees)|, docs, dt) && AllOf(NFileDoc, dt)
      ensures errors == old(errors)
      ensures old(cursor) == 0 && InOrder(inp.toks) ==> FileRow(inp, dt, cursor)
      ensures cursor == DocEnd(inp, old(cursor), FileDocCommentTok)
      ensures dt == DocTrees(inp, old(cursor), FileDocCommentTok, FileDocComment)
    {
      hide NodePool.Valid, StringInterner.Valid, NodesOk, Made, Valid, Owned, Of, Grew, Fresh, Kept, AllOf, InOrder,
           TokText, FileRow, DocEnd, DocTrees;
      ghost var a := Now();
      docs, dt := [], [];
      KeptNone(a, |a.trees|);
      Started(a, a);
      NoneOf(NFileDoc);
      FileRowNone(inp);
      while Check(FileDocCommentTok)
        invariant Valid() && Grew(a, Now()) && Kept(Now(), |a.trees|, docs, dt) && AllOf(NFileDoc, dt)
        invariant errors == a.errs && |a.trees| <= |pool.trees|
        invariant a.cur == 0 && InOrder(inp.toks) ==> FileRow(inp, dt, cursor)
        invariant DocEnd(inp, a.cur, FileDocCommentTok) == DocEnd(inp, cursor, FileDocCommentTok)
        invariant DocTrees(inp, a.cur, FileDocCommentTok, FileDocComment)
                  == dt + DocTrees(inp, cursor, FileDocCommentTok, FileDocComment)
        decreases |inp.toks| - cursor
      {
        ghost var p, dt0 := cursor, dt;
        InBounds();
        docs, dt := ParseDoc(FileDocComment, docs, dt, NFileDoc, a);
        if a.cur == 0 && InOrder(inp.toks) { FileDocPush(p, dt[|dt0|], dt0); }
        DocStep(inp, p, FileDocCommentTok, FileDocComment);
      }
      DocStop(inp, cursor, FileDocCommentTok, FileDocComment);
    }

    lemma FileDocPush(pos: nat, t: Tree, dt: seq<Tree>)
      requires InOrder(inp.toks) && pos < |inp.toks| && FileRow(inp, dt, pos)
      requires t.Tree? && t == Leaf(FileDocComment, TokenAt(inp, pos).span, t.payload)
      ensures FileRow(inp, dt + [t], pos + 1)
    {
      hide InOrder, Inside, FileRow;
      LeafInside(inp, FileDocComment, t.payload, pos, pos + 1, pos + 1);
      FileRowPush(inp, dt, pos, t, pos + 1);
    }

    /** The whole file: every declaration up to the end of the tokens, whatever they are. */
    method ParseSourceFile() returns (r: NodeId, ghost xs: seq<Out>)
      requires Valid() && cursor == 0
      modifies this, pool, interner
      ensures Valid() && AtEof() && Grew(old(Now()), Now()) && Fresh(old(Now()), Now(), r)
      ensures TreeOf(pool.trees, r).Tree? && TreeOf(pool.trees, r).kind == SourceFile
      ensures |errors| == |old(errors)| && InOrder(inp.toks) ==> Nested(TreeOf(pool.trees, r))
      ensures Says(Got(old(Now()), r), ReadFile(inp, old(structLitAllowed)))
      ensures Got(old(Now()), r) == TakeFile(inp, old(structLitAllowed))
      ensures |old(errors)| <= |errors|
              && FileCuts(inp, old(structLitAllowed), xs, TreeOf(pool.trees, r), |errors| - |old(errors)|)
    {
      hide NodePool.Valid, StringInterner.Valid, NodesOk, Made, Valid, Owned, Of, Grew, Fresh, Kept, AllOf, Stores,
           Shaped, Sited, InOrder, Inside, FileRow, Nested, ReadFile, DocEnd, DocTrees, Says, TakeDecls, TakeDecl,
           DeclsTaken, ReadDecls, ReadDecl, SaysAll, FileSoFar, FileCuts;
      CleanFile(inp, structLitAllowed);
      ghost var a := Now();
      InBounds();
      var startOfFile := PeekToken().span;
      var ids;
      ghost var fd, ds := [], [];
      ids, fd := ParseFileDocComments();
      NoneOf(NDecl);
      assert fd + [] == fd;
      GrewFacts(a, Now());
      ghost var p0 := cursor;
      InBounds();
      DeclsTakenStart(inp, p0, Off, a.sl);
      xs := [];
      FileStart(inp, p0, a.sl);
      while !AtEof()
        invariant Valid() && Grew(a, Now()) && Kept(Now(), |a.trees|, ids, fd + ds) && AllOf(NDecl, ds)
        invariant |a.trees| <= |pool.trees|
        invariant |errors| == |a.errs| && InOrder(inp.toks) ==> FileRow(inp, fd + ds, cursor)
        invariant |a.errs| <= |errors| && structLitAllowed == a.sl
        invariant DeclsTaken(inp, p0, Off, a.sl, ListOut(|errors| == |a.errs|, cursor, ds))
        invariant FileSoFar(inp, p0, a.sl, xs, ListOut(|errors| == |a.errs|, cursor, ds), |errors| - |a.errs|)
        decreases |inp.toks| - cursor
      {
        InBounds();
        ghost var b := Now();
        GrewFacts(a, b);
        var d := ParseTopLevelDecl();
        Unmake(b, NDecl, d);
        GrewTrans(a, b, Now());
        KeptPush(b, Now(), |a.trees|, ids, fd + ds, d);
        ghost var t := TreeOf(pool.trees, d);
        if |errors| == |a.errs| && InOrder(inp.toks) {
          SitedInside(b, d);
          FileRowPush(inp, fd + ds, b.cur, t, cursor);
        }
        assert fd + ds + [t] == fd + (ds + [t]);
        AllOfSnoc(NDecl, ds, t);
        DeclsTakenStep(inp, p0, Off, a.sl, ListOut(|b.errs| == |a.errs|, b.cur, ds), Got(b, d));
        FileStep(inp, p0, a.sl, xs, ListOut(|b.errs| == |a.errs|, b.cur, ds), |b.errs| - |a.errs|, Got(b, d),
                 |errors| - |a.errs|);
        ids, ds, xs := ids + [d], ds + [t], xs + [Got(b, d)];
      }
      DeclsTakenExit(inp, p0, Off, a.sl, ListOut(|errors| == |a.errs|, cursor, ds));
      InBounds();
      var endOfFile := Previous().span;
      StoresZero(interner.strings);
      ShapeModule(SourceFile, Zero, NFileDoc, fd, ds);
      if |errors| == |a.errs| && InOrder(inp.toks) { FileNested(fd + ds); }
      r := Alloc(SourceFile, Span(startOfFile.start, endOfFile.end), ids, 0, 0, Zero, fd + ds, a);
      FreshFacts(a, Now(), r);
      FileEnd(inp, a.sl, xs, ListOut(|errors| == |a.errs|, cursor, ds), |errors| - |a.errs|, TreeOf(pool.trees, r));
    }

    lemma FileNested(kids: seq<Tree>)
      requires InOrder(inp.toks) && cursor <= |inp.toks| && FileRow(inp, kids, cursor)
      ensures Nested(Tree(SourceFile, Span(StartOf(inp, 0), Previous().span.end), Zero, 0, kids))
    {
      if cursor == 0 {
        if 0 < |inp.toks| { TokenOrder(inp, 0, 0); }
      } else {
        ChainBounds(kids, StartOf(inp, 0), EndOf(inp, cursor - 1));
      }
    }

    /** Parsing any token stream terminates, builds a pool that is a forest of well-laid-out nodes
        with the source file as its newest node, and accounts for every error node by a diagnostic: a
        parse without diagnostics built none, and all its nodes nest as the source does. There are
        no diagnostics exactly when the tokens read as a file, and then the root is the tree they
        stand for. */
    static method Parse(inp: Input, interner: StringInterner) returns (pool: NodePool, root: NodeId, errors: seq<Diag>)
      requires interner.Valid()
      modifies interner
      ensures interner.Valid() && fresh(pool) && pool.Valid() && Extends(old(interner.strings), interner.strings)
      ensures NodesOk(pool.nodes, pool.trees, interner.strings)
      ensures 0 < root < |pool.trees| && pool.trees[root].Tree? && pool.trees[root].kind == SourceFile
      ensures root !in Owned(pool.children)
      ensures ErrorNodes(pool.trees) <= |errors|
      ensures errors == [] ==> forall i :: 0 < i < |pool.trees| ==> pool.trees[i].Tree? && pool.trees[i].kind != Error
      ensures errors == [] && InOrder(inp.toks) ==> Nested(pool.trees[root])
      ensures errors == [] <==> ReadFile(inp, On).Read?
      ensures errors == [] ==> pool.trees[root] == ReadFile(inp, On).tree
      ensures pool.trees[root] == TakeFile(inp, On).tree && (errors == [] <==> TakeFile(inp, On).ok)
      ensures exists xs :: FileCuts(inp, On, xs, pool.trees[root], |errors|)
    {
      hide ReadFile, TakeFile, FileCuts, Nested, Grew, Fresh, NodePool.Valid, StringInterner.Valid, NodesOk, Owned,
           ErrorNodes;
      pool := new NodePool();
      SentinelOk(interner.strings);
      var p := new Parser(inp, pool, interner);
      ghost var a := p.Now();
      ghost var xs;
      root, xs := p.ParseSourceFile();
      FreshFacts(a, p.Now(), root);
      Accounted(a, p.Now(), root);
      errors := p.errors;
      if errors == [] {
        Sizes(pool);
        NoErrorNodes(pool.trees);
      }
    }
  }

  // What a parse from scratch comes to.
  lemma Accounted(a: State, b: State, root: NodeId)
    requires Grew(a, b) && Fresh(a, b, root) && |a.trees| == 1 && a.errs == []
    ensures root !in b.owned && ErrorNodes(b.trees) <= |b.errs| && Extends(a.strs, b.strs)
  {
  }

  lemma NoErrorNodes(trees: seq<Tree>)
    requires ErrorNodes(trees) == 0 && forall i :: 0 <= i < |trees| ==> trees[i].Tree?
    ensures forall i :: 0 < i < |trees| ==> trees[i].kind != Error
  {
    hide ErrorNodes;
    forall i | 0 < i < |trees| ensures trees[i].kind != Error { NoErrorNode(trees, i); }
  }

  lemma NodesOkAppend(nodes: seq<NodeData>, trees: seq<Tree>, strs: seq<string>, nodes1: seq<NodeData>,
                      trees1: seq<Tree>)
    requires NodesOk(nodes, trees, strs) && |nodes1| == |trees1| == |trees| + 1 == |nodes| + 1
    requires nodes <= nodes1 && trees <= trees1
    requires NodeOk(nodes1[|nodes|].payload, trees1[|nodes|], strs)
    ensures NodesOk(nodes1, trees1, strs)
  {
    hide NodeOk;
    forall i | 0 <= i < |trees1| ensures NodeOk(nodes1[i].payload, trees1[i], strs) {
      if i < |trees| { assert trees1[i] == trees[i] && nodes1[i] == nodes[i]; }
    }
  }

  lemma ErrorNodeOk(s: Span, strs: seq<string>)
    ensures NodeOk(0, Tree(Error, s, Zero, 0, []), strs)
  {
  }

  lemma OperatorNotEof(k: Kind)
    requires LeftPower(k) >= 0
    ensures k != Eof && RightPower(k) >= 0
  {
  }

  function SortOf(e: Elem): Sort {
    match e
    case AType => NType
    case APat => NPat
    case AFieldPat => NFieldPat
    case AFieldInit => NFieldInit
    case AConst => NExpr
    case AField => NField
    case AVariant => NVariant
  }

  lemma SameModulo(x: nat, y: nat)
    ensures (x + y) % 0x1_0000 == x % 0x1_0000 <==> y % 0x1_0000 == 0
  {
  }

  // Real trees, and no error node unless a diagnostic was recorded.
  ghost predicate OkTrees(o: ListOut) {
    forall j :: 0 <= j < |o.trees| ==> o.trees[j].Tree? && (o.ok ==> o.trees[j].kind != Error)
  }

  lemma OpensExpr(k: Kind)
    requires IsExprStmtStart(k)
    ensures !IsSync(k) && k != Eof
  {
  }

  // Documentation in front of the token at `pos`, as a row of children from there on.
  lemma DocsRow(inp: Input, dt: seq<Tree>, pos: nat, end: nat)
    requires InOrder(inp.toks) && AllNested(dt) && AllOf(NDoc, dt) && pos < end <= |inp.toks|
    ensures Row(inp, dt, StartOf(inp, pos), end)
  {
    hide InOrder, AllNested;
    TokenOrder(inp, pos, end - 1);
    DocsChain(dt, StartOf(inp, pos), EndOf(inp, end - 1));
  }

  function SortIn(e: DeclItem): Sort {
    match e
    case DField => NField
    case DVariant => NVariant
    case DGeneric => NGeneric
    case DParam => NParam
  }

  // The declarations with a list of members, and what the members are.
  predicate HasMembers(kind: NodeKind, s: Sort) {
    || (kind == StructDecl && s == NField) || (kind == UnionDecl && s == NField)
    || (kind == EnumDecl && s == NVariant) || (kind == TraitDecl && s == NSignature)
  }

  // What a clean element call builds lies inside the tokens it read.
  lemma ElemInside(inp: Input, pos: nat, c: Class, sl: Switch, o: Out)
    requires Agrees(inp, pos, o, RunElem(inp, pos, c, sl)) && o.ok && InOrder(inp.toks)
    ensures Inside(inp, o.tree, pos, o.end)
  {
    hide M, Ast, WF, RunElem, Inside, InOrder;
    SoundElem(inp, pos, c, sl);
    ClassPresent(c, RunElem(inp, pos, c, sl).syn);
    AstInside(inp, pos, RunElem(inp, pos, c, sl).syn, o.end, sl);
  }

  lemma SentinelOk(strs: seq<string>)
    ensures NodesOk([NodeData(Error, 0, 0, 0, 0)], [Tree(Error, Span(0, 0), Zero, 0, [])], strs)
  {
    ErrorNodeOk(Span(0, 0), strs);
  }

  lemma NoErrorNode(trees: seq<Tree>, i: nat)
    requires 0 < i < |trees| && ErrorNodes(trees) == 0 && trees[i].Tree?
    ensures trees[i].kind != Error
    decreases |trees|
  {
    if i < |trees| - 1 { NoErrorNode(trees[..|trees| - 1], i); }
  }
}
