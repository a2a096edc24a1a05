/** Source ranges of the nodes of an error-free parse: nested, ordered and disjoint. */
module Geometry {
  import opened Tokens
  import opened Trees
  import opened Grammar
  import opened Spelling

  // A child that is absent, or documentation, which stands in front of the node it belongs to.
  predicate Aside(t: Tree) { t.NullTree? || t.kind == DocComment }

  /** Every node below `t` has a proper range inside that of its parent, and siblings are disjoint
      and in source order. */
  predicate Nested(t: Tree)
    decreases t, 0
  {
    t.Tree? ==> t.span.start <= t.span.end && Chain(t.kids, t.span.start, t.span.end)
  }

  // Siblings between two offsets.
  predicate Chain(kids: seq<Tree>, lo: nat, hi: nat)
    decreases kids, 1
  {
    if kids == [] then lo <= hi else
    var last := kids[|kids| - 1];
    && Nested(last)
    && (if Aside(last) then Chain(kids[..|kids| - 1], lo, hi)
        else last.span.end <= hi && Chain(kids[..|kids| - 1], lo, last.span.start))
  }

  // `t` lies inside the tokens from `pos` up to `end`.
  ghost predicate Inside(inp: Input, t: Tree, pos: nat, end: nat) {
    && t.Tree? && t.kind != DocComment && pos < end <= |inp.toks|
    && Nested(t) && StartOf(inp, pos) <= t.span.start && t.span.end <= EndOf(inp, end - 1)
  }

  // The siblings `kids` start behind offset `lo` and end before token `end`.
  ghost predicate Row(inp: Input, kids: seq<Tree>, lo: nat, end: nat) {
    0 < end <= |inp.toks| && Chain(kids, lo, EndOf(inp, end - 1))
  }

  lemma TokenOrder(inp: Input, i: nat, j: nat)
    requires InOrder(inp.toks) && i <= j < |inp.toks|
    ensures StartOf(inp, i) <= EndOf(inp, i) <= EndOf(inp, j) && StartOf(inp, i) <= StartOf(inp, j)
    ensures i < j ==> EndOf(inp, i) <= StartOf(inp, j)
  {
    assert inp.toks[i].span.start <= inp.toks[i].span.end && inp.toks[j].span.start <= inp.toks[j].span.end;
  }

  lemma ChainWiden(kids: seq<Tree>, lo: nat, hi: nat, hi1: nat)
    requires Chain(kids, lo, hi) && hi <= hi1
    ensures Chain(kids, lo, hi1)
    decreases |kids|
  {
    if kids != [] && Aside(kids[|kids| - 1]) { ChainWiden(kids[..|kids| - 1], lo, hi, hi1); }
  }

  lemma ChainBounds(kids: seq<Tree>, lo: nat, hi: nat)
    requires Chain(kids, lo, hi)
    ensures lo <= hi
    decreases |kids|
  {
    if kids != [] {
      if Aside(kids[|kids| - 1]) { ChainBounds(kids[..|kids| - 1], lo, hi); }
      else { ChainBounds(kids[..|kids| - 1], lo, kids[|kids| - 1].span.start); }
    }
  }

  lemma ChainPush(kids: seq<Tree>, lo: nat, hi: nat, t: Tree, hi1: nat)
    requires Chain(kids, lo, hi) && Nested(t) && hi <= hi1
    requires !Aside(t) ==> hi <= t.span.start && t.span.end <= hi1
    ensures Chain(kids + [t], lo, hi1)
  {
    assert (kids + [t])[..|kids|] == kids;
    if Aside(t) { ChainWiden(kids, lo, hi, hi1); } else { ChainWiden(kids, lo, hi, t.span.start); }
  }

  lemma {:induction false} ChainCat(a: seq<Tree>, b: seq<Tree>, lo: nat, mid: nat, hi: nat)
    requires Chain(a, lo, mid) && Chain(b, mid, hi)
    ensures Chain(a + b, lo, hi)
    decreases |b|
  {
    if b == [] {
      assert a + b == a;
      ChainWiden(a, lo, mid, hi);
    } else {
      var t := b[|b| - 1];
      assert (a + b)[..|a + b| - 1] == a + b[..|b| - 1];
      ChainCat(a, b[..|b| - 1], lo, mid, if Aside(t) then hi else t.span.start);
    }
  }

  /////////////////////////// rows ///////////////////////////

  lemma RowEmpty(inp: Input, pos: nat)
    requires InOrder(inp.toks) && pos < |inp.toks|
    ensures Row(inp, [], StartOf(inp, pos), pos + 1)
  {
    TokenOrder(inp, pos, pos);
  }

  lemma ChainLower(kids: seq<Tree>, lo: nat, hi: nat, lo1: nat)
    requires Chain(kids, lo, hi) && lo1 <= lo
    ensures Chain(kids, lo1, hi)
    decreases |kids|
  {
    if kids != [] {
      var last := kids[|kids| - 1];
      if Aside(last) { ChainLower(kids[..|kids| - 1], lo, hi, lo1); } else {
        ChainLower(kids[..|kids| - 1], lo, last.span.start, lo1);
      }
    }
  }

  lemma RowLower(inp: Input, kids: seq<Tree>, lo: nat, lo1: nat, end: nat)
    requires Row(inp, kids, lo, end) && lo1 <= lo
    ensures Row(inp, kids, lo1, end)
  {
    ChainLower(kids, lo, EndOf(inp, end - 1), lo1);
  }

  // One more sibling, between the tokens read before it and those read now.
  lemma RowPush(inp: Input, kids: seq<Tree>, lo: nat, end: nat, t: Tree, pos: nat, end1: nat)
    requires InOrder(inp.toks) && Row(inp, kids, lo, end) && end <= pos && Inside(inp, t, pos, end1)
    ensures Row(inp, kids + [t], lo, end1)
  {
    TokenOrder(inp, end - 1, pos);
    TokenOrder(inp, end - 1, end1 - 1);
    ChainPush(kids, lo, EndOf(inp, end - 1), t, EndOf(inp, end1 - 1));
  }

  lemma RowWiden(inp: Input, kids: seq<Tree>, lo: nat, end: nat, end1: nat)
    requires InOrder(inp.toks) && Row(inp, kids, lo, end) && end <= end1 <= |inp.toks|
    ensures Row(inp, kids, lo, end1)
  {
    TokenOrder(inp, end - 1, end1 - 1);
    ChainWiden(kids, lo, EndOf(inp, end - 1), EndOf(inp, end1 - 1));
  }

  // A node over a row of siblings.
  lemma RowNode(inp: Input, kind: NodeKind, p: Payload, flags: nat, kids: seq<Tree>, pos: nat, end: nat, start: nat,
                stop: nat)
    requires InOrder(inp.toks) && Chain(kids, start, stop) && pos < end <= |inp.toks| && kind != DocComment
    requires StartOf(inp, pos) <= start && stop <= EndOf(inp, end - 1)
    ensures Inside(inp, Tree(kind, Span(start, stop), p, flags, kids), pos, end)
  {
    ChainBounds(kids, start, stop);
  }

  ghost predicate AllNested(kids: seq<Tree>) { forall j :: 0 <= j < |kids| ==> Nested(kids[j]) }

  // Documentation alone makes a row anywhere.
  lemma DocsChain(docs: seq<Tree>, lo: nat, hi: nat)
    requires lo <= hi && AllNested(docs) && forall j :: 0 <= j < |docs| ==> Aside(docs[j])
    ensures Chain(docs, lo, hi)
    decreases |docs|
  {
    if docs != [] { DocsChain(docs[..|docs| - 1], lo, hi); }
  }

  lemma RowChain(inp: Input, kids: seq<Tree>, lo: nat, end: nat)
    requires Row(inp, kids, lo, end)
    ensures 0 < end <= |inp.toks| && Chain(kids, lo, EndOf(inp, end - 1))
  {
  }

  lemma RowFirst(inp: Input, t: Tree, pos: nat, end: nat)
    requires InOrder(inp.toks) && Inside(inp, t, pos, end)
    ensures Row(inp, [t], t.span.start, end)
  {
    ChainPush([], t.span.start, t.span.start, t, EndOf(inp, end - 1));
    assert [] + [t] == [t];
  }

  lemma RowCat(inp: Input, a: seq<Tree>, lo: nat, mid: nat, b: seq<Tree>, pos: nat, end: nat)
    requires InOrder(inp.toks) && Row(inp, a, lo, mid) && mid <= pos <= |inp.toks|
    requires Row(inp, b, EndOf(inp, pos - 1), end)
    ensures Row(inp, a + b, lo, end)
  {
    TokenOrder(inp, mid - 1, pos - 1);
    ChainBounds(b, EndOf(inp, pos - 1), EndOf(inp, end - 1));
    ChainWiden(a, lo, EndOf(inp, mid - 1), EndOf(inp, pos - 1));
    ChainCat(a, b, lo, EndOf(inp, pos - 1), EndOf(inp, end - 1));
  }

  lemma ChainTight(kids: seq<Tree>, lo: nat, hi: nat)
    requires kids != [] && !Aside(kids[|kids| - 1]) && Chain(kids, lo, hi)
    ensures Chain(kids, lo, kids[|kids| - 1].span.end)
  {
  }

  // A node that ends where its last child ends.
  lemma TightNode(inp: Input, kind: NodeKind, p: Payload, kids: seq<Tree>, pos: nat, end: nat, start: nat)
    requires InOrder(inp.toks) && kids != [] && !Aside(kids[|kids| - 1]) && kind != DocComment
    requires Row(inp, kids, start, end) && pos < end && StartOf(inp, pos) <= start
    ensures Inside(inp, Tree(kind, Span(start, kids[|kids| - 1].span.end), p, 0, kids), pos, end)
  {
    ChainTight(kids, start, EndOf(inp, end - 1));
    RowNode(inp, kind, p, 0, kids, pos, end, start, kids[|kids| - 1].span.end);
  }

  // A node that ends with its last token.
  lemma WideNode(inp: Input, kind: NodeKind, p: Payload, kids: seq<Tree>, pos: nat, mid: nat, end: nat, start: nat)
    requires InOrder(inp.toks) && kind != DocComment
    requires Row(inp, kids, start, mid) && mid <= end <= |inp.toks| && pos < end && StartOf(inp, pos) <= start
    ensures Inside(inp, Node(kind, start, EndOf(inp, end - 1), p, kids), pos, end)
  {
    RowWiden(inp, kids, start, mid, end);
    RowNode(inp, kind, p, 0, kids, pos, end, start, EndOf(inp, end - 1));
  }

  lemma LeafInside(inp: Input, kind: NodeKind, p: Payload, pos: nat, mid: nat, end: nat)
    requires InOrder(inp.toks) && pos < mid <= end <= |inp.toks| && kind != DocComment
    ensures Inside(inp, Leaf(kind, Span(StartOf(inp, pos), EndOf(inp, mid - 1)), p), pos, end)
  {
    TokenOrder(inp, pos, mid - 1);
    TokenOrder(inp, mid - 1, end - 1);
  }

  // The declarations of a file up to token `end`; a file may hold none.
  ghost predicate FileRow(inp: Input, kids: seq<Tree>, end: nat) {
    if end == 0 then kids == [] else Row(inp, kids, StartOf(inp, 0), end)
  }

  lemma FileRowNone(inp: Input)
    ensures FileRow(inp, [], 0)
  {
  }

  lemma FileRowPush(inp: Input, kids: seq<Tree>, end: nat, t: Tree, end1: nat)
    requires InOrder(inp.toks) && FileRow(inp, kids, end) && Inside(inp, t, end, end1)
    ensures FileRow(inp, kids + [t], end1)
  {
    hide InOrder, Nested, Chain;
    if end == 0 {
      RowFirst(inp, t, 0, end1);
      RowLower(inp, [t], t.span.start, StartOf(inp, 0), end1);
      assert [] + [t] == [t];
    } else {
      RowPush(inp, kids, StartOf(inp, 0), end, t, end, end1);
    }
  }

  /////////////////////////// every tree of the grammar ///////////////////////////

  lemma AstForms(inp: Input, pos: nat, s: Syn, end: nat, sl: Switch)
    requires M(inp, pos, s) == end && WF(s, sl)
    ensures s.Ty? ==>
            WFType(s.t, sl) && MType(inp, pos, s.t) == end
            && Ast(inp, pos, s) == AstType(inp, pos, EndOf(inp, end - 1), s.t)
    ensures s.Pt? ==>
            WFPat(s.p, sl) && MPat(inp, pos, s.p) == end
            && Ast(inp, pos, s) == AstPat(inp, pos, EndOf(inp, end - 1), s.p)
    ensures s.Fl? ==> MField(inp, pos, s.f) == end && Ast(inp, pos, s) == AstField(inp, pos, s.f)
    ensures s.Ex? && IsTail(s.e) ==>
            WFExpr(s.e, sl) && MTail(inp, pos, s.e) == end
            && Ast(inp, pos, s) == AstTail(inp, pos, EndOf(inp, end - 1), s.e)
    ensures s.Ex? && !IsTail(s.e) ==>
            WFExpr(s.e, sl) && MExpr(inp, pos, s.e) == end
            && Ast(inp, pos, s) == AstExpr(inp, pos, EndOf(inp, end - 1), s.e)
    ensures s.St? ==>
            WFStmt(s.s, sl) && MStmt(inp, pos, s.s) == end
            && Ast(inp, pos, s) == AstStmt(inp, pos, EndOf(inp, end - 1), s.s)
  {
    hide MType, MPat, MField, MTail, MExpr, MStmt, AstType, AstPat, AstField, AstTail, AstExpr, AstStmt, WFType,
         WFPat, WFExpr, WFStmt;
  }

  /** The tree of any well-formed syntax, spelled by tokens in order, is nested and lies inside
      those tokens. */
  lemma {:induction false} AstInside(inp: Input, pos: nat, s: Syn, end: nat, sl: Switch)
    requires InOrder(inp.toks) && M(inp, pos, s) == end && WF(s, sl) && !s.Absent?
    ensures Inside(inp, Ast(inp, pos, s), pos, end)
    decreases s, 1
  {
    hide InOrder, Inside, M, Ast, WF, MType, MPat, MField, MTail, MExpr, MStmt, AstType, AstPat, AstField, AstTail,
         AstExpr, AstStmt, WFType, WFPat, WFExpr, WFStmt;
    AstForms(inp, pos, s, end, sl);
    match s
    case Ty(t) => InsideType(inp, pos, t, end, sl);
    case Pt(p) => InsidePat(inp, pos, p, end, sl);
    case Fl(f) => InsideField(inp, pos, f, end, sl);
    case Ex(e) => if IsTail(e) { InsideTail(inp, pos, e, end, sl); } else { InsideExpr(inp, pos, e, end, sl); }
    case Ar(p, v, _) => InsideArm(inp, pos, s, end, sl);
    case St(st) => InsideStmt(inp, pos, st, end, sl);
  }

  // A part of a production, ready to be placed in a row.
  lemma {:induction false} Part(inp: Input, pos: nat, s: Syn, sl: Switch) returns (end: nat, t: Tree)
    requires InOrder(inp.toks) && M(inp, pos, s) >= 0 && WF(s, sl) && !s.Absent?
    ensures end == M(inp, pos, s) && t == Ast(inp, pos, s) && Inside(inp, t, pos, end)
    ensures t.Tree? && !Aside(t) && pos < end <= |inp.toks| && StartOf(inp, pos) <= t.span.start
    decreases s, 2
  {
    hide InOrder, Nested, M, Ast, WF;
    end := M(inp, pos, s);
    t := Ast(inp, pos, s);
    AstInside(inp, pos, s, end, sl);
  }

  // Two parts, the first of which opens the node.
  lemma PairRow(inp: Input, t: Tree, pos: nat, q: nat, u: Tree, pos1: nat, end: nat)
    requires InOrder(inp.toks) && Inside(inp, t, pos, q) && q <= pos1 && Inside(inp, u, pos1, end)
    ensures Row(inp, [t, u], t.span.start, end)
  {
    hide InOrder, Nested, Chain;
    RowFirst(inp, t, pos, q);
    RowPush(inp, [t], t.span.start, q, u, pos1, end);
    assert [t] + [u] == [t, u];
  }

  // Parts behind the token at `pos` that opens the node.
  lemma OpenRow1(inp: Input, pos: nat, t: Tree, pos1: nat, q: nat)
    requires InOrder(inp.toks) && pos < pos1 && Inside(inp, t, pos1, q)
    ensures Row(inp, [t], StartOf(inp, pos), q)
  {
    hide InOrder, Nested, Chain;
    RowEmpty(inp, pos);
    RowPush(inp, [], StartOf(inp, pos), pos + 1, t, pos1, q);
    assert [] + [t] == [t];
  }

  lemma OpenRow2(inp: Input, pos: nat, t: Tree, pos1: nat, q: nat, u: Tree, pos2: nat, end: nat)
    requires InOrder(inp.toks) && pos < pos1 && Inside(inp, t, pos1, q) && q <= pos2 && Inside(inp, u, pos2, end)
    ensures Row(inp, [t, u], StartOf(inp, pos), end)
  {
    hide InOrder, Nested, Chain;
    OpenRow1(inp, pos, t, pos1, q);
    RowPush(inp, [t], StartOf(inp, pos), q, u, pos2, end);
    assert [t] + [u] == [t, u];
  }

  // A row behind the opening token.
  lemma OpenRowAll(inp: Input, pos: nat, kids: seq<Tree>, pos1: nat, end: nat)
    requires InOrder(inp.toks) && pos < pos1 <= |inp.toks| && Row(inp, kids, EndOf(inp, pos1 - 1), end)
    ensures Row(inp, kids, StartOf(inp, pos), end)
  {
    hide InOrder, Nested, Chain;
    ChainBounds(kids, EndOf(inp, pos1 - 1), EndOf(inp, end - 1));
    RowInside(inp, pos, pos1, kids, end);
  }

  lemma RowInside(inp: Input, pos: nat, pos1: nat, kids: seq<Tree>, end: nat)
    requires InOrder(inp.toks) && pos < pos1 <= |inp.toks| && Row(inp, kids, EndOf(inp, pos1 - 1), end)
    ensures Row(inp, kids, StartOf(inp, pos), end)
  {
    hide InOrder, Nested, Chain;
    RowEmpty(inp, pos);
    RowCat(inp, [], StartOf(inp, pos), pos + 1, kids, pos1, end);
    assert [] + kids == kids;
  }

  lemma {:induction false} InsideArm(inp: Input, pos: nat, s: Syn, end: nat, sl: Switch)
    requires InOrder(inp.toks) && s.Ar? && M(inp, pos, s) == end && WF(s, sl)
    ensures Inside(inp, Ast(inp, pos, s), pos, end)
    decreases s, 0
  {
    hide InOrder, Inside, Nested, Chain, AstType, AstPat, AstField, AstTail, AstExpr, AstStmt, MType, MPat, MExpr,
         MField, MStmt, MTail, WFType, WFPat, WFExpr, WFStmt;
    var q, t := Part(inp, pos, s.pat, sl);
    var z, u := Part(inp, q + 1, s.val, sl);
    PairRow(inp, t, pos, q, u, q + 1, z);
    RowWiden(inp, [t, u], t.span.start, z, end);
    TightNode(inp, MatchArm, Zero, [t, u], pos, end, t.span.start);
  }

  lemma ClassPresent(c: Class, s: Syn)
    requires InClass(c, s)
    ensures !s.Absent?
  {
  }

  // The items that follow a token.
  lemma {:induction false} ItemsRow(inp: Input, pos: nat, l: Syns, trail: Switch, end: nat, c: Class, sl: Switch)
    requires InOrder(inp.toks) && 0 < pos <= |inp.toks| && MItems(inp, pos, l, trail) == end && WFAll(c, l, sl)
    ensures Row(inp, AstItems(inp, pos, l), EndOf(inp, pos - 1), end)
    decreases l, 2
  {
    hide InOrder, Inside, Nested, Chain, M, Ast, WF, InClass;
    if l.Cons? {
      ClassPresent(c, l.hd);
      var q, t := Part(inp, pos, l.hd, sl);
      MoreRow(inp, q, l.tl, trail, end, c, sl);
      RowUnit(inp, t, pos, pos, q);
      RowCat(inp, [t], EndOf(inp, pos - 1), q, AstMore(inp, q, l.tl), q, end);
    } else {
      RowNone(inp, pos);
    }
  }

  lemma RowNone(inp: Input, pos: nat)
    requires 0 < pos <= |inp.toks|
    ensures Row(inp, [], EndOf(inp, pos - 1), pos)
  {
  }

  // One sibling after token `before - 1`.
  lemma RowUnit(inp: Input, t: Tree, before: nat, pos: nat, end: nat)
    requires InOrder(inp.toks) && 0 < before <= pos && Inside(inp, t, pos, end)
    ensures Row(inp, [t], EndOf(inp, before - 1), end)
  {
    hide InOrder, Nested, Chain;
    RowNone(inp, before);
    RowPush(inp, [], EndOf(inp, before - 1), before, t, pos, end);
    assert [] + [t] == [t];
  }

  lemma {:induction false} MoreRow(inp: Input, pos: nat, l: Syns, trail: Switch, end: nat, c: Class, sl: Switch)
    requires InOrder(inp.toks) && 0 < pos <= |inp.toks| && MMore(inp, pos, l, trail) == end && WFAll(c, l, sl)
    ensures Row(inp, AstMore(inp, pos, l), EndOf(inp, pos - 1), end)
    decreases l, 2
  {
    hide InOrder, Inside, Nested, Chain, M, Ast, WF, InClass;
    if l.Cons? {
      ClassPresent(c, l.hd);
      var q, t := Part(inp, pos + 1, l.hd, sl);
      MoreRow(inp, q, l.tl, trail, end, c, sl);
      RowUnit(inp, t, pos, pos + 1, q);
      RowCat(inp, [t], EndOf(inp, pos - 1), q, AstMore(inp, q, l.tl), q, end);
    } else {
      RowNone(inp, pos);
      RowWiden(inp, [], EndOf(inp, pos - 1), pos, end);
    }
  }

  lemma {:induction false} StmtsRow(inp: Input, pos: nat, l: Syns, end: nat, sl: Switch)
    requires InOrder(inp.toks) && 0 < pos <= |inp.toks| && MSeq(inp, pos, l) == end && WFStmts(l, sl)
    ensures Row(inp, AstSeq(inp, pos, l), EndOf(inp, pos - 1), end)
    decreases l, 2
  {
    hide InOrder, Inside, Nested, Chain, M, Ast, WF;
    if l.Cons? {
      var q, t := Part(inp, pos, l.hd, sl);
      StmtsRow(inp, q, l.tl, end, sl);
      RowUnit(inp, t, pos, pos, q);
      RowCat(inp, [t], EndOf(inp, pos - 1), q, AstSeq(inp, q, l.tl), q, end);
    } else {
      RowNone(inp, pos);
    }
  }

  lemma {:induction false} ArmsRow(inp: Input, pos: nat, l: Syns, end: nat, sl: Switch)
    requires InOrder(inp.toks) && 0 < pos <= |inp.toks| && MSeq(inp, pos, l) == end && WFArms(l, sl)
    ensures Row(inp, AstSeq(inp, pos, l), EndOf(inp, pos - 1), end)
    decreases l, 2
  {
    hide InOrder, Inside, Nested, Chain, M, Ast, WF;
    if l.Cons? {
      var q, t := Part(inp, pos, l.hd, sl);
      ArmsRow(inp, q, l.tl, end, sl);
      RowUnit(inp, t, pos, pos, q);
      RowCat(inp, [t], EndOf(inp, pos - 1), q, AstSeq(inp, q, l.tl), q, end);
    } else {
      RowNone(inp, pos);
    }
  }

  // A bracketed list as the children of a node that starts at `start`.
  lemma {:induction false} ListNode(inp: Input, kind: NodeKind, p: Payload, start: nat, pos: nat, open: Kind, l: Syns,
                                    trail: Switch, close: Kind, end: nat, c: Class, sl: Switch)
    requires InOrder(inp.toks) && start <= pos && Enclosed(inp, pos, open, l, trail, close) == end && WFAll(c, l, sl)
    requires kind != DocComment
    ensures Inside(inp, Node(kind, StartOf(inp, start), EndOf(inp, end - 1), p, AstItems(inp, pos + 1, l)), start, end)
    decreases l, 3
  {
    hide InOrder, Inside, Nested, Chain, Row, MItems, AstItems;
    ItemsRow(inp, pos + 1, l, trail, end - 1, c, sl);
    OpenRowAll(inp, start, AstItems(inp, pos + 1, l), pos + 1, end - 1);
    WideNode(inp, kind, p, AstItems(inp, pos + 1, l), start, end - 1, end, StartOf(inp, start));
  }

  lemma {:induction false} InsideType(inp: Input, pos: nat, t: TypeForm, end: nat, sl: Switch)
    requires InOrder(inp.toks) && MType(inp, pos, t) == end && WFType(t, sl)
    ensures Inside(inp, AstType(inp, pos, EndOf(inp, end - 1), t), pos, end)
    decreases t, 0
  {
    hide InOrder, Inside, Nested, Chain, Row, M, Ast, WF, AstItems, MItems;
    match t
    case TNamed(n) => LeafInside(inp, NamedType, Name(TextOf(inp.src, PathSpan(inp, pos, n))), pos, end, end);
    case TTuple(items, tr) => ListNode(inp, TupleType, Zero, pos, pos, LParen, items, tr, RParen, end, CType, sl);
    case TArray(e, n) =>
      var q, a := Part(inp, pos + 1, e, sl);
      var z, b := Part(inp, q + 1, n, sl);
      OpenRow2(inp, pos, a, pos + 1, q, b, q + 1, z);
      WideNode(inp, ArrayType, Zero, [a, b], pos, z, end, StartOf(inp, pos));
    case TTensor(e, d, tr) =>
      var q, a := Part(inp, pos + 2, e, sl);
      ItemsRow(inp, q + 1, d, tr, end - 1, CExpr, sl);
      OpenRow1(inp, pos, a, pos + 2, q);
      RowCat(inp, [a], StartOf(inp, pos), q, AstItems(inp, q + 1, d), q + 1, end - 1);
      WideNode(inp, TensorType, Zero, [a] + AstItems(inp, q + 1, d), pos, end - 1, end, StartOf(inp, pos));
  }

  lemma {:induction false} InsidePat(inp: Input, pos: nat, p: PatForm, end: nat, sl: Switch)
    requires InOrder(inp.toks) && MPat(inp, pos, p) == end && WFPat(p, sl)
    ensures Inside(inp, AstPat(inp, pos, EndOf(inp, end - 1), p), pos, end)
    decreases p, 0
  {
    hide InOrder, Inside, Nested, Chain, Row, M, Ast, WF, AstItems, MItems, TokText;
    match p
    case PWild => LeafInside(inp, WildcardPat, Zero, pos, end, end);
    case PLit => LeafInside(inp, LiteralPat, Name(TokText(inp, pos)), pos, end, end);
    case PName(n) =>
      LeafInside(inp, IdentPat, NameRegime(TextOf(inp.src, PathSpan(inp, pos, n)), NoRegime), pos, end, end);
    case PTuple(named, n, items, tr) =>
      if named.On? {
        ListNode(inp, TuplePat, Name(TextOf(inp.src, PathSpan(inp, pos, n))), pos, MPath(inp, pos, n), LParen, items,
                 tr, RParen, end, CPat, sl);
      } else {
        ListNode(inp, TuplePat, Zero, pos, pos, LParen, items, tr, RParen, end, CPat, sl);
      }
    case PStruct(n, fs, tr) =>
      ListNode(inp, StructPat, Name(TextOf(inp.src, PathSpan(inp, pos, n))), pos, MPath(inp, pos, n), LBrace, fs, tr,
               RBrace, end, CFieldPat, sl);
  }

  // A node over one part that opens behind its first token and closes it.
  lemma {:induction false} UnaryNode(inp: Input, kind: NodeKind, p: Payload, pos: nat, pos1: nat, s: Syn, end: nat,
                                     sl: Switch)
    requires InOrder(inp.toks) && pos < pos1 && M(inp, pos1, s) == end && WF(s, sl) && !s.Absent? && kind != DocComment
    ensures var t := Ast(inp, pos1, s); Inside(inp, Node(kind, StartOf(inp, pos), SpanOf(t).end, p, [t]), pos, end)
    decreases s, 3
  {
    hide InOrder, Inside, Nested, Chain, Row, M, Ast, WF;
    var q, t := Part(inp, pos1, s, sl);
    OpenRow1(inp, pos, t, pos1, q);
    RowUnderlying(inp, [t], StartOf(inp, pos), end);
    TightNode(inp, kind, p, [t], pos, end, StartOf(inp, pos));
  }

  lemma RowUnderlying(inp: Input, kids: seq<Tree>, lo: nat, end: nat)
    requires Row(inp, kids, lo, end)
    ensures 0 < end <= |inp.toks|
  {
  }

  lemma {:induction false} InsideField(inp: Input, pos: nat, f: FieldForm, end: nat, sl: Switch)
    requires InOrder(inp.toks) && MField(inp, pos, f) == end && WF(Fl(f), sl)
    ensures Inside(inp, AstField(inp, pos, f), pos, end)
    decreases f, 5
  {
    hide InOrder, Inside, Nested, Chain, Row, M, Ast, WFExpr, WFPat, WFStmt, WFType, TokText;
    var name := Name(TokText(inp, pos));
    match f
    case PField(sub) => UnaryNode(inp, FieldPat, name, pos, pos + 2, sub, end, sl);
    case PFieldShort => LeafInside(inp, FieldPat, name, pos, end, end);
    case FInit(v) => UnaryNode(inp, FieldInit, name, pos, pos + 2, v, end, sl);
    case FShort => ShortInit(inp, pos, name);
  }

  lemma ShortInit(inp: Input, pos: nat, name: Payload)
    requires InOrder(inp.toks) && pos < |inp.toks|
    ensures var sp := TokenAt(inp, pos).span; Inside(inp, Tree(FieldInit, sp, name, 0, [Leaf(IdentExpr, sp, name)]),
                                                     pos, pos + 1)
  {
    LeafInside(inp, IdentExpr, name, pos, pos + 1, pos + 1);
    var t := Leaf(IdentExpr, TokenAt(inp, pos).span, name);
    RowFirst(inp, t, pos, pos + 1);
    TightNode(inp, FieldInit, name, [t], pos, pos + 1, t.span.start);
  }

  /////////////////////////// expressions ///////////////////////////

  // A node that opens with its one child and ends at token `end - 1`.
  lemma WrapNode(inp: Input, kind: NodeKind, p: Payload, t: Tree, pos: nat, q: nat, end: nat)
    requires InOrder(inp.toks) && Inside(inp, t, pos, q) && q <= end <= |inp.toks| && kind != DocComment
    ensures Inside(inp, Node(kind, SpanOf(t).start, EndOf(inp, end - 1), p, [t]), pos, end)
  {
    hide InOrder, Nested, Chain;
    RowFirst(inp, t, pos, q);
    WideNode(inp, kind, p, [t], pos, q, end, t.span.start);
  }

  lemma {:induction false} InsideTail(inp: Input, pos: nat, e: ExprForm, end: nat, sl: Switch)
    requires InOrder(inp.toks) && IsTail(e) && MTail(inp, pos, e) == end && WFExpr(e, sl)
    ensures Inside(inp, AstTail(inp, pos, EndOf(inp, end - 1), e), pos, end)
    decreases e, 0
  {
    hide InOrder, Inside, Nested, Chain, Row, M, Ast, WF, AstItems, MItems, TokText, FloatSplit, LeftOk, Follow,
         LeftPower, RightPower;
    var q, t := Part(inp, pos, Head(e), sl);
    if e.EField? {
      WrapNode(inp, FieldExpr, NameRegime(TokText(inp, q + 1), NoRegime), t, pos, q, end);
    } else if e.ETupleIdx? {
      WrapNode(inp, TupleIndexExpr, Name(TokText(inp, q + 1)), t, pos, q, end);
    } else if e.ETry? {
      WrapNode(inp, PropagateExpr, Zero, t, pos, q, end);
    } else if e.EFloatIdx? {
      FloatNodes(inp, t, pos, q, end, FloatSplit(TokText(inp, q + 1)));
    } else if e.EBin? {
      PairNode(inp, BinaryExpr, Op(e.op), pos, q, t, e.right, end, sl);
    } else if e.ECast? {
      PairNode(inp, CastExpr, Zero, pos, q, t, e.ty, end, sl);
    } else if e.ECall? {
      CallNode(inp, pos, q, t, e.args, end);
    } else {
      ItemsRow(inp, q + 1, e.items, e.trail, end - 1, CExpr, On);
      RowFirst(inp, t, pos, q);
      RowCat(inp, [t], t.span.start, q, AstItems(inp, q + 1, e.items), q + 1, end - 1);
      WideNode(inp, if Size(e.items) > 1 then TensorIndexExpr else IndexExpr, Zero, [t] + AstItems(inp, q + 1, e.items),
               pos, end - 1, end, t.span.start);
    }
  }

  lemma FloatNodes(inp: Input, t: Tree, pos: nat, q: nat, end: nat, sp: Split)
    requires InOrder(inp.toks) && Inside(inp, t, pos, q) && q <= end <= |inp.toks| && !sp.NoSplit?
    ensures var inner := Node(TupleIndexExpr, SpanOf(t).start, EndOf(inp, end - 1), Name(sp.whole), [t]);
            && (sp.One? ==> Inside(inp, inner, pos, end))
            && (sp.Two? ==>
                Inside(inp, Node(TupleIndexExpr, SpanOf(t).start, EndOf(inp, end - 1), Name(sp.frac), [inner]), pos,
                       end))
  {
    hide InOrder, Nested, Chain, Inside;
    WrapNode(inp, TupleIndexExpr, Name(sp.whole), t, pos, q, end);
    var inner := Node(TupleIndexExpr, SpanOf(t).start, EndOf(inp, end - 1), Name(sp.whole), [t]);
    if sp.Two? {
      EndBound(inp, inner, pos, end);
      WrapNode(inp, TupleIndexExpr, Name(sp.frac), inner, pos, end, end);
    }
  }

  lemma EndBound(inp: Input, t: Tree, pos: nat, end: nat)
    requires Inside(inp, t, pos, end)
    ensures end <= |inp.toks|
  {
  }

  // Two parts with a token between them.
  lemma {:induction false} PairNode(inp: Input, kind: NodeKind, p: Payload, pos: nat, q: nat, t: Tree, s: Syn, end: nat,
                                    sl: Switch)
    requires InOrder(inp.toks) && Inside(inp, t, pos, q) && M(inp, q + 1, s) == end && WF(s, sl) && !s.Absent?
    requires kind != DocComment
    ensures var u := Ast(inp, q + 1, s); Inside(inp, Node(kind, SpanOf(t).start, SpanOf(u).end, p, [t, u]), pos, end)
    decreases s, 3
  {
    hide InOrder, Nested, Chain, Row, M, Ast, WF;
    var z, u := Part(inp, q + 1, s, sl);
    PairRow(inp, t, pos, q, u, q + 1, z);
    TightNode(inp, kind, p, [t, u], pos, end, t.span.start);
  }

  lemma {:induction false} CallNode(inp: Input, pos: nat, q: nat, t: Tree, args: Syns, end: nat)
    requires InOrder(inp.toks) && Inside(inp, t, pos, q) && Enclosed(inp, q, LParen, args, Off, RParen) == end
    requires WFAll(CExpr, args, On)
    ensures var a := Node(ArgList, StartOf(inp, q), EndOf(inp, end - 1), Zero, AstItems(inp, q + 1, args));
            Inside(inp, Node(CallExpr, SpanOf(t).start, EndOf(inp, end - 1), Zero, [t, a]), pos, end)
    decreases args, 4
  {
    hide InOrder, Nested, Chain, Row, M, Ast, WF, MItems, AstItems;
    ListNode(inp, ArgList, Zero, q, q, LParen, args, Off, RParen, end, CExpr, On);
    var a := Node(ArgList, StartOf(inp, q), EndOf(inp, end - 1), Zero, AstItems(inp, q + 1, args));
    PairRow(inp, t, pos, q, a, q, end);
    TightNode(inp, CallExpr, Zero, [t, a], pos, end, t.span.start);
  }

  lemma {:induction false} InsideExpr(inp: Input, pos: nat, e: ExprForm, end: nat, sl: Switch)
    requires InOrder(inp.toks) && !IsTail(e) && MExpr(inp, pos, e) == end && WFExpr(e, sl)
    ensures Inside(inp, AstExpr(inp, pos, EndOf(inp, end - 1), e), pos, end)
    decreases e, 6
  {
    hide InOrder, Inside, Nested, Chain, Row, M, Ast, WF, AstItems, MItems, TokText, LeftOk, Follow, AstSeq, MSeq,
         WFArms, WFStmts, WFAll;
    if e.EIf? || e.EWhile? || e.EMatch? || e.EUnsafe? || e.EBlock? {
      InsideControl(inp, pos, e, end, sl);
    } else if e.EStruct? || e.EArray? || e.ETuple? || e.ERepeat? || e.ETensor? {
      InsideCompound(inp, pos, e, end, sl);
    } else {
      match e
      case ELit => LeafInside(inp, LitExpr, NameRegime(TokText(inp, pos), NoRegime), pos, end, end);
      case EName(n) =>
        LeafInside(inp, if n > 0 then PathExpr else IdentExpr, Name(TextOf(inp.src, PathSpan(inp, pos, n))), pos, end,
                   end);
      case EParen(i) =>
        var q, t := Part(inp, pos + 1, i, On);
        InsideWiden(inp, t, pos, pos + 1, q, end);
      case EUnary(op, a) => UnaryNode(inp, UnaryExpr, Op(op), pos, pos + 1, a, end, sl);
      case EProj(a, r) =>
        var q, t := Part(inp, pos + 1, a, sl);
        var z, u := Part(inp, q + 1, r, sl);
        OpenRow2(inp, pos, t, pos + 1, q, u, q + 1, z);
        TightNode(inp, ProjAssignExpr, Zero, [t, u], pos, end, StartOf(inp, pos));
    }
  }

  lemma InsideWiden(inp: Input, t: Tree, pos: nat, pos1: nat, end1: nat, end: nat)
    requires InOrder(inp.toks) && pos <= pos1 && Inside(inp, t, pos1, end1) && end1 <= end <= |inp.toks|
    ensures Inside(inp, t, pos, end)
  {
    hide Nested;
    TokenOrder(inp, pos, pos1);
    TokenOrder(inp, end1 - 1, end - 1);
  }

  lemma {:induction false} InsideCompound(inp: Input, pos: nat, e: ExprForm, end: nat, sl: Switch)
    requires InOrder(inp.toks) && !IsTail(e) && MExpr(inp, pos, e) == end && WFExpr(e, sl)
    requires e.EStruct? || e.EArray? || e.ETuple? || e.ERepeat? || e.ETensor?
    ensures Inside(inp, AstExpr(inp, pos, EndOf(inp, end - 1), e), pos, end)
    decreases e, 5
  {
    hide InOrder, Inside, Nested, Chain, Row, M, Ast, WF, AstItems, MItems, TokText, LeftOk, Follow, AstSeq, MSeq,
         WFAll;
    match e
    case EStruct(n, fs, tr) =>
      ListNode(inp, StructLitExpr, Name(TextOf(inp.src, PathSpan(inp, pos, n))), pos, MPath(inp, pos, n), LBrace, fs,
               tr, RBrace, end, CFieldInit, On);
    case EArray(items, tr) => ListNode(inp, ArrayLitExpr, Zero, pos, pos, LSquare, items, tr, RSquare, end, CExpr, On);
    case ETuple(items, tr) => ListNode(inp, TupleExpr, Zero, pos, pos, LParen, items, tr, RParen, end, CExpr, On);
    case ERepeat(v, n) =>
      var q, a := Part(inp, pos + 1, v, On);
      var z, b := Part(inp, q + 1, n, On);
      OpenRow2(inp, pos, a, pos + 1, q, b, q + 1, z);
      WideNode(inp, ArrayRepeatExpr, Zero, [a, b], pos, z, end, StartOf(inp, pos));
    case ETensor(_, _, _, _) => InsideTensor(inp, pos, e, end, sl);
  }

  lemma {:induction false} InsideTensor(inp: Input, pos: nat, e: ExprForm, end: nat, sl: Switch)
    requires InOrder(inp.toks) && e.ETensor? && MExpr(inp, pos, e) == end && WFExpr(e, sl)
    ensures Inside(inp, AstExpr(inp, pos, EndOf(inp, end - 1), e), pos, end)
    decreases e, 4
  {
    hide InOrder, Inside, Nested, Chain, Row, M, Ast, WF, AstItems, MItems, WFAll;
    var (vs, ds) := (e.vals, e.dims);
    var q := MItems(inp, pos + 2, vs, e.vtrail);
    ItemsRow(inp, pos + 2, vs, e.vtrail, q, CExpr, On);
    ItemsRow(inp, q + 1, ds, e.trail, end - 1, CExpr, sl);
    OpenRowAll(inp, pos, AstItems(inp, pos + 2, vs), pos + 2, q);
    RowCat(inp, AstItems(inp, pos + 2, vs), StartOf(inp, pos), q, AstItems(inp, q + 1, ds), q + 1, end - 1);
    WideNode(inp, TensorLitExpr, Count(Size(vs) % 0x1_0000), AstItems(inp, pos + 2, vs) + AstItems(inp, q + 1, ds), pos,
             end - 1, end, StartOf(inp, pos));
  }

  lemma {:induction false} InsideControl(inp: Input, pos: nat, e: ExprForm, end: nat, sl: Switch)
    requires InOrder(inp.toks) && !IsTail(e) && MExpr(inp, pos, e) == end && WFExpr(e, sl)
    requires e.EIf? || e.EWhile? || e.EMatch? || e.EUnsafe? || e.EBlock?
    ensures Inside(inp, AstExpr(inp, pos, EndOf(inp, end - 1), e), pos, end)
    decreases e, 5
  {
    hide InOrder, Inside, Nested, Chain, Row, M, Ast, WF, TokText, LeftOk, Follow, AstSeq, MSeq, WFArms, WFStmts;
    match e
    case EIf(c, t, els) => InsideIf(inp, pos, e, end, sl);
    case EWhile(c, b) =>
      var q, x := Part(inp, pos + 1, c, Off);
      var z, y := Part(inp, q, b, sl);
      OpenRow2(inp, pos, x, pos + 1, q, y, q, z);
      WideNode(inp, WhileStmt, Zero, [x, y], pos, z, end, StartOf(inp, pos));
    case EMatch(c, arms) =>
      var q, x := Part(inp, pos + 1, c, Off);
      ArmsRow(inp, q + 1, arms, end - 1, sl);
      OpenRow1(inp, pos, x, pos + 1, q);
      RowCat(inp, [x], StartOf(inp, pos), q, AstSeq(inp, q + 1, arms), q + 1, end - 1);
      WideNode(inp, MatchExpr, Zero, [x] + AstSeq(inp, q + 1, arms), pos, end - 1, end, StartOf(inp, pos));
    case EUnsafe(st) =>
      StmtsRow(inp, pos + 2, st, end - 1, sl);
      OpenRowAll(inp, pos, AstSeq(inp, pos + 2, st), pos + 2, end - 1);
      WideNode(inp, UnsafeBlock, Zero, AstSeq(inp, pos + 2, st), pos, end - 1, end, StartOf(inp, pos));
    case EBlock(st) =>
      StmtsRow(inp, pos + 1, st, end - 1, sl);
      OpenRowAll(inp, pos, AstSeq(inp, pos + 1, st), pos + 1, end - 1);
      WideNode(inp, BlockExpr, Zero, AstSeq(inp, pos + 1, st), pos, end - 1, end, StartOf(inp, pos));
  }

  lemma {:induction false} InsideIf(inp: Input, pos: nat, e: ExprForm, end: nat, sl: Switch)
    requires InOrder(inp.toks) && e.EIf? && MExpr(inp, pos, e) == end && WFExpr(e, sl)
    ensures Inside(inp, AstExpr(inp, pos, EndOf(inp, end - 1), e), pos, end)
    decreases e, 4
  {
    hide InOrder, Inside, Nested, Chain, Row, M, Ast, WF;
    var q, x := Part(inp, pos + 1, e.cond, Off);
    var z, y := Part(inp, q, e.thn, sl);
    OpenRow2(inp, pos, x, pos + 1, q, y, q, z);
    if e.els.Absent? {
      WideNode(inp, IfExpr, Zero, [x, y], pos, z, end, StartOf(inp, pos));
    } else {
      var w, u := Part(inp, z + 1, e.els, sl);
      RowPush(inp, [x, y], StartOf(inp, pos), z, u, z + 1, w);
      WideNode(inp, IfExpr, Zero, [x, y] + [u], pos, w, end, StartOf(inp, pos));
    }
  }

  /////////////////////////// statements ///////////////////////////

  lemma {:induction false} InsideStmt(inp: Input, pos: nat, s: StmtForm, end: nat, sl: Switch)
    requires InOrder(inp.toks) && MStmt(inp, pos, s) == end && WFStmt(s, sl)
    ensures Inside(inp, AstStmt(inp, pos, EndOf(inp, end - 1), s), pos, end)
    decreases s, 6
  {
    hide InOrder, Inside, Nested, Chain, Row, M, Ast, WF, TokText, LeftAtom;
    match s
    case SItem(e) => var q, t := Part(inp, pos, e, sl);
    case SLet(_, _, _) => InsideLet(inp, pos, s, end, sl);
    case SExpr(e) =>
      var q, t := Part(inp, pos, e, sl);
      InsideWiden(inp, t, pos, pos, q, end);
    case SRet(e) =>
      var q, t := Part(inp, pos + 1, e, sl);
      OpenRow1(inp, pos, t, pos + 1, q);
      WideNode(inp, RetStmt, Zero, [t], pos, q, end, StartOf(inp, pos));
    case SBreak => LeafInside(inp, BreakStmt, Zero, pos, pos + 1, end);
    case SContinue => LeafInside(inp, ContinueStmt, Zero, pos, pos + 1, end);
    case SFor(reg, it, b) =>
      var name := if reg then pos + 2 else pos + 1;
      var q, t := Part(inp, name + 2, it, Off);
      var z, u := Part(inp, q, b, sl);
      OpenRow2(inp, pos, t, name + 2, q, u, q, z);
      TightNode(inp, ForStmt, NameRegime(TokText(inp, name), RegimeOf(KindAt(inp, pos + 1))), [t, u], pos, end,
                StartOf(inp, pos));
  }

  lemma {:induction false} InsideLet(inp: Input, pos: nat, s: StmtForm, end: nat, sl: Switch)
    requires InOrder(inp.toks) && s.SLet? && MStmt(inp, pos, s) == end && WFStmt(s, sl)
    ensures Inside(inp, AstStmt(inp, pos, EndOf(inp, end - 1), s), pos, end)
    decreases s, 5
  {
    hide InOrder, Inside, Nested, Chain, Row, M, Ast, WF, TokText;
    var name := if s.reg then pos + 2 else pos + 1;
    var q1, kids := name + 1, [];
    RowEmpty(inp, pos);
    RowWiden(inp, [], StartOf(inp, pos), pos + 1, name + 1);
    if !s.ty.Absent? {
      var q, t := Part(inp, name + 2, s.ty, sl);
      RowPush(inp, [], StartOf(inp, pos), name + 1, t, name + 2, q);
      q1, kids := q, [] + [t];
    }
    var z := q1;
    var all := kids;
    if !s.init.Absent? {
      var q, t := Part(inp, q1 + 1, s.init, sl);
      RowPush(inp, kids, StartOf(inp, pos), q1, t, q1 + 1, q);
      z, all := q, kids + [t];
    }
    WideNode(inp, LetStmt, NameRegime(TokText(inp, name), RegimeOf(KindAt(inp, pos + 1))), all, pos, z, end,
             StartOf(inp, pos));
    assert all == (if s.ty.Absent? then [] else [Ast(inp, name + 2, s.ty)])
                  + (if s.init.Absent? then [] else [Ast(inp, q1 + 1, s.init)]);
  }
}
