/** Which tokens spell a piece of concrete syntax, and which tree it stands for. */
module Spelling {
  import opened Tokens
  import opened Trees
  import opened Grammar

  /////////////////////////// tokens of a production ///////////////////////////

  // `::` name, `n` times; -1 when the tokens do not match.
  function MSegs(inp: Input, pos: int, n: nat): (r: int)
    ensures r >= 0 ==> 0 <= pos <= r && (r == pos || r <= |inp.toks|)
    decreases n
  {
    if n == 0 then pos
    else if KindAt(inp, pos) == ColonColon && KindAt(inp, pos + 1) == Identifier then MSegs(inp, pos + 2, n - 1)
    else -1
  }

  function Expect1(inp: Input, pos: int, k: Kind): (r: int)
    ensures r >= 0 ==> 0 <= pos < r <= |inp.toks|
  {
    if KindAt(inp, pos) == k && k != Eof then pos + 1 else -1
  }

  predicate IsRegime(k: Kind) { k == KwImm || k == KwMut || k == KwProj }

  // An optional regime keyword; when the syntax has none the next token must not be one.
  function MRegime(inp: Input, pos: int, reg: bool): int {
    if pos >= 0 && reg == IsRegime(KindAt(inp, pos)) then (if reg then pos + 1 else pos) else -1
  }

  datatype Split = NoSplit | One(whole: string) | Two(whole: string, frac: string)

  function Find(s: string, c: char, from: nat): (r: int)
    requires from <= |s|
    ensures -1 <= r < |s|
    ensures r >= 0 ==> from <= r && s[r] == c && forall i :: from <= i < r ==> s[i] != c
    ensures r < 0 ==> forall i :: from <= i < |s| ==> s[i] != c
    decreases |s| - from
  {
    if from == |s| then -1 else if s[from] == c then from else Find(s, c, from + 1)
  }

  predicate AllDigits(s: string) { forall i :: 0 <= i < |s| ==> IsDigit(s[i]) }

  // How a float token after a dot is taken apart into tuple indices.
  function FloatSplit(text: string): Split {
    var d := Find(text, '.', 0);
    if d < 0 || d + 1 >= |text| then NoSplit else
    var rest := text[d + 1..];
    var frac := if rest[|rest| - 1] == 'f' then rest[..|rest| - 1] else rest;
    if frac != "" && AllDigits(frac) then Two(text[..d], frac) else One(text[..d])
  }

  function TokText(inp: Input, i: int): string { TextOf(inp.src, TokenAt(inp, i).span) }

  /** The position after `s` when the tokens from `pos` on spell `s`, otherwise -1. */
  function M(inp: Input, pos: int, s: Syn): (r: int)
    ensures r >= 0 ==> 0 <= pos <= r
    ensures r >= 0 && !s.Absent? ==> pos < r <= |inp.toks|
    decreases s, 1
  {
    if pos < 0 then -1 else
    match s
    case Absent => pos
    case Ty(t) => MType(inp, pos, t)
    case Pt(p) => MPat(inp, pos, p)
    case Fl(f) => MField(inp, pos, f)
    case Ex(e) => if IsTail(e) then MTail(inp, pos, e) else MExpr(inp, pos, e)
    case Ar(p, v, sep) =>
      var q := M(inp, Expect1(inp, M(inp, pos, p), FatArrow), v);
      if q <= pos || sep != (KindAt(inp, q) == Comma || KindAt(inp, q) == Semi) then -1
      else if sep then q + 1 else q
    case St(s) => MStmt(inp, pos, s)
  }

  function MType(inp: Input, pos: int, s: TypeForm): (r: int)
    requires pos >= 0
    ensures r >= 0 ==> pos < r <= |inp.toks|
    decreases s, 0
  {
    var k := KindAt(inp, pos);
    match s
    case TNamed(n) => if k == Identifier || k == KwSelf then MPath(inp, pos, n) else -1
    case TTuple(items, tr) => Enclosed(inp, pos, LParen, items, tr, RParen)
    case TArray(e, n) =>
      if k != LSquare then -1 else
      Expect1(inp, M(inp, Expect1(inp, M(inp, pos + 1, e), Semi), n), RSquare)
    case TTensor(e, d, tr) =>
      if k != KwTensor || KindAt(inp, pos + 1) != LSquare then -1 else
      Expect1(inp, MItems(inp, Expect1(inp, M(inp, pos + 2, e), Semi), d, tr), RSquare)
  }

  function MPat(inp: Input, pos: int, s: PatForm): (r: int)
    requires pos >= 0
    ensures r >= 0 ==> pos < r <= |inp.toks|
    decreases s, 0
  {
    var k := KindAt(inp, pos);
    match s
    case PWild => if k == Identifier && TokText(inp, pos) == "_" then pos + 1 else -1
    case PLit => if IsLiteral(k) then pos + 1 else -1
    case PName(n) => MPatPath(inp, pos, n)
    case PTuple(named, n, items, tr) =>
      Enclosed(inp, if named.On? then MPatPath(inp, pos, n) else pos, LParen, items, tr, RParen)
    case PStruct(n, fs, tr) => Enclosed(inp, MPatPath(inp, pos, n), LBrace, fs, tr, RBrace)
  }

  function MField(inp: Input, pos: int, s: FieldForm): (r: int)
    requires pos >= 0
    ensures r >= 0 ==> pos < r <= |inp.toks|
    decreases s, 0
  {
    var k := KindAt(inp, pos);
    match s
    case PField(sub) => if k == Identifier && KindAt(inp, pos + 1) == Colon then M(inp, pos + 2, sub) else -1
    case PFieldShort => if k == Identifier then pos + 1 else -1
    case FInit(v) => if k == Identifier && KindAt(inp, pos + 1) == Colon then M(inp, pos + 2, v) else -1
    case FShort => if k == Identifier then pos + 1 else -1
  }

  function MTail(inp: Input, pos: int, s: ExprForm): (r: int)
    requires pos >= 0
    ensures r >= 0 ==> pos < r <= |inp.toks|
    decreases s, 0
  {
    match s
    case EBin(l, op, r) => M(inp, Expect1(inp, M(inp, pos, l), op), r)
    case ECall(b, args) => Enclosed(inp, M(inp, pos, b), LParen, args, Off, RParen)
    case EField(b) => Expect1(inp, Expect1(inp, M(inp, pos, b), Dot), Identifier)
    case ETupleIdx(b) => Expect1(inp, Expect1(inp, M(inp, pos, b), Dot), IntegerLiteral)
    case EFloatIdx(b, two) =>
      var q := Expect1(inp, M(inp, pos, b), Dot);
      if q < 0 then -1 else
      var sp := FloatSplit(TokText(inp, q));
      if (two && sp.Two?) || (!two && sp.One?) then Expect1(inp, q, FloatLiteral) else -1
    case EIndex(b, items, tr) => Enclosed(inp, M(inp, pos, b), LSquare, items, tr, RSquare)
    case ETry(b) => Expect1(inp, M(inp, pos, b), Question)
    case ECast(b, ty) => M(inp, Expect1(inp, M(inp, pos, b), KwAs), ty)
    case _ => -1
  }

  function MExpr(inp: Input, pos: int, s: ExprForm): (r: int)
    requires pos >= 0
    ensures r >= 0 ==> pos < r <= |inp.toks|
    decreases s, 0
  {
    var k := KindAt(inp, pos);
    match s
    case ELit => if IsLiteral(k) then pos + 1 else -1
    case EName(n) => if k == Identifier then MPath(inp, pos, n) else -1
    case EStruct(n, fs, tr) =>
      if k == Identifier then Enclosed(inp, MPath(inp, pos, n), LBrace, fs, tr, RBrace) else -1
    case EParen(i) => if k != LParen then -1 else Expect1(inp, M(inp, pos + 1, i), RParen)
    case ETuple(items, tr) => Enclosed(inp, pos, LParen, items, tr, RParen)
    case EArray(items, tr) => Enclosed(inp, pos, LSquare, items, tr, RSquare)
    case ERepeat(v, n) =>
      if k != LSquare then -1 else
      Expect1(inp, M(inp, Expect1(inp, M(inp, pos + 1, v), Semi), n), RSquare)
    case ETensor(vs, vt, ds, dt) =>
      if k != KwTensor || KindAt(inp, pos + 1) != LSquare then -1 else
      Expect1(inp, MItems(inp, Expect1(inp, MItems(inp, pos + 2, vs, vt), Semi), ds, dt), RSquare)
    case EUnary(op, a) => M(inp, Expect1(inp, pos, op), a)
    case EProj(a, r) => if k != Star then -1 else M(inp, Expect1(inp, M(inp, pos + 1, a), Eq), r)
    case EIf(c, t, e) =>
      if k != KwIf then -1 else
      var q := M(inp, M(inp, pos + 1, c), t);
      if e.Absent? then q else M(inp, Expect1(inp, q, KwElse), e)
    case EWhile(c, b) => if k != KwWhile then -1 else M(inp, M(inp, pos + 1, c), b)
    case EMatch(c, arms) =>
      if k != KwMatch then -1 else
      Expect1(inp, MSeq(inp, Expect1(inp, M(inp, pos + 1, c), LBrace), arms), RBrace)
    case EUnsafe(st) =>
      if k != KwUnsafe || KindAt(inp, pos + 1) != LBrace then -1 else Expect1(inp, MSeq(inp, pos + 2, st), RBrace)
    case EBlock(st) => if k != LBrace then -1 else Expect1(inp, MSeq(inp, pos + 1, st), RBrace)
    case _ => -1
  }

  function MStmt(inp: Input, pos: int, s: StmtForm): (r: int)
    requires pos >= 0
    ensures r >= 0 ==> pos < r <= |inp.toks|
    decreases s, 0
  {
    var k := KindAt(inp, pos);
    match s
    case SItem(e) => if e.Absent? then -1 else M(inp, pos, e)
    case SLet(reg, ty, init) =>
      if k != KwLet then -1 else
      var q := Expect1(inp, MRegime(inp, pos + 1, reg), Identifier);
      var q1 := if ty.Absent? then q else M(inp, Expect1(inp, q, Colon), ty);
      var q2 := if init.Absent? then q1 else M(inp, Expect1(inp, q1, Eq), init);
      Expect1(inp, q2, Semi)
    case SExpr(e) => Expect1(inp, M(inp, pos, e), Semi)
    case SRet(e) => if k != KwRet then -1 else Expect1(inp, M(inp, pos + 1, e), Semi)
    case SBreak => if k != KwBreak then -1 else Expect1(inp, pos + 1, Semi)
    case SContinue => if k != KwContinue then -1 else Expect1(inp, pos + 1, Semi)
    case SFor(reg, it, b) =>
      if k != KwFor then -1 else
      M(inp, M(inp, Expect1(inp, Expect1(inp, MRegime(inp, pos + 1, reg), Identifier), KwIn), it), b)
  }

  // A path after its first token has been checked.
  function MPath(inp: Input, pos: int, n: nat): (r: int)
    ensures r >= 0 ==> pos < r && (r == pos + 1 || r <= |inp.toks|)
  { MSegs(inp, pos + 1, n) }

  // A path in a pattern: its first name is not the wildcard.
  function MPatPath(inp: Input, pos: int, n: nat): int {
    if KindAt(inp, pos) == Identifier && TokText(inp, pos) != "_" then MPath(inp, pos, n) else -1
  }

  // An opening token, comma-separated items and a closing token.
  function Enclosed(inp: Input, pos: int, open: Kind, l: Syns, trail: Switch, close: Kind): (r: int)
    ensures r >= 0 ==> 0 <= pos && pos + 1 < r <= |inp.toks|
    decreases l, 3
  {
    Expect1(inp, MItems(inp, Expect1(inp, pos, open), l, trail), close)
  }

  function MItems(inp: Input, pos: int, l: Syns, trail: Switch): (r: int)
    ensures r >= 0 ==> 0 <= pos <= r
    decreases l, 2
  {
    match l
    case Nil => pos
    case Cons(h, t) => MMore(inp, M(inp, pos, h), t, trail)
  }

  // The items after the first, each behind its comma.
  function MMore(inp: Input, pos: int, l: Syns, trail: Switch): (r: int)
    ensures r >= 0 ==> 0 <= pos <= r
    decreases l, 1
  {
    match l
    case Nil => if trail.On? then Expect1(inp, pos, Comma) else pos
    case Cons(h, t) => MMore(inp, M(inp, Expect1(inp, pos, Comma), h), t, trail)
  }

  function MSeq(inp: Input, pos: int, l: Syns): (r: int)
    ensures r >= 0 ==> 0 <= pos <= r
    decreases l, 1
  {
    match l
    case Nil => pos
    case Cons(h, t) => MSeq(inp, M(inp, pos, h), t)
  }

  /////////////////////////// the tree of a production ///////////////////////////

  function RegimeOf(k: Kind): Regime {
    if k == KwImm then Regime.Imm else if k == KwMut then Regime.Mut else if k == KwProj then Regime.Proj else NoRegime
  }

  function Leaf(kind: NodeKind, span: Span, payload: Payload): Tree { Tree(kind, span, payload, 0, []) }

  function Node(kind: NodeKind, start: nat, end: nat, payload: Payload, kids: seq<Tree>): Tree {
    Tree(kind, Span(start, end), payload, 0, kids)
  }

  function SpanOf(t: Tree): Span { if t.NullTree? then Span(0, 0) else t.span }

  function PathSpan(inp: Input, pos: int, n: nat): Span {
    Span(StartOf(inp, pos), EndOf(inp, MPath(inp, pos, n) - 1))
  }

  /** The tree that the tokens from `pos` on stand for, read as `s`. Parentheses leave no node
      and do not widen a span. */
  function Ast(inp: Input, pos: int, s: Syn): Tree
    decreases s, 1
  {
    var z := EndOf(inp, M(inp, pos, s) - 1);
    match s
    case Absent => NullTree
    case Ty(t) => AstType(inp, pos, z, t)
    case Pt(p) => AstPat(inp, pos, z, p)
    case Fl(f) => AstField(inp, pos, f)
    case Ex(e) => if IsTail(e) then AstTail(inp, pos, z, e) else AstExpr(inp, pos, z, e)
    case Ar(p, v, _) =>
      var (t, u) := (Ast(inp, pos, p), Ast(inp, M(inp, pos, p) + 1, v));
      Node(MatchArm, SpanOf(t).start, SpanOf(u).end, Zero, [t, u])
    case St(st) => AstStmt(inp, pos, z, st)
  }

  function AstType(inp: Input, pos: int, z: nat, s: TypeForm): Tree
    decreases s, 0
  {
    var a := StartOf(inp, pos);
    match s
    case TNamed(n) => var sp := PathSpan(inp, pos, n); Leaf(NamedType, sp, Name(TextOf(inp.src, sp)))
    case TTuple(items, _) => Node(TupleType, a, z, Zero, AstItems(inp, pos + 1, items))
    case TArray(e, n) =>
      Node(ArrayType, a, z, Zero, [Ast(inp, pos + 1, e), Ast(inp, M(inp, pos + 1, e) + 1, n)])
    case TTensor(e, d, _) =>
      Node(TensorType, a, z, Zero, [Ast(inp, pos + 2, e)] + AstItems(inp, M(inp, pos + 2, e) + 1, d))
  }

  function AstPat(inp: Input, pos: int, z: nat, s: PatForm): Tree
    decreases s, 0
  {
    var a := StartOf(inp, pos);
    match s
    case PWild => Leaf(WildcardPat, TokenAt(inp, pos).span, Zero)
    case PLit => Leaf(LiteralPat, TokenAt(inp, pos).span, Name(TokText(inp, pos)))
    case PName(n) => var sp := PathSpan(inp, pos, n); Leaf(IdentPat, sp, NameRegime(TextOf(inp.src, sp), NoRegime))
    case PTuple(named, n, items, _) =>
      if named.On? then
        Node(TuplePat, a, z, Name(TextOf(inp.src, PathSpan(inp, pos, n))), AstItems(inp, MPath(inp, pos, n) + 1, items))
      else Node(TuplePat, a, z, Zero, AstItems(inp, pos + 1, items))
    case PStruct(n, fs, _) =>
      Node(StructPat, a, z, Name(TextOf(inp.src, PathSpan(inp, pos, n))), AstItems(inp, MPath(inp, pos, n) + 1, fs))
  }

  function AstField(inp: Input, pos: int, s: FieldForm): Tree
    decreases s, 0
  {
    var a := StartOf(inp, pos);
    match s
    case PField(sub) =>
      var p := Ast(inp, pos + 2, sub);
      Node(FieldPat, a, SpanOf(p).end, Name(TokText(inp, pos)), [p])
    case PFieldShort => Leaf(FieldPat, TokenAt(inp, pos).span, Name(TokText(inp, pos)))
    case FInit(v) =>
      var p := Ast(inp, pos + 2, v);
      Node(FieldInit, a, SpanOf(p).end, Name(TokText(inp, pos)), [p])
    case FShort =>
      var name := Name(TokText(inp, pos));
      Tree(FieldInit, TokenAt(inp, pos).span, name, 0, [Leaf(IdentExpr, TokenAt(inp, pos).span, name)])
  }

  function AstTail(inp: Input, pos: int, z: nat, s: ExprForm): Tree
    decreases s, 0
  {
    match s
    case EBin(l, op, r) =>
      var (p, q) := (Ast(inp, pos, l), Ast(inp, M(inp, pos, l) + 1, r));
      Node(BinaryExpr, SpanOf(p).start, SpanOf(q).end, Op(op), [p, q])
    case ECall(b, args) =>
      var p := Ast(inp, pos, b);
      var q := M(inp, pos, b);
      Node(CallExpr, SpanOf(p).start, z, Zero,
           [p, Node(ArgList, StartOf(inp, q), z, Zero, AstItems(inp, q + 1, args))])
    case EField(b) =>
      var p := Ast(inp, pos, b);
      Node(FieldExpr, SpanOf(p).start, z, NameRegime(TokText(inp, M(inp, pos, b) + 1), NoRegime), [p])
    case ETupleIdx(b) =>
      var p := Ast(inp, pos, b);
      Node(TupleIndexExpr, SpanOf(p).start, z, Name(TokText(inp, M(inp, pos, b) + 1)), [p])
    case EFloatIdx(b, two) =>
      var p := Ast(inp, pos, b);
      var sp := FloatSplit(TokText(inp, M(inp, pos, b) + 1));
      if sp.NoSplit? then NullTree else
      var inner := Node(TupleIndexExpr, SpanOf(p).start, z, Name(sp.whole), [p]);
      if sp.Two? then Node(TupleIndexExpr, SpanOf(p).start, z, Name(sp.frac), [inner]) else inner
    case EIndex(b, items, _) =>
      var p := Ast(inp, pos, b);
      Node(if Size(items) > 1 then TensorIndexExpr else IndexExpr, SpanOf(p).start, z, Zero,
           [p] + AstItems(inp, M(inp, pos, b) + 1, items))
    case ETry(b) => var p := Ast(inp, pos, b); Node(PropagateExpr, SpanOf(p).start, z, Zero, [p])
    case ECast(b, ty) =>
      var (p, q) := (Ast(inp, pos, b), Ast(inp, M(inp, pos, b) + 1, ty));
      Node(CastExpr, SpanOf(p).start, SpanOf(q).end, Zero, [p, q])
    case _ => NullTree
  }

  function AstExpr(inp: Input, pos: int, z: nat, s: ExprForm): Tree
    decreases s, 0
  {
    var a := StartOf(inp, pos);
    match s
    case ELit => Leaf(LitExpr, TokenAt(inp, pos).span, NameRegime(TokText(inp, pos), NoRegime))
    case EName(n) =>
      var sp := PathSpan(inp, pos, n);
      Leaf(if n > 0 then PathExpr else IdentExpr, sp, Name(TextOf(inp.src, sp)))
    case EStruct(n, fs, _) =>
      Node(StructLitExpr, a, z, Name(TextOf(inp.src, PathSpan(inp, pos, n))), AstItems(inp, MPath(inp, pos, n) + 1, fs))
    case EParen(i) => Ast(inp, pos + 1, i)
    case ETuple(items, _) => Node(TupleExpr, a, z, Zero, AstItems(inp, pos + 1, items))
    case EArray(items, _) => Node(ArrayLitExpr, a, z, Zero, AstItems(inp, pos + 1, items))
    case ERepeat(v, n) =>
      Node(ArrayRepeatExpr, a, z, Zero, [Ast(inp, pos + 1, v), Ast(inp, M(inp, pos + 1, v) + 1, n)])
    case ETensor(vs, vt, ds, _) =>
      Node(TensorLitExpr, a, z, Count(Size(vs) % 0x1_0000),
           AstItems(inp, pos + 2, vs) + AstItems(inp, MItems(inp, pos + 2, vs, vt) + 1, ds))
    case EUnary(op, e) => var p := Ast(inp, pos + 1, e); Node(UnaryExpr, a, SpanOf(p).end, Op(op), [p])
    case EProj(e, r) =>
      var p := Ast(inp, M(inp, pos + 1, e) + 1, r);
      Node(ProjAssignExpr, a, SpanOf(p).end, Zero, [Ast(inp, pos + 1, e), p])
    case EIf(c, t, e) =>
      var q := M(inp, pos + 1, c);
      var two := [Ast(inp, pos + 1, c), Ast(inp, q, t)];
      Node(IfExpr, a, z, Zero, if e.Absent? then two else two + [Ast(inp, M(inp, q, t) + 1, e)])
    case EWhile(c, b) =>
      Node(WhileStmt, a, z, Zero, [Ast(inp, pos + 1, c), Ast(inp, M(inp, pos + 1, c), b)])
    case EMatch(c, arms) =>
      Node(MatchExpr, a, z, Zero, [Ast(inp, pos + 1, c)] + AstSeq(inp, M(inp, pos + 1, c) + 1, arms))
    case EUnsafe(st) => Node(UnsafeBlock, a, z, Zero, AstSeq(inp, pos + 2, st))
    case EBlock(st) => Node(BlockExpr, a, z, Zero, AstSeq(inp, pos + 1, st))
    case _ => NullTree
  }

  function AstStmt(inp: Input, pos: int, z: nat, s: StmtForm): Tree
    decreases s, 0
  {
    var a := StartOf(inp, pos);
    match s
    case SItem(e) => Ast(inp, pos, e)
    case SLet(reg, ty, init) =>
      var name := if reg then pos + 2 else pos + 1;
      var q1 := if ty.Absent? then name + 1 else M(inp, name + 2, ty);
      Node(LetStmt, a, z, NameRegime(TokText(inp, name), RegimeOf(KindAt(inp, pos + 1))),
           (if ty.Absent? then [] else [Ast(inp, name + 2, ty)])
             + (if init.Absent? then [] else [Ast(inp, q1 + 1, init)]))
    case SExpr(e) => Ast(inp, pos, e)
    case SRet(e) => Node(RetStmt, a, z, Zero, [Ast(inp, pos + 1, e)])
    case SBreak => Leaf(BreakStmt, TokenAt(inp, pos).span, Zero)
    case SContinue => Leaf(ContinueStmt, TokenAt(inp, pos).span, Zero)
    case SFor(reg, it, b) =>
      var name := if reg then pos + 2 else pos + 1;
      var p := Ast(inp, M(inp, name + 2, it), b);
      Node(ForStmt, a, SpanOf(p).end, NameRegime(TokText(inp, name), RegimeOf(KindAt(inp, pos + 1))),
           [Ast(inp, name + 2, it), p])
  }

  function AstItems(inp: Input, pos: int, l: Syns): seq<Tree>
    decreases l, 1
  {
    match l
    case Nil => []
    case Cons(h, t) => [Ast(inp, pos, h)] + AstMore(inp, M(inp, pos, h), t)
  }

  function AstMore(inp: Input, pos: int, l: Syns): seq<Tree>
    decreases l, 0
  {
    match l
    case Nil => []
    case Cons(h, t) => [Ast(inp, pos + 1, h)] + AstMore(inp, M(inp, pos + 1, h), t)
  }

  function AstSeq(inp: Input, pos: int, l: Syns): seq<Tree>
    decreases l, 0
  {
    match l
    case Nil => []
    case Cons(h, t) => [Ast(inp, pos, h)] + AstSeq(inp, M(inp, pos, h), t)
  }
}
