/** The abstract syntax trees that the parser stores, as values. */
module Trees {
  import opened Tokens

  newtype NodeKind = n: int | 0 <= n < 63

  const Error: NodeKind := 0
  const SourceFile: NodeKind := 1
  const ArgList: NodeKind := 2
  const DocComment: NodeKind := 3
  const FileDocComment: NodeKind := 4
  const FnDecl: NodeKind := 5
  const StructDecl: NodeKind := 6
  const EnumDecl: NodeKind := 7
  const UnionDecl: NodeKind := 8
  const ModDecl: NodeKind := 9
  const ModDeclFile: NodeKind := 10
  const UseDecl: NodeKind := 11
  const ConstDecl: NodeKind := 12
  const TraitDecl: NodeKind := 13
  const ImplDecl: NodeKind := 14
  const StructField: NodeKind := 15
  const EnumVariantUnit: NodeKind := 16
  const EnumVariantTuple: NodeKind := 17
  const EnumVariantStruct: NodeKind := 18
  const Param: NodeKind := 19
  const ParamList: NodeKind := 20
  const GenericParam: NodeKind := 21
  const GenericParamList: NodeKind := 22
  const LetStmt: NodeKind := 23
  const RetStmt: NodeKind := 24
  const ForStmt: NodeKind := 25
  const WhileStmt: NodeKind := 26
  const BreakStmt: NodeKind := 27
  const ContinueStmt: NodeKind := 28
  const UnsafeBlock: NodeKind := 29
  const BlockExpr: NodeKind := 30
  const IfExpr: NodeKind := 31
  const MatchExpr: NodeKind := 32
  const MatchArm: NodeKind := 33
  const BinaryExpr: NodeKind := 34
  const UnaryExpr: NodeKind := 35
  const CastExpr: NodeKind := 36
  const ProjAssignExpr: NodeKind := 37
  const CallExpr: NodeKind := 38
  const IndexExpr: NodeKind := 39
  const TensorIndexExpr: NodeKind := 40
  const FieldExpr: NodeKind := 41
  const TupleIndexExpr: NodeKind := 42
  const StructLitExpr: NodeKind := 43
  const ArrayLitExpr: NodeKind := 44
  const ArrayRepeatExpr: NodeKind := 45
  const TensorLitExpr: NodeKind := 46
  const TupleExpr: NodeKind := 47
  const FieldInit: NodeKind := 48
  const IdentExpr: NodeKind := 49
  const PathExpr: NodeKind := 50
  const LitExpr: NodeKind := 51
  const PropagateExpr: NodeKind := 52
  const NamedType: NodeKind := 53
  const ArrayType: NodeKind := 54
  const TensorType: NodeKind := 55
  const TupleType: NodeKind := 56
  const WildcardPat: NodeKind := 57
  const LiteralPat: NodeKind := 58
  const IdentPat: NodeKind := 59
  const StructPat: NodeKind := 60
  const TuplePat: NodeKind := 61
  const FieldPat: NodeKind := 62

  datatype Regime = Imm | Mut | Proj | NoRegime

  // What the 32-bit payload word of a node stands for.
  datatype Payload =
    | Zero
    | Name(text: string)
    | NameRegime(text: string, regime: Regime)
    | Op(kind: Kind)
    | Count(n: nat)

  // A node with everything below it; `NullTree` is the absent child.
  datatype Tree =
    | NullTree
    | Tree(kind: NodeKind, span: Span, payload: Payload, flags: nat, kids: seq<Tree>)
}

/** Concrete syntax of expressions, statements, types and patterns, with every parenthesis
    and trailing comma recorded, and the grammar of the language over it. */
module Grammar {
  import opened Tokens
  import opened Trees

  /** Concrete syntax by class; leaves carry no text, the tokens do. */
  datatype Syn =
    | Absent
    | Ty(t: TypeForm)
    | Pt(p: PatForm)
    | Fl(f: FieldForm)
    | Ex(e: ExprForm)
    | Ar(pat: Syn, val: Syn, sep: bool)
    | St(s: StmtForm)

  datatype Syns = Nil | Cons(hd: Syn, tl: Syns)

  datatype TypeForm =
    | TNamed(segs: nat)
    | TTuple(items: Syns, trail: Switch)
    | TArray(elem: Syn, size: Syn)
    | TTensor(elem: Syn, dims: Syns, trail: Switch)

  datatype PatForm =
    | PWild
    | PLit
    | PName(segs: nat)
    | PTuple(named: Switch, segs: nat, items: Syns, trail: Switch)
    | PStruct(segs: nat, fields: Syns, trail: Switch)

  // A field of a struct pattern or of a struct literal, in full or shorthand.
  datatype FieldForm = PField(sub: Syn) | PFieldShort | FInit(val: Syn) | FShort

  datatype ExprForm =
    | ELit
    | EName(segs: nat)
    | EStruct(segs: nat, fields: Syns, trail: Switch)
    | EParen(inner: Syn)
    | ETuple(items: Syns, trail: Switch)
    | EArray(items: Syns, trail: Switch)
    | ERepeat(val: Syn, count: Syn)
    | ETensor(vals: Syns, vtrail: Switch, dims: Syns, trail: Switch)
    | EUnary(op: Kind, arg: Syn)
    | EProj(arg: Syn, rhs: Syn)
    | EBin(left: Syn, op: Kind, right: Syn)
    | ECall(base: Syn, args: Syns)
    | EField(base: Syn)
    | ETupleIdx(base: Syn)
    | EFloatIdx(base: Syn, two: bool)
    | EIndex(base: Syn, items: Syns, trail: Switch)
    | ETry(base: Syn)
    | ECast(base: Syn, ty: Syn)
    | EIf(cond: Syn, thn: Syn, els: Syn)
    | EWhile(cond: Syn, body: Syn)
    | EMatch(cond: Syn, arms: Syns)
    | EUnsafe(stmts: Syns)
    | EBlock(stmts: Syns)

  // `SItem` is an `if`, `while`, `unsafe` or plain block standing as a statement of its own.
  datatype StmtForm =
    | SItem(expr: Syn)
    | SLet(reg: bool, ty: Syn, init: Syn)
    | SExpr(expr: Syn)
    | SRet(expr: Syn)
    | SBreak
    | SContinue
    | SFor(reg: bool, iter: Syn, body: Syn)

  // The comma lists of the language, by what closes them and what they hold.
  datatype ListKind =
    | LTypes | LPats | LFieldPats | LFieldInits | LArgs | LTuple | LArray | LIndex | LTensorVals | LDims

  datatype Class = CExpr | CType | CPat | CFieldPat | CFieldInit

  function ClassOf(lk: ListKind): Class {
    match lk
    case LTypes => CType
    case LPats => CPat
    case LFieldPats => CFieldPat
    case LFieldInits => CFieldInit
    case _ => CExpr
  }

  // The tokens before which a trailing comma is accepted; an argument list has none.
  predicate IsStop(lk: ListKind, k: Kind) {
    match lk
    case LTypes => k == RParen
    case LPats => k == RParen
    case LFieldPats => k == RBrace
    case LFieldInits => k == RBrace
    case LArgs => false
    case LTuple => k == RParen
    case LArray => k == RSquare
    case LIndex => k == RSquare
    case LTensorVals => k == Semi || k == RSquare
    case LDims => k == RSquare
  }

  /////////////////////////// binding powers ///////////////////////////

  datatype Power = Power(left: int, right: int)

  function InfixBindingPower(k: Kind): Power {
    if k == Eq || PlusEq <= k <= GreaterGreaterEq then Power(10, 9)
    else if k == PipePipe then Power(20, 21)
    else if k == AmpAmp then Power(30, 31)
    else if k == EqEq || k == BangEq || k == Less || k == Greater || k == LessEq || k == GreaterEq then Power(40, 41)
    else if k == Pipe then Power(50, 51)
    else if k == Caret then Power(60, 61)
    else if k == Amp then Power(70, 71)
    else if k == LessLess || k == GreaterGreater then Power(80, 81)
    else if k == Plus || k == Minus then Power(90, 91)
    else if k == Star || k == Slash || k == Percent then Power(100, 101)
    else Power(-1, -1)
  }

  function LeftPower(k: Kind): int { InfixBindingPower(k).left }

  function RightPower(k: Kind): int { InfixBindingPower(k).right }

  predicate IsPrefixOp(k: Kind) { k == Bang || k == Minus || k == Amp || k == Star }

  function PrefixBindingPower(k: Kind): int { if IsPrefixOp(k) then 110 else -1 }

  predicate IsPostfix(k: Kind) { k == LParen || k == Dot || k == LSquare || k == Question || k == KwAs }

  // How strongly a token pulls the expression on its left: a postfix token beats every
  // operator of the table, a token that continues no expression has no pull at all.
  function Pull(k: Kind): int { if IsPostfix(k) then 1000 else LeftPower(k) }

  /////////////////////////// classes ///////////////////////////

  predicate InClass(c: Class, s: Syn) {
    match c
    case CExpr => s.Ex?
    case CType => s.Ty?
    case CPat => s.Pt?
    case CFieldPat => s.Fl? && (s.f.PField? || s.f.PFieldShort?)
    case CFieldInit => s.Fl? && (s.f.FInit? || s.f.FShort?)
  }

  // Expressions that begin with another expression.
  predicate IsTail(e: ExprForm) {
    e.EBin? || e.ECall? || e.EField? || e.ETupleIdx? || e.EFloatIdx? || e.EIndex? || e.ETry? || e.ECast?
  }

  function Head(e: ExprForm): Syn
    requires IsTail(e)
  {
    if e.EBin? then e.left else e.base
  }

  // The expression at the left end of the left spine.
  function LeftAtom(s: Syn): Syn {
    if s.Ex? && IsTail(s.e) then LeftAtom(Head(s.e)) else s
  }

  // A statement that opens with one of these is no expression statement.
  predicate IsBlockLike(s: Syn) { s.Ex? && (s.e.EIf? || s.e.EWhile? || s.e.EUnsafe? || s.e.EBlock?) }

  predicate IsBlock(s: Syn) { s.Ex? && s.e.EBlock? }

  /////////////////////////// spines ///////////////////////////

  /** Every unparenthesised infix operator on the left spine binds at least as tightly as `m`. */
  predicate LeftOk(s: Syn, m: int) {
    s.Ex? && IsTail(s.e) ==> LeftOk(Head(s.e), m) && (s.e.EBin? ==> LeftPower(s.e.op) >= m)
  }

  /** Token `k` can stand right after `s` without belonging to `s`: nothing on the right spine
      of `s` would have gone on to take it. */
  predicate Follow(s: Syn, k: Kind, sl: Switch)
    decreases s, 1
  {
    match s
    case Ex(e) => FollowExpr(e, k, sl)
    case Ty(t) => t.TNamed? ==> k != ColonColon
    case Pt(p) => p.PName? ==> k != ColonColon && k != LParen && k != LBrace
    case Fl(f) =>
      (match f
       case PField(sub) => Follow(sub, k, sl)
       case PFieldShort => k != Colon
       case FInit(v) => Pull(k) < 0 && Follow(v, k, sl)
       case FShort => k != Colon)
    case _ => true
  }

  predicate FollowExpr(e: ExprForm, k: Kind, sl: Switch)
    decreases e, 0
  {
    match e
    case EBin(_, op, r) => Pull(k) < RightPower(op) && Follow(r, k, sl)
    case EUnary(op, a) => Pull(k) < 110 && (op == Star ==> k != Eq) && Follow(a, k, sl)
    case EProj(_, r) => Pull(k) < 0 && Follow(r, k, sl)
    case EName(_) => k != ColonColon && (sl.On? ==> k != LBrace)
    case ECast(_, ty) => Follow(ty, k, sl)
    case EIf(_, _, els) => if els.Absent? then k != KwElse else Follow(els, k, sl)
    case _ => true
  }

  /////////////////////////// the grammar ///////////////////////////

  function Size(l: Syns): nat { if l.Nil? then 0 else 1 + Size(l.tl) }

  /** Well-formed syntax. `sl` says whether a struct literal may stand here unbracketed. */
  predicate WF(s: Syn, sl: Switch)
    decreases s, 1
  {
    match s
    case Absent => true
    case Ty(t) => WFType(t, sl)
    case Pt(p) => WFPat(p, sl)
    case Fl(f) => (f.PField? ==> f.sub.Pt? && WF(f.sub, sl)) && (f.FInit? ==> f.val.Ex? && WF(f.val, sl))
    case Ex(e) => WFExpr(e, sl)
    case Ar(p, v, _) => p.Pt? && WF(p, sl) && v.Ex? && WF(v, sl)
    case St(s) => WFStmt(s, sl)
  }

  predicate WFType(t: TypeForm, sl: Switch)
    decreases t, 0
  {
    match t
    case TNamed(_) => true
    case TTuple(items, tr) => WFItems(LTypes, items, tr, sl)
    case TArray(e, n) => e.Ty? && WF(e, sl) && n.Ex? && WF(n, sl)
    case TTensor(e, d, tr) => e.Ty? && WF(e, sl) && d.Cons? && WFItems(LDims, d, tr, sl)
  }

  predicate WFPat(p: PatForm, sl: Switch)
    decreases p, 0
  {
    match p
    case PTuple(named, segs, items, tr) => WFItems(LPats, items, tr, sl) && (named.Off? ==> segs == 0)
    case PStruct(_, fs, tr) => WFItems(LFieldPats, fs, tr, sl)
    case _ => true
  }

  predicate WFExpr(e: ExprForm, sl: Switch)
    decreases e, 0
  {
    match e
    case ELit => true
    case EName(_) => true
    case EStruct(_, fs, tr) => sl.On? && WFItems(LFieldInits, fs, tr, On)
    case EParen(i) => i.Ex? && WF(i, On)
    case ETuple(items, tr) => WFItems(LTuple, items, tr, On) && (items.Cons? && items.tl.Nil? ==> tr.On?)
    case EArray(items, tr) => WFItems(LArray, items, tr, On)
    case ERepeat(v, n) => v.Ex? && WF(v, On) && n.Ex? && WF(n, On)
    case ETensor(vs, vt, ds, dt) =>
      vs.Cons? && WFItems(LTensorVals, vs, vt, On) && Size(ds) % 0x1_0000 != 0 && WFItems(LDims, ds, dt, sl)
    case EUnary(op, a) => IsPrefixOp(op) && a.Ex? && WF(a, sl) && LeftOk(a, 110)
    case EProj(a, r) => a.Ex? && WF(a, sl) && LeftOk(a, 110) && Follow(a, Eq, sl) && r.Ex? && WF(r, sl)
    case EBin(l, op, r) =>
      && LeftPower(op) >= 0
      && l.Ex? && WF(l, sl) && Follow(l, op, sl)
      && r.Ex? && WF(r, sl) && LeftOk(r, RightPower(op))
    case ECall(b, args) => b.Ex? && WF(b, sl) && Follow(b, LParen, sl) && WFItems(LArgs, args, Off, On)
    case EField(b) => b.Ex? && WF(b, sl) && Follow(b, Dot, sl)
    case ETupleIdx(b) => b.Ex? && WF(b, sl) && Follow(b, Dot, sl)
    case EFloatIdx(b, _) => b.Ex? && WF(b, sl) && Follow(b, Dot, sl)
    case EIndex(b, items, tr) =>
      b.Ex? && WF(b, sl) && Follow(b, LSquare, sl) && items.Cons? && WFItems(LIndex, items, tr, On)
    case ETry(b) => b.Ex? && WF(b, sl) && Follow(b, Question, sl)
    case ECast(b, ty) => b.Ex? && WF(b, sl) && Follow(b, KwAs, sl) && ty.Ty? && WF(ty, sl)
    case EIf(c, t, els) =>
      && c.Ex? && WF(c, Off) && IsBlock(t) && WF(t, sl)
      && (els.Absent? || (els.Ex? && (els.e.EIf? || els.e.EBlock?) && WF(els, sl)))
    case EWhile(c, b) => c.Ex? && WF(c, Off) && IsBlock(b) && WF(b, sl)
    case EMatch(c, arms) => c.Ex? && WF(c, Off) && WFArms(arms, sl)
    case EUnsafe(stmts) => WFStmts(stmts, sl)
    case EBlock(stmts) => WFStmts(stmts, sl)
  }

  predicate WFStmt(s: StmtForm, sl: Switch)
    decreases s, 0
  {
    match s
    case SItem(e) => IsBlockLike(e) && WF(e, sl)
    case SLet(_, ty, init) =>
      (ty.Absent? || (ty.Ty? && WF(ty, sl))) && (init.Absent? || (init.Ex? && WF(init, sl)))
    case SExpr(e) => e.Ex? && WF(e, sl) && !IsBlockLike(LeftAtom(e))
    case SRet(e) => e.Ex? && WF(e, sl)
    case SBreak => true
    case SContinue => true
    case SFor(_, it, b) => it.Ex? && WF(it, Off) && IsBlock(b) && WF(b, sl)
  }

  predicate WFItems(lk: ListKind, l: Syns, trail: Switch, sl: Switch)
    decreases l, 1
  {
    && WFAll(ClassOf(lk), l, sl)
    && (trail.On? ==> l.Cons? && !lk.LArgs?)
  }

  predicate WFAll(c: Class, l: Syns, sl: Switch)
    decreases l, 0
  {
    match l
    case Nil => true
    case Cons(h, t) => InClass(c, h) && WF(h, sl) && WFAll(c, t, sl)
  }

  // An arm for an anonymous tuple pattern.
  predicate IsTupleArm(s: Syn) { s.Ar? && s.pat.Pt? && s.pat.p.PTuple? && s.pat.p.named.Off? }

  // An arm that ends without a separator cannot be followed by an anonymous tuple pattern:
  // its parenthesis would read as a call of the arm's value.
  predicate WFArms(l: Syns, sl: Switch)
    decreases l, 0
  {
    match l
    case Nil => true
    case Cons(a, t) =>
      && a.Ar? && WF(a, sl) && WFArms(t, sl)
      && (!a.sep && t.Cons? ==> !IsTupleArm(t.hd))
  }

  predicate WFStmts(l: Syns, sl: Switch)
    decreases l, 0
  {
    match l
    case Nil => true
    case Cons(s, t) => s.St? && WF(s, sl) && WFStmts(t, sl)
  }
}
