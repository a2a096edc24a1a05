/** What the Pratt parser is for: it decides the precedence grammar, that grammar is unambiguous,
    and printing with as few parentheses as possible is undone by parsing. */
module Pratt {
  import opened Tokens
  import opened Grammar
  import opened Spelling
  import opened ErrorFree
  import opened Soundness
  import opened Completeness

  /** An expression is read from `pos` to `end` at power `m` without a diagnostic exactly when the
      grammar derives it there. */
  lemma ParsesIffDerives(inp: Input, pos: nat, e: Syn, end: nat, m: int, sl: Switch)
    requires 0 <= m <= 1000
    ensures RunExpr(inp, pos, m, sl) == Ok(e, end) <==> DerivesExpr(inp, pos, e, end, m, sl)
  {
    hide M, WF, Follow, LeftOk, RunExpr;
    SoundExpr(inp, pos, m, sl);
    if DerivesExpr(inp, pos, e, end, m, sl) { CompleteExpr(inp, pos, e, end, m, sl); }
  }

  /** At most one precedence-respecting tree fits the tokens at a position, and it ends in at most
      one place. */
  lemma Unambiguous(inp: Input, pos: nat, e1: Syn, end1: nat, e2: Syn, end2: nat, m: int, sl: Switch)
    requires 0 <= m <= 1000
    requires DerivesExpr(inp, pos, e1, end1, m, sl) && DerivesExpr(inp, pos, e2, end2, m, sl)
    ensures e1 == e2 && end1 == end2
  {
    hide M, WF, Follow, LeftOk, RunExpr;
    CompleteExpr(inp, pos, e1, end1, m, sl);
    CompleteExpr(inp, pos, e2, end2, m, sl);
  }

  /** The same for a block of statements. */
  lemma BlockIffDerives(inp: Input, pos: nat, s: Syn, end: nat, sl: Switch)
    ensures RunBlock(inp, pos, sl) == Ok(s, end) <==> IsBlock(s) && M(inp, pos, s) == end && WF(s, sl)
  {
    hide M, WF, Follow, RunBlock;
    SoundBlock(inp, pos, sl);
    if IsBlock(s) && M(inp, pos, s) == end && WF(s, sl) { CompleteBlockExpr(inp, pos, s, end, sl); }
  }

  /////////////////////////// struct literals ///////////////////////////

  // A struct literal that no parenthesis, argument list, index, array or tensor value encloses.
  predicate ExposesStruct(s: Syn)
    decreases s, 1
  {
    match s
    case Ex(e) => ExposesStructExpr(e)
    case Ty(t) =>
      (match t
       case TTuple(items, _) => AnyExposes(items)
       case TArray(e, n) => ExposesStruct(e) || ExposesStruct(n)
       case TTensor(e, d, _) => ExposesStruct(e) || AnyExposes(d)
       case TNamed(_) => false)
    case Ar(_, v, _) => ExposesStruct(v)
    case St(st) =>
      (match st
       case SItem(e) => ExposesStruct(e)
       case SLet(_, ty, init) => ExposesStruct(ty) || ExposesStruct(init)
       case SExpr(e) => ExposesStruct(e)
       case SRet(e) => ExposesStruct(e)
       case SFor(_, it, b) => ExposesStruct(it) || ExposesStruct(b)
       case SBreak => false
       case SContinue => false)
    case _ => false
  }

  predicate ExposesStructExpr(e: ExprForm)
    decreases e, 0
  {
    match e
    case EStruct(_, _, _) => true
    case ETensor(_, _, d, _) => AnyExposes(d)
    case EUnary(_, a) => ExposesStruct(a)
    case EProj(a, r) => ExposesStruct(a) || ExposesStruct(r)
    case EBin(l, _, r) => ExposesStruct(l) || ExposesStruct(r)
    case ECall(b, _) => ExposesStruct(b)
    case EField(b) => ExposesStruct(b)
    case ETupleIdx(b) => ExposesStruct(b)
    case EFloatIdx(b, _) => ExposesStruct(b)
    case EIndex(b, _, _) => ExposesStruct(b)
    case ETry(b) => ExposesStruct(b)
    case ECast(b, ty) => ExposesStruct(b) || ExposesStruct(ty)
    case EIf(c, t, x) => ExposesStruct(c) || ExposesStruct(t) || ExposesStruct(x)
    case EWhile(c, b) => ExposesStruct(c) || ExposesStruct(b)
    case EMatch(c, arms) => ExposesStruct(c) || AnyExposes(arms)
    case EUnsafe(st) => AnyExposes(st)
    case EBlock(st) => AnyExposes(st)
    case _ => false
  }

  predicate AnyExposes(l: Syns)
    decreases l, 0
  {
    l.Cons? && (ExposesStruct(l.hd) || AnyExposes(l.tl))
  }

  lemma {:induction false} NoExposed(s: Syn)
    requires WF(s, Off)
    ensures !ExposesStruct(s)
    decreases s, 1
  {
    hide LeftOk, Follow;
    match s {
      case Ex(e) => NoExposedExpr(e);
      case Ty(t) => NoExposedType(t);
      case Ar(_, v, _) => NoExposed(v);
      case St(st) => NoExposedStmt(st);
      case _ =>
    }
  }

  lemma {:induction false} NoExposedType(t: TypeForm)
    requires WFType(t, Off)
    ensures !ExposesStruct(Ty(t))
    decreases t, 0
  {
    hide LeftOk, Follow;
    match t
    case TTuple(items, _) => NoneExposed(CType, items);
    case TArray(e, n) => NoExposed(e); NoExposed(n);
    case TTensor(e, d, _) => NoExposed(e); NoneExposed(CExpr, d);
    case TNamed(_) =>
  }

  lemma {:induction false} NoExposedStmt(st: StmtForm)
    requires WFStmt(st, Off)
    ensures !ExposesStruct(St(st))
    decreases st, 0
  {
    hide LeftOk, Follow;
    match st
    case SItem(e) => NoExposed(e);
    case SLet(_, ty, init) => NoExposed(ty); NoExposed(init);
    case SExpr(e) => NoExposed(e);
    case SRet(e) => NoExposed(e);
    case SFor(_, it, b) => NoExposed(it); NoExposed(b);
    case SBreak =>
    case SContinue =>
  }

  lemma {:induction false} NoExposedExpr(e: ExprForm)
    requires WFExpr(e, Off)
    ensures !ExposesStructExpr(e)
    decreases e, 0
  {
    hide LeftOk, Follow, ExposesStruct;
    if IsTail(e) { NoExposed(Head(e)); }
    match e
    case ETensor(_, _, d, _) => NoneExposed(CExpr, d);
    case EUnary(_, a) => NoExposed(a);
    case EProj(a, r) => NoExposed(a); NoExposed(r);
    case EBin(_, _, r) => NoExposed(r);
    case ECast(_, ty) => NoExposed(ty);
    case EIf(c, t, x) => NoExposed(c); NoExposed(t); NoExposed(x);
    case EWhile(c, b) => NoExposed(c); NoExposed(b);
    case EMatch(c, arms) => NoExposed(c); NoneExposedArms(arms);
    case EUnsafe(st) => NoneExposedStmts(st);
    case EBlock(st) => NoneExposedStmts(st);
    case _ =>
  }

  lemma {:induction false} NoneExposed(c: Class, l: Syns)
    requires WFAll(c, l, Off)
    ensures !AnyExposes(l)
    decreases l, 0
  {
    if l.Cons? { NoExposed(l.hd); NoneExposed(c, l.tl); }
  }

  lemma {:induction false} NoneExposedArms(l: Syns)
    requires WFArms(l, Off)
    ensures !AnyExposes(l)
    decreases l, 0
  {
    if l.Cons? { NoExposed(l.hd); NoneExposedArms(l.tl); }
  }

  lemma {:induction false} NoneExposedStmts(l: Syns)
    requires WFStmts(l, Off)
    ensures !AnyExposes(l)
    decreases l, 0
  {
    if l.Cons? { NoExposed(l.hd); NoneExposedStmts(l.tl); }
  }

  /** Where struct literals are switched off, an error-free expression holds none outside brackets. */
  lemma StructLitDiscipline(inp: Input, pos: nat, m: int)
    requires m >= 0
    ensures var r := RunExpr(inp, pos, m, Off); r.Ok? ==> !ExposesStruct(r.syn)
  {
    hide M, Follow, LeftOk, RunExpr, ExposesStruct, WF;
    SoundExpr(inp, pos, m, Off);
    var r := RunExpr(inp, pos, m, Off);
    if r.Ok? { NoExposed(r.syn); }
  }

  /** The brace behind an `if` header opens its block: the header of an error-free `if` is a whole
      expression without an exposed struct literal, and the next token is that brace. */
  lemma IfHeader(inp: Input, pos: nat, sl: Switch)
    requires KindAt(inp, pos) == KwIf
    ensures var r := RunIf(inp, pos, sl);
            r.Ok? ==> && r.syn.Ex? && r.syn.e.EIf? && !ExposesStruct(r.syn.e.cond)
                      && KindAt(inp, M(inp, pos + 1, r.syn.e.cond)) == LBrace
  {
    hide M, Follow, LeftOk, RunExpr, ExposesStruct, WF, RunIfElse;
    SoundIf(inp, pos, sl);
    var r := RunIf(inp, pos, sl);
    if r.Ok? {
      DefEx(inp, pos, r.syn.e, KindAt(inp, r.end), sl);
      NoExposed(r.syn.e.cond);
      BlockHead(inp, M(inp, pos + 1, r.syn.e.cond), r.syn.e.thn);
    }
  }

  /** The same for `while`. */
  lemma WhileHeader(inp: Input, pos: nat, sl: Switch)
    requires KindAt(inp, pos) == KwWhile
    ensures var r := RunWhile(inp, pos, sl);
            r.Ok? ==> && r.syn.Ex? && r.syn.e.EWhile? && !ExposesStruct(r.syn.e.cond)
                      && KindAt(inp, M(inp, pos + 1, r.syn.e.cond)) == LBrace
  {
    hide M, Follow, LeftOk, RunExpr, ExposesStruct, WF, RunBlock;
    SoundWhile(inp, pos, sl);
    var r := RunWhile(inp, pos, sl);
    if r.Ok? {
      DefEx(inp, pos, r.syn.e, KindAt(inp, r.end), sl);
      NoExposed(r.syn.e.cond);
      BlockHead(inp, M(inp, pos + 1, r.syn.e.cond), r.syn.e.body);
    }
  }

  /** The same for `match`, whose brace opens the arms. */
  lemma MatchHeader(inp: Input, pos: nat, sl: Switch)
    requires KindAt(inp, pos) == KwMatch
    ensures var r := RunMatch(inp, pos, sl);
            r.Ok? ==> && r.syn.Ex? && r.syn.e.EMatch? && !ExposesStruct(r.syn.e.cond)
                      && KindAt(inp, M(inp, pos + 1, r.syn.e.cond)) == LBrace
  {
    hide M, Follow, LeftOk, RunExpr, ExposesStruct, WF, RunArms;
    SoundMatch(inp, pos, sl);
    var r := RunMatch(inp, pos, sl);
    if r.Ok? {
      DefEx(inp, pos, r.syn.e, KindAt(inp, r.end), sl);
      NoExposed(r.syn.e.cond);
    }
  }

  /** The same for `for`, whose iterated expression stands behind `in`. */
  lemma ForHeader(inp: Input, pos: nat, sl: Switch)
    requires KindAt(inp, pos) == KwFor
    ensures var r := RunFor(inp, pos, sl);
            r.Ok? ==> && r.syn.St? && r.syn.s.SFor? && !ExposesStruct(r.syn.s.iter)
                      && var it := pos + (if r.syn.s.reg then 4 else 3);
                         KindAt(inp, it - 1) == KwIn && KindAt(inp, M(inp, it, r.syn.s.iter)) == LBrace
  {
    hide M, Follow, LeftOk, RunExpr, ExposesStruct, WF, RunBlock;
    SoundFor(inp, pos, sl);
    var r := RunFor(inp, pos, sl);
    if r.Ok? {
      DefSt(inp, pos, r.syn.s, sl);
      NoExposed(r.syn.s.iter);
      var it := pos + (if r.syn.s.reg then 4 else 3);
      BlockHead(inp, M(inp, it, r.syn.s.iter), r.syn.s.body);
    }
  }

  lemma BlockHead(inp: Input, pos: int, s: Syn)
    requires IsBlock(s) && M(inp, pos, s) >= 0
    ensures KindAt(inp, pos) == LBrace
  {
    assert M(inp, pos, s) == MExpr(inp, pos, s.e);
  }

  /////////////////////////// minimal parentheses ///////////////////////////

  /** Expression trees: no parentheses, and the forms whose tokens are fixed by the form alone. */
  predicate Plain(s: Syn)
    decreases s
  {
    s.Ex? &&
    match s.e
    case ELit => true
    case EName(_) => true
    case ETuple(items, tr) => AllPlain(items) && (tr.On? <==> items.Cons? && items.tl.Nil?)
    case EArray(items, tr) => AllPlain(items) && tr.Off?
    case EUnary(op, a) => IsPrefixOp(op) && Plain(a)
    case EProj(a, r) => Plain(a) && Plain(r)
    case EBin(l, op, r) => LeftPower(op) >= 0 && Plain(l) && Plain(r)
    case ECall(b, args) => Plain(b) && AllPlain(args)
    case EField(b) => Plain(b)
    case ETupleIdx(b) => Plain(b)
    case EIndex(b, items, tr) => Plain(b) && items.Cons? && AllPlain(items) && tr.Off?
    case ETry(b) => Plain(b)
    case _ => false
  }

  predicate AllPlain(l: Syns)
    decreases l
  {
    l.Cons? ==> Plain(l.hd) && AllPlain(l.tl)
  }

  function Bracket(s: Syn): Syn { Ex(EParen(s)) }

  // The left neighbour of token `k`, bracketed if its right spine would absorb `k`.
  function Before(s: Syn, k: Kind): Syn { if Follow(s, k, Off) then s else Bracket(s) }

  // The right operand at power `m`, bracketed if its left spine holds a weaker operator.
  function After(s: Syn, m: int): Syn { if LeftOk(s, m) then s else Bracket(s) }

  // The target of `*target =`.
  function Target(s: Syn): Syn { if LeftOk(s, 110) && Follow(s, Eq, Off) then s else Bracket(s) }

  /** The tree with as few parentheses as the grammar allows. */
  function MinParens(s: Syn): Syn
    decreases s
  {
    if !s.Ex? then s else
    match s.e
    case ETuple(items, tr) => Ex(ETuple(AllMin(items), tr))
    case EArray(items, tr) => Ex(EArray(AllMin(items), tr))
    case EUnary(op, a) => Ex(EUnary(op, After(MinParens(a), 110)))
    case EProj(a, r) => Ex(EProj(Target(MinParens(a)), MinParens(r)))
    case EBin(l, op, r) => Ex(EBin(Before(MinParens(l), op), op, After(MinParens(r), RightPower(op))))
    case ECall(b, args) => Ex(ECall(Before(MinParens(b), LParen), AllMin(args)))
    case EField(b) => Ex(EField(Before(MinParens(b), Dot)))
    case ETupleIdx(b) => Ex(ETupleIdx(Before(MinParens(b), Dot)))
    case EIndex(b, items, tr) => Ex(EIndex(Before(MinParens(b), LSquare), AllMin(items), tr))
    case ETry(b) => Ex(ETry(Before(MinParens(b), Question)))
    case _ => s
  }

  function AllMin(l: Syns): Syns
    decreases l
  {
    if l.Nil? then Nil else Cons(MinParens(l.hd), AllMin(l.tl))
  }

  /** Forget the parentheses. */
  function Strip(s: Syn): Syn
    decreases s
  {
    if !s.Ex? then s else
    match s.e
    case EParen(i) => Strip(i)
    case ETuple(items, tr) => Ex(ETuple(StripAll(items), tr))
    case EArray(items, tr) => Ex(EArray(StripAll(items), tr))
    case EUnary(op, a) => Ex(EUnary(op, Strip(a)))
    case EProj(a, r) => Ex(EProj(Strip(a), Strip(r)))
    case EBin(l, op, r) => Ex(EBin(Strip(l), op, Strip(r)))
    case ECall(b, args) => Ex(ECall(Strip(b), StripAll(args)))
    case EField(b) => Ex(EField(Strip(b)))
    case ETupleIdx(b) => Ex(ETupleIdx(Strip(b)))
    case EIndex(b, items, tr) => Ex(EIndex(Strip(b), StripAll(items), tr))
    case ETry(b) => Ex(ETry(Strip(b)))
    case _ => s
  }

  function StripAll(l: Syns): Syns
    decreases l
  {
    if l.Nil? then Nil else Cons(Strip(l.hd), StripAll(l.tl))
  }

  // The follow condition does not depend on struct literals for tokens other than a brace.
  lemma {:induction false} FollowSl(s: Syn, k: Kind, sl: Switch)
    requires k != LBrace
    ensures Follow(s, k, sl) == Follow(s, k, Off)
    decreases s
  {
    if s.Ex? {
      match s.e
      case EBin(_, _, r) => FollowSl(r, k, sl);
      case EUnary(_, a) => FollowSl(a, k, sl);
      case EProj(_, r) => FollowSl(r, k, sl);
      case ECast(_, ty) => FollowSl(ty, k, sl);
      case EIf(_, _, els) => FollowSl(els, k, sl);
      case _ =>
    } else if s.Fl? {
      if s.f.PField? { FollowSl(s.f.sub, k, sl); } else if s.f.FInit? { FollowSl(s.f.val, k, sl); }
    }
  }

  // Expressions whose tokens are fixed by the form alone, parentheses included.
  predicate Printable(s: Syn)
    decreases s
  {
    s.Ex? &&
    match s.e
    case ELit => true
    case EName(_) => true
    case EParen(i) => Printable(i)
    case ETuple(items, _) => AllPrintable(items)
    case EArray(items, _) => AllPrintable(items)
    case EUnary(op, a) => IsPrefixOp(op) && Printable(a)
    case EProj(a, r) => Printable(a) && Printable(r)
    case EBin(l, op, r) => LeftPower(op) >= 0 && Printable(l) && Printable(r)
    case ECall(b, args) => Printable(b) && AllPrintable(args)
    case EField(b) => Printable(b)
    case ETupleIdx(b) => Printable(b)
    case EIndex(b, items, _) => Printable(b) && AllPrintable(items)
    case ETry(b) => Printable(b)
    case _ => false
  }

  predicate AllPrintable(l: Syns)
    decreases l
  {
    l.Cons? ==> Printable(l.hd) && AllPrintable(l.tl)
  }

  // Bracketing an operand keeps it well-formed, makes it fit its place, and is undone by `Strip`.
  ghost predicate Fits(s: Syn, plain: Syn) {
    s.Ex? && WF(s, On) && WF(s, Off) && Printable(s) && Strip(s) == plain
  }

  lemma BeforeOk(s: Syn, k: Kind, plain: Syn)
    requires Fits(s, plain) && k != LBrace
    ensures Fits(Before(s, k), plain) && Follow(Before(s, k), k, On) && Follow(Before(s, k), k, Off)
  {
    hide WFExpr, FollowExpr, LeftPower, RightPower;
    FollowSl(Before(s, k), k, On);
    BracketOk(s, k);
  }

  lemma AfterOk(s: Syn, m: int, plain: Syn)
    requires Fits(s, plain)
    ensures Fits(After(s, m), plain) && LeftOk(After(s, m), m)
  {
    hide WFExpr, FollowExpr, LeftPower, RightPower;
    BracketOk(s, Eq);
  }

  lemma TargetOk(s: Syn, plain: Syn)
    requires Fits(s, plain)
    ensures var t := Target(s); Fits(t, plain) && LeftOk(t, 110) && Follow(t, Eq, On) && Follow(t, Eq, Off)
  {
    hide WFExpr, FollowExpr, LeftPower, RightPower;
    FollowSl(Target(s), Eq, On);
    BracketOk(s, Eq);
  }

  lemma BracketOk(s: Syn, k: Kind)
    requires s.Ex? && WF(s, On) && Printable(s)
    ensures Printable(Bracket(s)) && WF(Bracket(s), On) && WF(Bracket(s), Off) && Follow(Bracket(s), k, On)
    ensures Follow(Bracket(s), k, Off)
    ensures Strip(Bracket(s)) == Strip(s)
  {
  }

  /** The printer's tree is well-formed, and forgetting its parentheses gives the tree back. */
  lemma {:induction false} MinParensOk(s: Syn)
    requires Plain(s)
    ensures Fits(MinParens(s), s)
    decreases s, 1
  {
    hide WF, Follow, LeftOk, LeftPower, RightPower, Fits, MinParens, Strip, Before, After, Target, Plain, Printable;
    MinStep(s);
    if s.e.EProj? {
      MinParensOk(s.e.arg);
      MinParensOk(s.e.rhs);
      TargetOk(MinParens(s.e.arg), s.e.arg);
    } else if s.e.EUnary? {
      MinParensOk(s.e.arg);
      AfterOk(MinParens(s.e.arg), 110, s.e.arg);
    } else if s.e.EBin? {
      MinParensOk(s.e.left);
      MinParensOk(s.e.right);
      InfixNotBrace(s.e.op);
      BeforeOk(MinParens(s.e.left), s.e.op, s.e.left);
      AfterOk(MinParens(s.e.right), RightPower(s.e.op), s.e.right);
    } else {
      if s.e.ECall? { AllMinOk(s.e.args); }
      if s.e.ETuple? || s.e.EArray? || s.e.EIndex? { AllMinOk(s.e.items); }
      if IsTail(s.e) {
        MinParensOk(s.e.base);
        BeforeOk(MinParens(s.e.base), PostfixToken(s.e), s.e.base);
      }
    }
    MinBuild(s);
  }

  function PostfixToken(e: ExprForm): Kind {
    if e.ECall? then LParen else if e.EIndex? then LSquare else if e.ETry? then Question else Dot
  }

  lemma InfixNotBrace(op: Kind)
    requires LeftPower(op) >= 0
    ensures op != LBrace
  {
  }

  // The parts of a plain tree are plain.
  lemma MinStep(s: Syn)
    requires Plain(s)
    ensures s.Ex? && !s.e.ECast? && !s.e.EFloatIdx?
    ensures s.e.EProj? ==> Plain(s.e.arg) && Plain(s.e.rhs)
    ensures s.e.EUnary? ==> Plain(s.e.arg)
    ensures s.e.EBin? ==> Plain(s.e.left) && Plain(s.e.right) && LeftPower(s.e.op) >= 0
    ensures s.e.ECall? ==> AllPlain(s.e.args)
    ensures s.e.ETuple? || s.e.EArray? || s.e.EIndex? ==> AllPlain(s.e.items)
    ensures IsTail(s.e) && !s.e.EBin? ==> Plain(s.e.base)
  {
  }

  // A tree whose parts fit their places fits.
  lemma MinBuild(s: Syn)
    requires Plain(s)
    requires s.e.EProj? ==> Fits(MinParens(s.e.rhs), s.e.rhs)
    requires s.e.EProj? ==> var t := Target(MinParens(s.e.arg));
                            Fits(t, s.e.arg) && LeftOk(t, 110) && Follow(t, Eq, On) && Follow(t, Eq, Off)
    requires s.e.EUnary? ==> var t := After(MinParens(s.e.arg), 110); Fits(t, s.e.arg) && LeftOk(t, 110)
    requires s.e.EBin? ==> var t := Before(MinParens(s.e.left), s.e.op);
                           Fits(t, s.e.left) && Follow(t, s.e.op, On) && Follow(t, s.e.op, Off)
    requires s.e.EBin? ==> var t := After(MinParens(s.e.right), RightPower(s.e.op));
                           Fits(t, s.e.right) && LeftOk(t, RightPower(s.e.op))
    requires s.e.ECall? ==> AllFit(AllMin(s.e.args), s.e.args)
    requires s.e.ETuple? || s.e.EArray? || s.e.EIndex? ==> AllFit(AllMin(s.e.items), s.e.items)
    requires IsTail(s.e) && !s.e.EBin? ==> var t := Before(MinParens(s.e.base), PostfixToken(s.e));
                                            Fits(t, s.e.base) && Follow(t, PostfixToken(s.e), On)
                                              && Follow(t, PostfixToken(s.e), Off)
    ensures Fits(MinParens(s), s)
  {
    hide Follow, LeftOk, LeftPower, RightPower, Before, After, Target;
    var e := MinParens(s).e;
    assert WFExpr(e, On);
    assert WFExpr(e, Off);
    assert Strip(Ex(e)) == s;
    assert Printable(Ex(e));
  }

  ghost predicate AllFit(l: Syns, plain: Syns) {
    WFAll(CExpr, l, On) && AllPrintable(l) && StripAll(l) == plain && (l.Cons? <==> plain.Cons?)
      && (l.Cons? ==> (l.tl.Nil? <==> plain.tl.Nil?))
  }

  lemma {:induction false} AllMinOk(l: Syns)
    requires AllPlain(l)
    ensures AllFit(AllMin(l), l)
    decreases l, 0
  {
    hide WF, MinParens, Strip, Printable;
    if l.Cons? {
      MinParensOk(l.hd);
      AllMinOk(l.tl);
    }
  }

  /////////////////////////// printing ///////////////////////////

  // Any literal may stand where the printer writes one.
  function Norm(k: Kind): Kind { if IsLiteral(k) then IntegerLiteral else k }

  function PrintSegs(n: nat): seq<Kind> { if n == 0 then [] else [ColonColon, Identifier] + PrintSegs(n - 1) }

  /** The token kinds of a printable expression, left to right. */
  function Print(s: Syn): seq<Kind>
    decreases s, 0
  {
    if !s.Ex? then [] else
    match s.e
    case ELit => [IntegerLiteral]
    case EName(n) => [Identifier] + PrintSegs(n)
    case EParen(i) => [LParen] + (Print(i) + [RParen])
    case ETuple(items, tr) => [LParen] + (PrintItems(items, tr) + [RParen])
    case EArray(items, tr) => [LSquare] + (PrintItems(items, tr) + [RSquare])
    case EUnary(op, a) => [op] + Print(a)
    case EProj(a, r) => [Star] + (Print(a) + ([Eq] + Print(r)))
    case EBin(l, op, r) => Print(l) + ([op] + Print(r))
    case ECall(b, args) => Print(b) + ([LParen] + (PrintItems(args, Off) + [RParen]))
    case EField(b) => Print(b) + [Dot, Identifier]
    case ETupleIdx(b) => Print(b) + [Dot, IntegerLiteral]
    case EIndex(b, items, tr) => Print(b) + ([LSquare] + (PrintItems(items, tr) + [RSquare]))
    case ETry(b) => Print(b) + [Question]
    case _ => []
  }

  function PrintItems(l: Syns, trail: Switch): seq<Kind>
    decreases l, 2
  {
    if l.Nil? then [] else Print(l.hd) + PrintMore(l.tl, trail)
  }

  function PrintMore(l: Syns, trail: Switch): seq<Kind>
    decreases l, 1
  {
    if l.Nil? then (if trail.On? then [Comma] else []) else [Comma] + (Print(l.hd) + PrintMore(l.tl, trail))
  }

  // The tokens from `pos` on are of these kinds; a tuple index is an integer, never another literal.
  ghost predicate Reads(inp: Input, pos: nat, ks: seq<Kind>) {
    && (forall i :: 0 <= i < |ks| ==> Norm(KindAt(inp, pos + i)) == ks[i])
    && (forall i :: 0 < i < |ks| && ks[i] == IntegerLiteral && ks[i - 1] == Dot ==>
          KindAt(inp, pos + i) == IntegerLiteral)
  }

  lemma ReadsCat(inp: Input, pos: nat, a: seq<Kind>, b: seq<Kind>)
    requires Reads(inp, pos, a + b)
    ensures Reads(inp, pos, a) && Reads(inp, pos + |a|, b)
  {
    var c := a + b;
    assert forall i :: 0 <= i < |a| ==> c[i] == a[i];
    forall i | 0 <= i < |b| ensures Norm(KindAt(inp, pos + |a| + i)) == b[i] && c[|a| + i] == b[i] {
      assert Norm(KindAt(inp, pos + (|a| + i))) == c[|a| + i];
    }
    forall i | 0 < i < |b| && b[i] == IntegerLiteral && b[i - 1] == Dot
      ensures KindAt(inp, pos + |a| + i) == IntegerLiteral
    {
      assert c[|a| + i] == b[i] && c[|a| + i - 1] == b[i - 1];
      assert KindAt(inp, pos + (|a| + i)) == IntegerLiteral;
    }
  }

  // A single token that no literal is mistaken for.
  lemma Reads1(inp: Input, pos: nat, k: Kind, rest: seq<Kind>)
    requires Reads(inp, pos, [k] + rest)
    ensures Norm(KindAt(inp, pos)) == k && Reads(inp, pos + 1, rest)
    ensures !IsLiteral(k) ==> KindAt(inp, pos) == k
  {
    ReadsCat(inp, pos, [k], rest);
    assert Norm(KindAt(inp, pos + 0)) == [k][0];
  }

  lemma {:induction false} SegsSpell(inp: Input, pos: nat, n: nat)
    requires Reads(inp, pos, PrintSegs(n))
    ensures MSegs(inp, pos, n) == pos + |PrintSegs(n)|
    decreases n
  {
    if n > 0 {
      ReadsCat(inp, pos, [ColonColon, Identifier], PrintSegs(n - 1));
      assert [ColonColon, Identifier] == [ColonColon] + [Identifier];
      Reads1(inp, pos, ColonColon, [Identifier]);
      assert [Identifier] == [Identifier] + [];
      Reads1(inp, pos + 1, Identifier, []);
      SegsSpell(inp, pos + 2, n - 1);
    }
  }

  // A literal where one is expected.
  lemma ReadsLit(inp: Input, pos: nat, rest: seq<Kind>)
    requires Reads(inp, pos, [IntegerLiteral] + rest)
    ensures IsLiteral(KindAt(inp, pos))
  {
    Reads1(inp, pos, IntegerLiteral, rest);
  }

  lemma NotLiteral(op: Kind)
    requires IsPrefixOp(op) || LeftPower(op) >= 0
    ensures !IsLiteral(op) && op != Eof && (IsPrefixOp(op) || LeftPower(op) >= 0)
  {
  }

  // Where the two-token tail of a postfix form stands.
  lemma ReadsDot(inp: Input, pos: nat, k: Kind)
    requires Reads(inp, pos, [Dot, k]) && (k == Identifier || k == IntegerLiteral)
    ensures KindAt(inp, pos) == Dot && (k == Identifier ==> KindAt(inp, pos + 1) == k)
  {
    var ks := [Dot, k];
    assert Norm(KindAt(inp, pos + 0)) == ks[0];
    assert Norm(KindAt(inp, pos + 1)) == ks[1];
  }

  // A tuple index is an integer.
  lemma ReadsInt(inp: Input, pos: nat)
    requires Reads(inp, pos, [Dot, IntegerLiteral])
    ensures KindAt(inp, pos + 1) == IntegerLiteral
  {
    var ks := [Dot, IntegerLiteral];
    assert 0 < 1 < |ks| && ks[1] == IntegerLiteral && ks[1 - 1] == Dot;
  }

  /** Tokens of the printed kinds spell the printed expression, all of it and nothing more. */
  lemma {:induction false} PrintSpells(inp: Input, pos: nat, s: Syn)
    requires Printable(s) && Reads(inp, pos, Print(s))
    ensures M(inp, pos, s) == pos + |Print(s)|
    decreases s, 1
  {
    hide M, Print;
    PrintDef(s);
    DefEx(inp, pos, s.e, Eof, Off);
    if IsTail(s.e) { TailSpells(inp, pos, s.e); } else { AtomSpells(inp, pos, s.e); }
  }

  lemma PrintDef(s: Syn)
    requires Printable(s)
    ensures s.Ex? && Print(s) == PrintForm(s.e)
  {
  }

  // `Print`, one level down.
  function PrintForm(e: ExprForm): seq<Kind> { Print(Ex(e)) }

  lemma {:induction false} AtomSpells(inp: Input, pos: nat, e: ExprForm)
    requires !IsTail(e) && Printable(Ex(e)) && Reads(inp, pos, Print(Ex(e)))
    ensures MExpr(inp, pos, e) == pos + |Print(Ex(e))|
    decreases e, 1
  {
    hide M;
    match e
    case ELit => assert [IntegerLiteral] == [IntegerLiteral] + []; ReadsLit(inp, pos, []);
    case EName(n) => Reads1(inp, pos, Identifier, PrintSegs(n)); SegsSpell(inp, pos + 1, n);
    case EParen(_) => ParenSpells(inp, pos, e);
    case ETuple(items, tr) => EnclosedSpells(inp, pos, LParen, items, tr, RParen);
    case EArray(items, tr) => EnclosedSpells(inp, pos, LSquare, items, tr, RSquare);
    case EUnary(_, _) => UnarySpells(inp, pos, e);
    case EProj(a, r) => ProjSpells(inp, pos, e);
    case _ =>
  }

  lemma {:induction false} ParenSpells(inp: Input, pos: nat, e: ExprForm)
    requires e.EParen? && Printable(Ex(e)) && Reads(inp, pos, Print(Ex(e)))
    ensures MExpr(inp, pos, e) == pos + |Print(Ex(e))|
    decreases e, 0
  {
    hide M;
    Reads1(inp, pos, LParen, Print(e.inner) + [RParen]);
    ReadsCat(inp, pos + 1, Print(e.inner), [RParen]);
    PrintSpells(inp, pos + 1, e.inner);
    ReadsEnd(inp, pos + 1 + |Print(e.inner)|, RParen);
  }

  lemma {:induction false} UnarySpells(inp: Input, pos: nat, e: ExprForm)
    requires e.EUnary? && Printable(Ex(e)) && Reads(inp, pos, Print(Ex(e)))
    ensures MExpr(inp, pos, e) == pos + |Print(Ex(e))|
    decreases e, 0
  {
    hide M;
    NotLiteral(e.op);
    Reads1(inp, pos, e.op, Print(e.arg));
    PrintSpells(inp, pos + 1, e.arg);
  }

  lemma ReadsEnd(inp: Input, pos: nat, k: Kind)
    requires Reads(inp, pos, [k]) && !IsLiteral(k)
    ensures KindAt(inp, pos) == k
  {
    assert [k] == [k] + [];
    Reads1(inp, pos, k, []);
  }

  lemma {:induction false} ProjSpells(inp: Input, pos: nat, e: ExprForm)
    requires e.EProj? && Printable(Ex(e)) && Reads(inp, pos, Print(Ex(e)))
    ensures MExpr(inp, pos, e) == pos + |Print(Ex(e))|
    decreases e, 0
  {
    hide M;
    var (a, r) := (e.arg, e.rhs);
    Reads1(inp, pos, Star, Print(a) + ([Eq] + Print(r)));
    ReadsCat(inp, pos + 1, Print(a), [Eq] + Print(r));
    PrintSpells(inp, pos + 1, a);
    Reads1(inp, pos + 1 + |Print(a)|, Eq, Print(r));
    PrintSpells(inp, pos + 2 + |Print(a)|, r);
  }

  lemma {:induction false} TailSpells(inp: Input, pos: nat, e: ExprForm)
    requires IsTail(e) && Printable(Ex(e)) && Reads(inp, pos, Print(Ex(e)))
    ensures MTail(inp, pos, e) == pos + |Print(Ex(e))|
    decreases e, 3
  {
    hide M;
    if e.EBin? { BinSpells(inp, pos, e); } else { PostfixSpells(inp, pos, e); }
  }

  lemma PrintBin(e: ExprForm)
    requires e.EBin? && Printable(Ex(e))
    ensures Printable(e.left) && Printable(e.right) && e.left.Ex? && e.right.Ex? && LeftPower(e.op) >= 0
    ensures Print(Ex(e)) == Print(e.left) + ([e.op] + Print(e.right))
  {
  }

  lemma {:induction false} BinSpells(inp: Input, pos: nat, e: ExprForm)
    requires e.EBin? && Printable(Ex(e)) && Reads(inp, pos, Print(Ex(e)))
    ensures MTail(inp, pos, e) == pos + |Print(Ex(e))|
    decreases e, 0
  {
    hide M, Print, Reads, Follow, WF, LeftOk;
    var (l, op, r) := (e.left, e.op, e.right);
    PrintBin(e);
    ReadsCat(inp, pos, Print(l), [op] + Print(r));
    NotLiteral(op);
    Reads1(inp, pos + |Print(l)|, op, Print(r));
    PrintSpells(inp, pos, l);
    PrintSpells(inp, pos + |Print(l)| + 1, r);
  }

  // What a postfix form prints behind its base.
  function PrintPostfix(e: ExprForm): seq<Kind>
    requires IsTail(e) && Printable(Ex(e)) && !e.EBin?
    ensures Print(Ex(e)) == Print(e.base) + PrintPostfix(e)
  {
    if e.ECall? then [LParen] + (PrintItems(e.args, Off) + [RParen])
    else if e.EIndex? then [LSquare] + (PrintItems(e.items, e.trail) + [RSquare])
    else if e.EField? then [Dot, Identifier]
    else if e.ETupleIdx? then [Dot, IntegerLiteral]
    else [Question]
  }

  lemma {:induction false} PostfixSpells(inp: Input, pos: nat, e: ExprForm)
    requires IsTail(e) && !e.EBin? && Printable(Ex(e)) && Reads(inp, pos, Print(Ex(e)))
    ensures MTail(inp, pos, e) == pos + |Print(Ex(e))|
    decreases e, 2
  {
    hide M, Print, PrintPostfix, Reads, MTail;
    ReadsCat(inp, pos, Print(e.base), PrintPostfix(e));
    PrintSpells(inp, pos, e.base);
    var q := pos + |Print(e.base)|;
    if e.ECall? || e.EIndex? { ListPostfix(inp, pos, e, q); } else { WordPostfix(inp, pos, e, q); }
  }

  lemma {:induction false} ListPostfix(inp: Input, pos: nat, e: ExprForm, q: nat)
    requires (e.ECall? || e.EIndex?) && Printable(Ex(e))
    requires M(inp, pos, e.base) == q && Reads(inp, q, PrintPostfix(e))
    ensures MTail(inp, pos, e) == q + |PrintPostfix(e)|
    decreases e, 1
  {
    hide M, Print, Reads, Enclosed, PrintItems;
    if e.ECall? {
      EnclosedSpells(inp, q, LParen, e.args, Off, RParen);
    } else {
      EnclosedSpells(inp, q, LSquare, e.items, e.trail, RSquare);
    }
  }

  lemma WordPostfix(inp: Input, pos: nat, e: ExprForm, q: nat)
    requires IsTail(e) && !e.EBin? && !e.ECall? && !e.EIndex? && Printable(Ex(e))
    requires M(inp, pos, e.base) == q && Reads(inp, q, PrintPostfix(e))
    ensures MTail(inp, pos, e) == q + |PrintPostfix(e)|
  {
    hide M, Print, Enclosed, PrintItems;
    if e.EField? {
      ReadsDot(inp, q, Identifier);
    } else if e.ETupleIdx? {
      ReadsDot(inp, q, IntegerLiteral);
      ReadsInt(inp, q);
    } else {
      ReadsEnd(inp, q, Question);
    }
  }

  lemma {:induction false} EnclosedSpells(inp: Input, pos: nat, open: Kind, l: Syns, trail: Switch, close: Kind)
    requires AllPrintable(l) && Reads(inp, pos, [open] + (PrintItems(l, trail) + [close]))
    requires open == LParen || open == LSquare
    requires close == RParen || close == RSquare
    ensures Enclosed(inp, pos, open, l, trail, close) == pos + 2 + |PrintItems(l, trail)|
    decreases l, 3
  {
    hide PrintItems, MItems;
    Reads1(inp, pos, open, PrintItems(l, trail) + [close]);
    ReadsCat(inp, pos + 1, PrintItems(l, trail), [close]);
    ItemsSpell(inp, pos + 1, l, trail);
    ReadsEnd(inp, pos + 1 + |PrintItems(l, trail)|, close);
  }

  lemma {:induction false} ItemsSpell(inp: Input, pos: nat, l: Syns, trail: Switch)
    requires AllPrintable(l) && Reads(inp, pos, PrintItems(l, trail))
    ensures MItems(inp, pos, l, trail) == pos + |PrintItems(l, trail)|
    decreases l, 2
  {
    hide M, Print, MMore, PrintMore;
    if l.Cons? {
      ReadsCat(inp, pos, Print(l.hd), PrintMore(l.tl, trail));
      PrintSpells(inp, pos, l.hd);
      MoreSpell(inp, pos + |Print(l.hd)|, l.tl, trail);
    }
  }

  lemma {:induction false} MoreSpell(inp: Input, pos: nat, l: Syns, trail: Switch)
    requires AllPrintable(l) && Reads(inp, pos, PrintMore(l, trail))
    ensures MMore(inp, pos, l, trail) == pos + |PrintMore(l, trail)|
    decreases l, 1
  {
    hide M, Print;
    if l.Cons? {
      Reads1(inp, pos, Comma, Print(l.hd) + PrintMore(l.tl, trail));
      ReadsCat(inp, pos + 1, Print(l.hd), PrintMore(l.tl, trail));
      PrintSpells(inp, pos + 1, l.hd);
      MoreSpell(inp, pos + 1 + |Print(l.hd)|, l.tl, trail);
    } else if trail.On? {
      ReadsEnd(inp, pos, Comma);
    }
  }

  /////////////////////////// the round trip ///////////////////////////

  /** Print an expression with as few parentheses as the grammar allows; parsing the tokens, whatever
      literals, names and layout they carry, gives exactly that tree back, ends exactly behind it,
      and forgetting its parentheses gives the original expression. */
  lemma RoundTrip(inp: Input, pos: nat, a: Syn, sl: Switch)
    requires Plain(a) && Reads(inp, pos, Print(MinParens(a)))
    requires Quiet(KindAt(inp, pos + |Print(MinParens(a))|))
    ensures var p := MinParens(a);
            RunExpr(inp, pos, 0, sl) == Ok(p, pos + |Print(p)|) && Strip(p) == a
  {
    hide M, WF, Follow, LeftOk, RunExpr, Print, MinParens, Strip, Printable, Plain;
    var p := MinParens(a);
    MinParensOk(a);
    PrintSpells(inp, pos, p);
    LeftZero(p, sl);
    FollowQuiet(p, KindAt(inp, pos + |Print(p)|), sl);
    CompleteExpr(inp, pos, p, pos + |Print(p)|, 0, sl);
  }

  // An operator form one of whose operands the printer would have bracketed.
  predicate Misfit(e: ExprForm) {
    || (e.EBin? && LeftPower(e.op) >= 0
        && (Before(e.left, e.op) != e.left || After(e.right, RightPower(e.op)) != e.right))
    || (e.EUnary? && After(e.arg, 110) != e.arg)
    || (e.EProj? && Target(e.arg) != e.arg)
    || (IsTail(e) && !e.EBin? && !e.ECast? && !e.EFloatIdx? && Before(e.base, PostfixToken(e)) != e.base)
  }

  /** No parenthesis the printer adds can be dropped: the form over its bare operands is a tree that
      no tokens at all are read as. */
  lemma ParensNeeded(inp: Input, pos: nat, m: int, sl: Switch, e: ExprForm)
    requires m >= 0 && Misfit(e)
    ensures var t := RunExpr(inp, pos, m, sl); t.Ok? ==> t.syn != Ex(e)
  {
    hide M, LeftOk, Follow, RunExpr, LeftPower, RightPower;
    SoundExpr(inp, pos, m, sl);
    if e.EBin? { InfixNotBrace(e.op); FollowSl(e.left, e.op, sl); }
    else if e.EProj? { FollowSl(e.arg, Eq, sl); }
    else if IsTail(e) { FollowSl(e.base, PostfixToken(e), sl); }
    assert WF(Ex(e), sl) ==> WFExpr(e, sl);
  }
}
