/** Whatever the grammar derives, the error-free parser reads: back to exactly the same syntax,
    up to exactly the same token. */
module Completeness {
  import opened Tokens
  import opened Grammar
  import opened Spelling
  import opened ErrorFree
  import opened Soundness

  // The tokens no expression, type, pattern, field or statement begins with.
  predicate IsCloser(k: Kind) {
    || k == Eof || k == RParen || k == RSquare || k == RBrace || k == Comma || k == Semi || k == KwElse || k == Eq
    || k == FatArrow
  }

  lemma {:induction false} First(inp: Input, pos: int, s: Syn, sl: Switch)
    requires M(inp, pos, s) >= 0 && WF(s, sl) && !s.Absent?
    ensures !IsCloser(KindAt(inp, pos))
    decreases s
  {
    match s {
      case Ty(t) => FirstType(inp, pos, t);
      case Pt(p) => FirstPat(inp, pos, p);
      case Fl(f) => assert M(inp, pos, s) == MField(inp, pos, f);
      case Ar(p, _, _) => First(inp, pos, p, sl);
      case St(st) => FirstStmt(inp, pos, st, sl);
      case Ex(e) => if IsTail(e) { First(inp, pos, Head(e), sl); } else { FirstExpr(inp, pos, e, sl); }
    }
  }

  lemma FirstType(inp: Input, pos: nat, t: TypeForm)
    requires MType(inp, pos, t) >= 0
    ensures !IsCloser(KindAt(inp, pos))
  {
  }

  lemma FirstPat(inp: Input, pos: nat, p: PatForm)
    requires MPat(inp, pos, p) >= 0
    ensures !IsCloser(KindAt(inp, pos))
  {
  }

  lemma FirstExpr(inp: Input, pos: nat, e: ExprForm, sl: Switch)
    requires !IsTail(e) && MExpr(inp, pos, e) >= 0 && WFExpr(e, sl)
    ensures !IsCloser(KindAt(inp, pos))
  {
  }

  lemma {:induction false} FirstStmt(inp: Input, pos: nat, s: StmtForm, sl: Switch)
    requires MStmt(inp, pos, s) >= 0 && WFStmt(s, sl)
    ensures !IsCloser(KindAt(inp, pos))
    decreases s
  {
    if s.SItem? || s.SExpr? { First(inp, pos, s.expr, sl); }
  }

  // A token that continues nothing.
  predicate Quiet(k: Kind) { Pull(k) < 0 && k != ColonColon && k != LBrace && k != KwElse && k != Colon }

  lemma CloserQuiet(k: Kind)
    requires IsCloser(k) && k != KwElse && k != Eq
    ensures Quiet(k)
  {
  }

  // A quiet token can follow anything.
  lemma {:induction false} FollowQuiet(s: Syn, k: Kind, sl: Switch)
    requires Quiet(k) && WF(s, sl)
    ensures Follow(s, k, sl)
    decreases s
  {
    if s.Ex? {
      FollowQuietExpr(s.e, k, sl);
    } else if s.Fl? {
      if s.f.PField? { FollowQuiet(s.f.sub, k, sl); } else if s.f.FInit? { FollowQuiet(s.f.val, k, sl); }
    }
  }

  lemma {:induction false} FollowQuietExpr(e: ExprForm, k: Kind, sl: Switch)
    requires Quiet(k) && WFExpr(e, sl)
    ensures FollowExpr(e, k, sl)
    decreases e
  {
    match e
    case EBin(_, op, r) => FollowQuiet(r, k, sl); Powers(op);
    case EUnary(_, a) => FollowQuiet(a, k, sl);
    case EProj(_, r) => FollowQuiet(r, k, sl);
    case ECast(_, ty) => FollowQuiet(ty, k, sl);
    case EIf(_, _, els) => if !els.Absent? { FollowQuiet(els, k, sl); }
    case _ =>
  }

  // The opening brace of a block can follow its header, where no struct literal is allowed.
  lemma {:induction false} FollowBrace(s: Syn)
    requires WF(s, Off) && (s.Ex? || s.Ty?)
    ensures Follow(s, LBrace, Off) && Pull(LBrace) < 0
    decreases s
  {
    if s.Ex? {
      match s.e
      case EBin(_, op, r) => FollowBrace(r); Powers(op);
      case EUnary(_, a) => FollowBrace(a);
      case EProj(_, r) => FollowBrace(r);
      case ECast(_, ty) => FollowBrace(ty);
      case EIf(_, _, els) => if !els.Absent? { FollowBrace(els); }
      case _ =>
    }
  }

  lemma {:induction false} CompleteSegs(inp: Input, pos: nat, n: nat)
    requires MSegs(inp, pos, n) >= 0 && KindAt(inp, MSegs(inp, pos, n)) != ColonColon
    ensures RunSegs(inp, pos) == Segs(n, MSegs(inp, pos, n))
    decreases n
  {
    if n > 0 { CompleteSegs(inp, pos + 2, n - 1); }
  }

  /////////////////////////// types and patterns ///////////////////////////

  lemma {:induction false} CompleteType(inp: Input, pos: nat, s: Syn, end: nat, sl: Switch)
    requires s.Ty? && Derives(inp, pos, s, end, sl)
    ensures RunType(inp, pos, sl) == Ok(s, end)
    decreases s, 1
  {
    hide M, WF, Follow, RunComma, RunSegs;
    DefTy(inp, pos, s.t, KindAt(inp, end), sl);
    match s.t
    case TNamed(n) => CompleteSegs(inp, pos + 1, n);
    case TTuple(items, tr) => CompleteComma(inp, pos + 1, items, tr, end - 1, LTypes, sl);
    case TArray(e, n) => CompleteArrayType(inp, pos, s.t, end, sl);
    case TTensor(e, d, tr) => CompleteTensorType(inp, pos, s.t, end, sl);
  }

  lemma {:induction false} CompleteArrayType(inp: Input, pos: nat, t: TypeForm, end: nat, sl: Switch)
    requires t.TArray? && MType(inp, pos, t) == end && WFType(t, sl)
    ensures KindAt(inp, pos) == LSquare && RunArrayType(inp, pos, sl) == Ok(Ty(t), end)
    decreases t, 0
  {
    hide M, WF, Follow, RunType, RunExpr;
    var q := M(inp, pos + 1, t.elem);
    FollowQuiet(t.elem, Semi, sl);
    CompleteType(inp, pos + 1, t.elem, q, sl);
    CompleteFull(inp, q + 1, t.size, end - 1, sl);
  }

  lemma {:induction false} CompleteTensorType(inp: Input, pos: nat, t: TypeForm, end: nat, sl: Switch)
    requires t.TTensor? && MType(inp, pos, t) == end && WFType(t, sl)
    ensures KindAt(inp, pos) == KwTensor && RunTensorType(inp, pos, sl) == Ok(Ty(t), end)
    decreases t, 0
  {
    hide M, WF, Follow, RunType, RunComma, MItems, WFItems;
    var q := M(inp, pos + 2, t.elem);
    FollowQuiet(t.elem, Semi, sl);
    CompleteType(inp, pos + 2, t.elem, q, sl);
    CompleteComma(inp, q + 1, t.dims, t.trail, end - 1, LDims, sl);
  }

  lemma {:induction false} CompletePat(inp: Input, pos: nat, s: Syn, end: nat, sl: Switch)
    requires s.Pt? && Derives(inp, pos, s, end, sl)
    ensures RunPat(inp, pos, sl) == Ok(s, end)
    decreases s, 1
  {
    hide M, WF, Follow, RunPathPat, RunTuplePat, TokText, MPatPath;
    DefPt(inp, pos, s.p, KindAt(inp, end), sl);
    if s.p.PTuple? && s.p.named.Off? {
      CompleteTuplePat(inp, pos, s.p, end, sl);
    } else if !s.p.PWild? && !s.p.PLit? {
      CompletePathPat(inp, pos, s.p, end, sl);
    }
  }

  lemma {:induction false} CompletePathPat(inp: Input, pos: nat, p: PatForm, end: nat, sl: Switch)
    requires p.PName? || p.PStruct? || (p.PTuple? && p.named.On?)
    requires MPat(inp, pos, p) == end && WFPat(p, sl)
    requires p.PName? ==> var k := KindAt(inp, end); k != ColonColon && k != LParen && k != LBrace
    ensures KindAt(inp, pos) == Identifier && TokText(inp, pos) != "_"
    ensures RunPathPat(inp, pos, sl) == Ok(Pt(p), end)
    decreases p, 1
  {
    hide M, WF, Follow, RunComma, RunSegs, RunTuplePat, TokText;
    CompleteSegs(inp, pos + 1, p.segs);
    var q := MSegs(inp, pos + 1, p.segs);
    if p.PTuple? { CompleteTuplePat(inp, q, p, end, sl); }
    if p.PStruct? { CompleteComma(inp, q + 1, p.fields, p.trail, end - 1, LFieldPats, sl); }
  }

  lemma {:induction false} CompleteTuplePat(inp: Input, pos: nat, p: PatForm, end: nat, sl: Switch)
    requires p.PTuple? && Enclosed(inp, pos, LParen, p.items, p.trail, RParen) == end && WFPat(p, sl)
    ensures KindAt(inp, pos) == LParen && RunTuplePat(inp, pos, p.named, p.segs, sl) == Ok(Pt(p), end)
    decreases p, 0
  {
    hide M, WF, Follow, RunComma;
    CompleteComma(inp, pos + 1, p.items, p.trail, end - 1, LPats, sl);
  }

  /////////////////////////// comma lists ///////////////////////////

  lemma {:induction false} CompleteElem(inp: Input, pos: nat, s: Syn, end: nat, c: Class, sl: Switch)
    requires InClass(c, s) && Derives(inp, pos, s, end, sl) && Pull(KindAt(inp, end)) < 0
    ensures RunElem(inp, pos, c, sl) == Ok(s, end)
    decreases s, 2
  {
    hide M, WF, Follow, RunExpr, RunType, RunPat;
    match c
    case CExpr => LeftZero(s, sl); CompleteExpr(inp, pos, s, end, 0, sl);
    case CType => CompleteType(inp, pos, s, end, sl);
    case CPat => CompletePat(inp, pos, s, end, sl);
    case CFieldPat => CompleteField(inp, pos, s.f, end, On, sl);
    case CFieldInit => CompleteField(inp, pos, s.f, end, Off, sl);
  }

  lemma {:induction false} CompleteField(inp: Input, pos: nat, f: FieldForm, end: nat, pat: Switch, sl: Switch)
    requires Derives(inp, pos, Fl(f), end, sl)
    requires if pat.On? then f.PField? || f.PFieldShort? else f.FInit? || f.FShort?
    ensures RunField(inp, pos, pat, sl) == Ok(Fl(f), end)
    decreases f, 0
  {
    hide M, WF, Follow, RunExpr, RunPat;
    DefFl(inp, pos, f, KindAt(inp, end), sl);
    if f.PField? { CompletePat(inp, pos + 2, f.sub, end, sl); }
    if f.FInit? { LeftZero(f.val, sl); CompleteExpr(inp, pos + 2, f.val, end, 0, sl); }
  }

  // `close` ends a list of this kind, and no trailing comma is read before anything else.
  predicate Ends(lk: ListKind, close: Kind) {
    IsCloser(close) && close != Comma && close != KwElse && close != Eq && (lk.LArgs? || IsStop(lk, close))
  }

  lemma {:induction false} CompleteMore(inp: Input, pos: nat, l: Syns, trail: Switch, end: nat, lk: ListKind,
                                        sl: Switch)
    requires MMore(inp, pos, l, trail) == end && WFAll(ClassOf(lk), l, sl) && (trail.On? ==> !lk.LArgs?)
    requires Ends(lk, KindAt(inp, end))
    ensures RunMore(inp, pos, lk, sl) == LOk(l, trail, end)
    decreases l, 3
  {
    hide M, WF, Follow, RunElem, LeftPower;
    match l {
      case Nil =>
      case Cons(h, t) =>
        var q := M(inp, pos + 1, h);
        NextInList(inp, q, t, trail);
        First(inp, pos + 1, h, sl);
        CloserQuiet(KindAt(inp, q));
        FollowQuiet(h, KindAt(inp, q), sl);
        CompleteElem(inp, pos + 1, h, q, ClassOf(lk), sl);
        CompleteMore(inp, q, t, trail, end, lk, sl);
    }
  }

  lemma NextInList(inp: Input, pos: nat, l: Syns, trail: Switch)
    requires MMore(inp, pos, l, trail) >= 0
    ensures KindAt(inp, pos) == Comma || MMore(inp, pos, l, trail) == pos
  {
  }

  lemma {:induction false} CompleteItems(inp: Input, pos: nat, l: Syns, trail: Switch, end: nat, lk: ListKind,
                                         sl: Switch)
    requires l.Cons? && MItems(inp, pos, l, trail) == end && WFItems(lk, l, trail, sl)
    requires Ends(lk, KindAt(inp, end))
    ensures RunItems(inp, pos, lk, sl) == LOk(l, trail, end) && !IsCloser(KindAt(inp, pos))
    decreases l, 4
  {
    hide M, WF, Follow, RunElem, RunMore;
    var q := M(inp, pos, l.hd);
    assert WFAll(ClassOf(lk), l, sl);
    NextInList(inp, q, l.tl, trail);
    First(inp, pos, l.hd, sl);
    FollowQuiet(l.hd, KindAt(inp, q), sl);
    CompleteElem(inp, pos, l.hd, q, ClassOf(lk), sl);
    CompleteMore(inp, q, l.tl, trail, end, lk, sl);
  }

  lemma {:induction false} CompleteComma(inp: Input, pos: nat, l: Syns, trail: Switch, end: nat, lk: ListKind,
                                         sl: Switch)
    requires MItems(inp, pos, l, trail) == end && WFItems(lk, l, trail, sl)
    requires Ends(lk, KindAt(inp, end)) && IsStop(lk, KindAt(inp, end))
    ensures RunComma(inp, pos, lk, sl) == LOk(l, trail, end)
    decreases l, 5
  {
    hide M, WF, Follow, RunItems;
    if l.Cons? { CompleteItems(inp, pos, l, trail, end, lk, sl); }
  }

  /////////////////////////// expressions ///////////////////////////

  // Every operator of a well-formed expression binds at power 0 at least.
  lemma {:induction false} LeftZero(s: Syn, sl: Switch)
    requires s.Ex? && WF(s, sl)
    ensures LeftOk(s, 0)
    decreases s
  {
    if IsTail(s.e) { LeftZero(Head(s.e), sl); }
  }

  /** Completeness of the Pratt parser: a derivation at power `m` is exactly what `parseExpr(m)`
      reads, with no diagnostic. */
  lemma {:induction false} CompleteExpr(inp: Input, pos: nat, s: Syn, end: nat, m: int, sl: Switch)
    requires 0 <= m <= 1000 && DerivesExpr(inp, pos, s, end, m, sl)
    ensures RunExpr(inp, pos, m, sl) == Ok(s, end)
    decreases s, 1
  {
    hide M, WF, Follow, RunExpr, LeftOk, LeftPower, RunLoop;
    Spine(inp, pos, s, end, m, sl);
    Stop(inp, end, m, sl, s);
  }

  // A whole expression, between delimiters.
  lemma {:induction false} CompleteFull(inp: Input, pos: nat, s: Syn, end: nat, sl: Switch)
    requires s.Ex? && M(inp, pos, s) == end && WF(s, sl)
    requires IsCloser(KindAt(inp, end)) && KindAt(inp, end) != KwElse && KindAt(inp, end) != Eq
    ensures RunExpr(inp, pos, 0, sl) == Ok(s, end) && !IsCloser(KindAt(inp, pos))
    decreases s, 2
  {
    hide M, WF, Follow, RunExpr, LeftOk, LeftPower, RunLoop;
    First(inp, pos, s, sl);
    LeftZero(s, sl);
    CloserQuiet(KindAt(inp, end));
    FollowQuiet(s, KindAt(inp, end), sl);
    CompleteExpr(inp, pos, s, end, 0, sl);
  }

  // The header of a block.
  lemma {:induction false} CompleteHeader(inp: Input, pos: nat, s: Syn, end: nat)
    requires s.Ex? && M(inp, pos, s) == end && WF(s, Off) && KindAt(inp, end) == LBrace
    ensures RunExpr(inp, pos, 0, Off) == Ok(s, end)
    decreases s, 2
  {
    hide M, WF, Follow, RunExpr, LeftOk, LeftPower, RunLoop;
    LeftZero(s, Off);
    FollowBrace(s);
    CompleteExpr(inp, pos, s, end, 0, Off);
  }

  lemma Stop(inp: Input, pos: nat, m: int, sl: Switch, lhs: Syn)
    requires 0 <= m <= 1000 && Pull(KindAt(inp, pos)) < m
    ensures RunLoop(inp, pos, m, sl, lhs) == Ok(lhs, pos)
  {
  }

  /** Reading a derivation leaves the Pratt loop at its end, with the derivation as its left side:
      the loop has not stopped early, and has taken nothing that belongs to what follows. */
  lemma {:induction false} Spine(inp: Input, pos: nat, s: Syn, end: nat, m: int, sl: Switch)
    requires m >= 0 && s.Ex? && LeftOk(s, m) && Derives(inp, pos, s, end, sl)
    ensures RunExpr(inp, pos, m, sl) == RunLoop(inp, end, m, sl, s)
    decreases s, 0
  {
    hide M, WF, Follow, RunPrefix, RunLoop;
    if !IsTail(s.e) {
      CompletePrefix(inp, pos, s.e, end, sl);
    } else {
      DefEx(inp, pos, s.e, KindAt(inp, end), sl);
      var b := Head(s.e);
      var q := M(inp, pos, b);
      SpineStep(inp, pos, s.e, end, m, sl);
      Spine(inp, pos, b, q, m, sl);
    }
  }

  // One step of the loop, from the left part of an expression to the whole of it.
  lemma {:induction false} SpineStep(inp: Input, pos: nat, e: ExprForm, end: nat, m: int, sl: Switch)
    requires m >= 0 && IsTail(e) && LeftOk(Ex(e), m)
    requires MTail(inp, pos, e) == end && WFExpr(e, sl) && FollowExpr(e, KindAt(inp, end), sl)
    ensures var q := M(inp, pos, Head(e)); q >= 0 && Follow(Head(e), KindAt(inp, q), sl)
    ensures RunLoop(inp, M(inp, pos, Head(e)), m, sl, Head(e)) == RunLoop(inp, end, m, sl, Ex(e))
    decreases e, 1
  {
    hide M, WF, Follow, RunExpr, RunPostfix1, LeftPower, RightPower, Pull, IsPostfix;
    var b := Head(e);
    var q := M(inp, pos, b);
    if e.EBin? {
      InfixStep(inp, pos, e, q, end, m, sl);
    } else {
      PostfixStep(inp, pos, e, q, end, sl);
    }
  }

  lemma {:induction false} InfixStep(inp: Input, pos: nat, e: ExprForm, q: nat, end: nat, m: int, sl: Switch)
    requires e.EBin? && m >= 0 && q == M(inp, pos, e.left) && LeftPower(e.op) >= m
    requires MTail(inp, pos, e) == end && WFExpr(e, sl) && FollowExpr(e, KindAt(inp, end), sl)
    ensures KindAt(inp, q) == e.op && RunLoop(inp, q, m, sl, e.left) == RunLoop(inp, end, m, sl, Ex(e))
    decreases e, 0
  {
    hide M, WF, Follow, RunExpr, RunPostfix1, LeftPower, RightPower, Pull, IsPostfix, LeftOk;
    Powers(e.op);
    CompleteExpr(inp, q + 1, e.right, end, RightPower(e.op), sl);
  }

  lemma {:induction false} PostfixStep(inp: Input, pos: nat, e: ExprForm, q: int, end: nat, sl: Switch)
    requires IsTail(e) && !e.EBin? && q == M(inp, pos, e.base)
    requires MTail(inp, pos, e) == end && WFExpr(e, sl) && FollowExpr(e, KindAt(inp, end), sl)
    ensures q >= 0 && IsPostfix(KindAt(inp, q)) && Follow(e.base, KindAt(inp, q), sl)
    ensures RunPostfix1(inp, q, sl, e.base) == Ok(Ex(e), end)
    decreases e, 0
  {
    hide M, WF, Follow, RunItems, RunType, MItems, RunArgs, RunComma, FloatSplit, TokText, WFItems, RunExpr;
    match e
    case ECall(b, args) => CompleteArgs(inp, q + 1, args, end - 1);
    case EIndex(b, items, tr) => CompleteItems(inp, q + 1, items, tr, end - 1, LIndex, On);
    case ECast(b, ty) => CompleteType(inp, q + 1, ty, end, sl);
    case _ =>
  }

  lemma {:induction false} CompleteArgs(inp: Input, pos: nat, l: Syns, end: nat)
    requires MItems(inp, pos, l, Off) == end && WFItems(LArgs, l, Off, On) && KindAt(inp, end) == RParen
    ensures RunArgs(inp, pos) == LOk(l, Off, end)
    decreases l, 5
  {
    hide M, WF, Follow, RunItems;
    if l.Cons? { CompleteItems(inp, pos, l, Off, end, LArgs, On); }
  }

  lemma {:induction false} CompletePrefix(inp: Input, pos: nat, e: ExprForm, end: nat, sl: Switch)
    requires !IsTail(e) && Derives(inp, pos, Ex(e), end, sl)
    ensures RunPrefix(inp, pos, sl) == Ok(Ex(e), end)
    decreases e, 4
  {
    hide M, WF, Follow, RunNameExpr, RunParen, RunArray, RunIf, RunWhile, RunMatch, RunUnsafe, RunBlock, RunTensor,
         RunUnary;
    DefEx(inp, pos, e, KindAt(inp, end), sl);
    if e.EIf? || e.EWhile? || e.EMatch? || e.EUnsafe? || e.EBlock? {
      CompleteControl(inp, pos, e, end, sl);
    } else {
      CompleteAtom(inp, pos, e, end, sl);
    }
  }

  lemma {:induction false} CompleteControl(inp: Input, pos: nat, e: ExprForm, end: nat, sl: Switch)
    requires e.EIf? || e.EWhile? || e.EMatch? || e.EUnsafe? || e.EBlock?
    requires MExpr(inp, pos, e) == end && WFExpr(e, sl) && FollowExpr(e, KindAt(inp, end), sl)
    ensures RunPrefix(inp, pos, sl) == Ok(Ex(e), end)
    decreases e, 3
  {
    hide M, WF, Follow, RunNameExpr, RunParen, RunArray, RunIf, RunWhile, RunMatch, RunUnsafe, RunBlock, RunTensor,
         RunUnary;
    match e
    case EIf(_, _, _) => CompleteIf(inp, pos, e, end, sl);
    case EWhile(_, _) => CompleteWhile(inp, pos, e, end, sl);
    case EMatch(_, _) => CompleteMatch(inp, pos, e, end, sl);
    case EUnsafe(st) => CompleteUnsafe(inp, pos, st, end, sl);
    case EBlock(st) => CompleteBlock(inp, pos, st, end, sl);
    case _ =>
  }

  lemma {:induction false} CompleteAtom(inp: Input, pos: nat, e: ExprForm, end: nat, sl: Switch)
    requires !(IsTail(e) || e.EIf? || e.EWhile? || e.EMatch? || e.EUnsafe? || e.EBlock?)
    requires MExpr(inp, pos, e) == end && WFExpr(e, sl) && FollowExpr(e, KindAt(inp, end), sl)
    ensures RunPrefix(inp, pos, sl) == Ok(Ex(e), end)
    decreases e, 3
  {
    hide M, WF, Follow, RunNameExpr, RunParen, RunArray, RunIf, RunWhile, RunMatch, RunUnsafe, RunBlock, RunTensor,
         RunUnary;
    match e
    case ELit =>
    case EName(n) => CompleteSegs(inp, pos + 1, n); NameExpr(inp, pos, n, end, sl);
    case EStruct(n, fs, tr) => CompleteStruct(inp, pos, e, end, sl);
    case EParen(_) => CompleteParen(inp, pos, e, end, sl);
    case ETuple(_, _) => CompleteParen(inp, pos, e, end, sl);
    case EArray(_, _) => CompleteArray(inp, pos, e, end, sl);
    case ERepeat(_, _) => CompleteArray(inp, pos, e, end, sl);
    case ETensor(_, _, _, _) => CompleteTensor(inp, pos, e, end, sl);
    case EUnary(_, _) => CompleteUnary(inp, pos, e, end, sl);
    case EProj(_, _) => CompleteUnary(inp, pos, e, end, sl);
    case _ =>
  }

  lemma NameExpr(inp: Input, pos: nat, n: nat, end: nat, sl: Switch)
    requires KindAt(inp, pos) == Identifier && RunSegs(inp, pos + 1) == Segs(n, end)
    requires sl.On? ==> KindAt(inp, end) != LBrace
    ensures RunNameExpr(inp, pos, sl) == Ok(Ex(EName(n)), end)
  {
  }

  lemma {:induction false} CompleteStruct(inp: Input, pos: nat, e: ExprForm, end: nat, sl: Switch)
    requires e.EStruct? && MExpr(inp, pos, e) == end && WFExpr(e, sl)
    ensures KindAt(inp, pos) == Identifier && RunNameExpr(inp, pos, sl) == Ok(Ex(e), end)
    decreases e, 0
  {
    hide M, WF, Follow, RunComma, RunSegs;
    CompleteSegs(inp, pos + 1, e.segs);
    CompleteComma(inp, MSegs(inp, pos + 1, e.segs) + 1, e.fields, e.trail, end - 1, LFieldInits, On);
  }

  lemma {:induction false} CompleteUnary(inp: Input, pos: nat, e: ExprForm, end: nat, sl: Switch)
    requires (e.EUnary? || e.EProj?) && MExpr(inp, pos, e) == end && WFExpr(e, sl)
    requires FollowExpr(e, KindAt(inp, end), sl)
    ensures IsPrefixOp(KindAt(inp, pos)) && RunUnary(inp, pos, sl) == Ok(Ex(e), end)
    decreases e, 0
  {
    hide M, WF, Follow, RunExpr, LeftOk;
    if e.EUnary? {
      CompleteExpr(inp, pos + 1, e.arg, end, 110, sl);
    } else {
      var q := M(inp, pos + 1, e.arg);
      CompleteExpr(inp, pos + 1, e.arg, q, 110, sl);
      LeftZero(e.rhs, sl);
      CompleteExpr(inp, q + 1, e.rhs, end, 0, sl);
    }
  }

  lemma {:induction false} CompleteParen(inp: Input, pos: nat, e: ExprForm, end: nat, sl: Switch)
    requires (e.EParen? || e.ETuple?) && MExpr(inp, pos, e) == end && WFExpr(e, sl)
    ensures KindAt(inp, pos) == LParen && RunParen(inp, pos) == Ok(Ex(e), end)
    decreases e, 0
  {
    hide M, WF, Follow, RunExpr, RunMore;
    if e.EParen? {
      CompleteFull(inp, pos + 1, e.inner, end - 1, On);
    } else if e.items.Cons? {
      CompleteFirstMore(inp, pos + 1, e.items, e.trail, end - 1, LTuple);
    }
  }

  // The first element of a bracketed list of expressions, and the rest.
  lemma {:induction false} CompleteFirstMore(inp: Input, pos: nat, l: Syns, trail: Switch, end: nat, lk: ListKind)
    requires l.Cons? && MItems(inp, pos, l, trail) == end && WFItems(lk, l, trail, On)
    requires ClassOf(lk).CExpr? && Ends(lk, KindAt(inp, end))
    ensures !IsCloser(KindAt(inp, pos))
    ensures var q := M(inp, pos, l.hd);
            && q >= 0 && RunExpr(inp, pos, 0, On) == Ok(l.hd, q) && RunMore(inp, q, lk, On) == LOk(l.tl, trail, end)
            && (KindAt(inp, q) == Comma || (l.tl.Nil? && trail.Off? && q == end))
    decreases l, 4
  {
    hide M, WF, Follow, RunExpr, RunMore;
    var q := M(inp, pos, l.hd);
    assert WFAll(CExpr, l, On);
    NextInList(inp, q, l.tl, trail);
    CompleteFull(inp, pos, l.hd, q, On);
    CompleteMore(inp, q, l.tl, trail, end, lk, On);
  }

  lemma {:induction false} CompleteArray(inp: Input, pos: nat, e: ExprForm, end: nat, sl: Switch)
    requires (e.EArray? || e.ERepeat?) && MExpr(inp, pos, e) == end && WFExpr(e, sl)
    ensures KindAt(inp, pos) == LSquare && RunArray(inp, pos) == Ok(Ex(e), end)
    decreases e, 0
  {
    hide M, WF, Follow, RunExpr, RunMore;
    if e.ERepeat? {
      var q := M(inp, pos + 1, e.val);
      CompleteFull(inp, pos + 1, e.val, q, On);
      CompleteFull(inp, q + 1, e.count, end - 1, On);
    } else if e.items.Cons? {
      CompleteFirstMore(inp, pos + 1, e.items, e.trail, end - 1, LArray);
    }
  }

  lemma {:induction false} CompleteTensor(inp: Input, pos: nat, e: ExprForm, end: nat, sl: Switch)
    requires e.ETensor? && MExpr(inp, pos, e) == end && WFExpr(e, sl)
    ensures KindAt(inp, pos) == KwTensor && RunTensor(inp, pos, sl) == Ok(Ex(e), end)
    decreases e, 0
  {
    hide M, WF, Follow, RunItems, RunComma, MItems, WFItems;
    var q := MItems(inp, pos + 2, e.vals, e.vtrail);
    CompleteItems(inp, pos + 2, e.vals, e.vtrail, q, LTensorVals, On);
    CompleteComma(inp, q + 1, e.dims, e.trail, end - 1, LDims, sl);
  }

  /////////////////////////// control flow and statements ///////////////////////////

  lemma {:induction false} CompleteIf(inp: Input, pos: nat, e: ExprForm, end: nat, sl: Switch)
    requires e.EIf? && MExpr(inp, pos, e) == end && WFExpr(e, sl) && FollowExpr(e, KindAt(inp, end), sl)
    ensures KindAt(inp, pos) == KwIf && RunIf(inp, pos, sl) == Ok(Ex(e), end)
    decreases e, 0
  {
    hide M, WF, Follow, RunExpr, RunBlock, RunElse;
    var q := M(inp, pos + 1, e.cond);
    var z := M(inp, q, e.thn);
    CompleteBlockExpr(inp, q, e.thn, z, sl);
    CompleteHeader(inp, pos + 1, e.cond, q);
    if !e.els.Absent? { CompleteElse(inp, z + 1, e.els, end, sl); }
  }

  lemma {:induction false} CompleteElse(inp: Input, pos: nat, s: Syn, end: nat, sl: Switch)
    requires s.Ex? && (s.e.EIf? || s.e.EBlock?) && Derives(inp, pos, s, end, sl)
    ensures RunElse(inp, pos, sl) == Ok(s, end)
    decreases s, 2
  {
    hide M, WF, Follow, RunIf, RunBlock;
    DefEx(inp, pos, s.e, KindAt(inp, end), sl);
    if s.e.EIf? { CompleteIf(inp, pos, s.e, end, sl); } else { CompleteBlockExpr(inp, pos, s, end, sl); }
  }

  lemma {:induction false} CompleteBlockExpr(inp: Input, pos: nat, s: Syn, end: nat, sl: Switch)
    requires IsBlock(s) && M(inp, pos, s) == end && WF(s, sl)
    ensures KindAt(inp, pos) == LBrace && RunBlock(inp, pos, sl) == Ok(s, end)
    decreases s, 1
  {
    hide M, WF, Follow, RunBlock;
    DefEx(inp, pos, s.e, KindAt(inp, end), sl);
    CompleteBlock(inp, pos, s.e.stmts, end, sl);
  }

  lemma {:induction false} CompleteBlock(inp: Input, pos: nat, st: Syns, end: nat, sl: Switch)
    requires MExpr(inp, pos, EBlock(st)) == end && WFStmts(st, sl)
    ensures KindAt(inp, pos) == LBrace && RunBlock(inp, pos, sl) == Ok(Ex(EBlock(st)), end)
    decreases st, 2
  {
    hide M, WF, Follow, RunStmts;
    CompleteStmts(inp, pos + 1, st, end - 1, sl);
  }

  lemma {:induction false} CompleteUnsafe(inp: Input, pos: nat, st: Syns, end: nat, sl: Switch)
    requires MExpr(inp, pos, EUnsafe(st)) == end && WFStmts(st, sl)
    ensures KindAt(inp, pos) == KwUnsafe && RunUnsafe(inp, pos, sl) == Ok(Ex(EUnsafe(st)), end)
    decreases st, 2
  {
    hide M, WF, Follow, RunStmts;
    CompleteStmts(inp, pos + 2, st, end - 1, sl);
  }

  lemma {:induction false} CompleteWhile(inp: Input, pos: nat, e: ExprForm, end: nat, sl: Switch)
    requires e.EWhile? && MExpr(inp, pos, e) == end && WFExpr(e, sl)
    ensures KindAt(inp, pos) == KwWhile && RunWhile(inp, pos, sl) == Ok(Ex(e), end)
    decreases e, 0
  {
    hide M, WF, Follow, RunExpr, RunBlock;
    var q := M(inp, pos + 1, e.cond);
    CompleteBlockExpr(inp, q, e.body, end, sl);
    CompleteHeader(inp, pos + 1, e.cond, q);
  }

  lemma {:induction false} CompleteMatch(inp: Input, pos: nat, e: ExprForm, end: nat, sl: Switch)
    requires e.EMatch? && MExpr(inp, pos, e) == end && WFExpr(e, sl)
    ensures KindAt(inp, pos) == KwMatch && RunMatch(inp, pos, sl) == Ok(Ex(e), end)
    decreases e, 0
  {
    hide M, WF, Follow, RunExpr, RunArms;
    var q := M(inp, pos + 1, e.cond);
    CompleteHeader(inp, pos + 1, e.cond, q);
    CompleteArms(inp, q + 1, e.arms, end - 1, sl);
  }

  lemma {:induction false} CompleteArms(inp: Input, pos: nat, l: Syns, end: nat, sl: Switch)
    requires MSeq(inp, pos, l) == end && WFArms(l, sl) && KindAt(inp, end) == RBrace
    ensures RunArms(inp, pos, sl) == LOk(l, Off, end)
    decreases l, 0
  {
    hide M, WF, Follow, RunArm;
    match l {
      case Nil =>
      case Cons(a, t) =>
        var q := M(inp, pos, a);
        First(inp, pos, a, sl);
        AfterArm(inp, q, a, t, sl);
        CompleteArm(inp, pos, a, q, sl);
        CompleteArms(inp, q, t, end, sl);
    }
  }

  // What follows an arm without a separator cannot continue its value.
  lemma {:induction false} AfterArm(inp: Input, pos: nat, a: Syn, t: Syns, sl: Switch)
    requires a.Ar? && WFArms(Cons(a, t), sl) && MSeq(inp, pos, t) >= 0 && (t.Nil? ==> KindAt(inp, pos) == RBrace)
    ensures !a.sep ==> CanFollowArm(KindAt(inp, pos))
  {
    if !a.sep && t.Cons? { ArmHead(inp, pos, t.hd, sl); }
  }

  predicate CanFollowArm(k: Kind) { k == RBrace || k == Identifier || IsLiteral(k) }

  lemma ArmHead(inp: Input, pos: nat, a: Syn, sl: Switch)
    requires a.Ar? && M(inp, pos, a) >= 0 && WF(a, sl) && !IsTupleArm(a)
    ensures CanFollowArm(KindAt(inp, pos))
  {
    PatHead(inp, pos, a.pat.p);
  }

  lemma PatHead(inp: Input, pos: nat, p: PatForm)
    requires MPat(inp, pos, p) >= 0 && !(p.PTuple? && p.named.Off?)
    ensures CanFollowArm(KindAt(inp, pos))
  {
  }

  lemma {:induction false} CompleteArm(inp: Input, pos: nat, a: Syn, end: nat, sl: Switch)
    requires a.Ar? && M(inp, pos, a) == end && WF(a, sl) && (!a.sep ==> CanFollowArm(KindAt(inp, end)))
    ensures RunArm(inp, pos, sl) == Ok(a, end)
    decreases a, 0
  {
    hide M, WF, Follow, RunPat, RunExpr;
    InvAr(inp, pos, a, sl);
    var q := M(inp, pos, a.pat);
    var z := M(inp, q + 1, a.val);
    FollowQuiet(a.pat, FatArrow, sl);
    CompletePat(inp, pos, a.pat, q, sl);
    if a.sep {
      CompleteFull(inp, q + 1, a.val, z, sl);
    } else {
      LeftZero(a.val, sl);
      FollowQuiet(a.val, KindAt(inp, z), sl);
      CompleteExpr(inp, q + 1, a.val, z, 0, sl);
    }
  }

  lemma InvAr(inp: Input, pos: nat, a: Syn, sl: Switch)
    requires a.Ar? && M(inp, pos, a) >= 0 && WF(a, sl)
    ensures a.pat.Pt? && WF(a.pat, sl) && a.val.Ex? && WF(a.val, sl)
    ensures var q := M(inp, pos, a.pat);
            && q >= 0 && KindAt(inp, q) == FatArrow && M(inp, q + 1, a.val) >= 0
            && var z := M(inp, q + 1, a.val);
               a.sep == (KindAt(inp, z) == Comma || KindAt(inp, z) == Semi)
                 && M(inp, pos, a) == if a.sep then z + 1 else z
  {
  }

  lemma {:induction false} CompleteStmts(inp: Input, pos: nat, l: Syns, end: nat, sl: Switch)
    requires MSeq(inp, pos, l) == end && WFStmts(l, sl) && KindAt(inp, end) == RBrace
    ensures RunStmts(inp, pos, sl) == LOk(l, Off, end)
    decreases l, 0
  {
    hide M, WF, Follow, RunStmt;
    match l {
      case Nil =>
      case Cons(s, t) =>
        var q := M(inp, pos, s);
        First(inp, pos, s, sl);
        NotElse(inp, q, t, sl);
        CompleteStmt(inp, pos, s, q, sl);
        CompleteStmts(inp, q, t, end, sl);
    }
  }

  // No statement, and no end of a block, begins with `else`.
  lemma {:induction false} NotElse(inp: Input, pos: nat, l: Syns, sl: Switch)
    requires WFStmts(l, sl) && MSeq(inp, pos, l) >= 0 && KindAt(inp, MSeq(inp, pos, l)) == RBrace
    ensures KindAt(inp, pos) != KwElse
  {
    if l.Cons? { First(inp, pos, l.hd, sl); }
  }

  lemma {:induction false} CompleteStmt(inp: Input, pos: nat, s: Syn, end: nat, sl: Switch)
    requires s.St? && M(inp, pos, s) == end && WF(s, sl) && KindAt(inp, end) != KwElse
    ensures RunStmt(inp, pos, sl) == Ok(s, end)
    decreases s, 0
  {
    hide M, WF, Follow, RunIf, RunWhile, RunUnsafe, RunBlock, RunExpr, RunLet, RunFor, RunRet, LeftAtom;
    DefSt(inp, pos, s.s, sl);
    match s.s
    case SItem(e) => CompleteItem(inp, pos, e, end, sl);
    case SLet(_, _, _) => CompleteLet(inp, pos, s.s, end, sl);
    case SExpr(e) => CompleteFull(inp, pos, e, end - 1, sl); ExprStmtHead(inp, pos, e, sl);
    case SRet(e) => CompleteRet(inp, pos, e, end, sl);
    case SBreak =>
    case SContinue =>
    case SFor(_, _, _) => CompleteFor(inp, pos, s.s, end, sl);
  }

  lemma {:induction false} ExprStmtHead(inp: Input, pos: nat, s: Syn, sl: Switch)
    requires s.Ex? && M(inp, pos, s) >= 0 && WF(s, sl) && !IsBlockLike(LeftAtom(s))
    ensures IsExprStmtStart(KindAt(inp, pos))
    decreases s
  {
    if IsTail(s.e) { ExprStmtHead(inp, pos, Head(s.e), sl); } else { AtomHead(inp, pos, s.e, sl); }
  }

  lemma AtomHead(inp: Input, pos: nat, e: ExprForm, sl: Switch)
    requires !IsTail(e) && MExpr(inp, pos, e) >= 0 && WFExpr(e, sl) && !IsBlockLike(Ex(e))
    ensures IsExprStmtStart(KindAt(inp, pos))
  {
  }

  lemma {:induction false} CompleteItem(inp: Input, pos: nat, s: Syn, end: nat, sl: Switch)
    requires IsBlockLike(s) && M(inp, pos, s) == end && WF(s, sl) && KindAt(inp, end) != KwElse
    ensures RunStmt(inp, pos, sl) == Ok(St(SItem(s)), end)
    decreases s, 1
  {
    hide M, WF, Follow, RunIf, RunWhile, RunUnsafe, RunBlock, RunExpr, RunLet, RunFor, RunRet;
    DefEx(inp, pos, s.e, KindAt(inp, end), sl);
    match s.e
    case EIf(_, _, _) => IfFollow(s.e, KindAt(inp, end), sl); CompleteIf(inp, pos, s.e, end, sl);
    case EWhile(_, _) => CompleteWhile(inp, pos, s.e, end, sl);
    case EUnsafe(st) => CompleteUnsafe(inp, pos, st, end, sl);
    case EBlock(st) => CompleteBlock(inp, pos, st, end, sl);
    case _ =>
  }

  // Anything but `else` can follow an `if`.
  lemma {:induction false} IfFollow(e: ExprForm, k: Kind, sl: Switch)
    requires (e.EIf? || e.EBlock?) && WFExpr(e, sl) && k != KwElse
    ensures FollowExpr(e, k, sl)
    decreases e
  {
    if e.EIf? && !e.els.Absent? { IfFollow(e.els.e, k, sl); }
  }

  lemma {:induction false} CompleteRet(inp: Input, pos: nat, e: Syn, end: nat, sl: Switch)
    requires MStmt(inp, pos, SRet(e)) == end && e.Ex? && WF(e, sl)
    ensures KindAt(inp, pos) == KwRet && RunRet(inp, pos, sl) == Ok(St(SRet(e)), end)
    decreases e, 3
  {
    hide M, WF, Follow, RunExpr;
    CompleteFull(inp, pos + 1, e, end - 1, sl);
  }

  lemma {:induction false} CompleteLet(inp: Input, pos: nat, s: StmtForm, end: nat, sl: Switch)
    requires s.SLet? && MStmt(inp, pos, s) == end && WFStmt(s, sl)
    ensures KindAt(inp, pos) == KwLet && RunLet(inp, pos, sl) == Ok(St(s), end)
    decreases s, 0
  {
    hide M, WF, Follow, RunOptType, RunOptInit;
    var name := if s.reg then pos + 2 else pos + 1;
    var q := if s.ty.Absent? then name + 1 else M(inp, name + 2, s.ty);
    CompleteOptType(inp, name + 1, s.ty, q, sl);
    CompleteOptInit(inp, q, s.init, end - 1, sl);
  }

  lemma {:induction false} CompleteOptType(inp: Input, pos: nat, ty: Syn, end: nat, sl: Switch)
    requires KindAt(inp, end) == Eq || KindAt(inp, end) == Semi
    requires ty.Absent? || (ty.Ty? && WF(ty, sl))
    requires end == if ty.Absent? then pos else M(inp, Expect1(inp, pos, Colon), ty)
    ensures RunOptType(inp, pos, sl) == Ok(ty, end)
    decreases ty, 2
  {
    hide M, WF, Follow, RunType;
    if ty.Ty? {
      FollowTy(ty, KindAt(inp, end), sl);
      CompleteType(inp, pos + 1, ty, end, sl);
    }
  }

  lemma {:induction false} CompleteOptInit(inp: Input, pos: nat, init: Syn, end: nat, sl: Switch)
    requires KindAt(inp, end) == Semi
    requires init.Absent? || (init.Ex? && WF(init, sl))
    requires end == if init.Absent? then pos else M(inp, Expect1(inp, pos, Eq), init)
    ensures RunOptInit(inp, pos, sl) == Ok(init, end)
    decreases init, 3
  {
    hide M, WF, Follow, RunExpr;
    if init.Ex? { CompleteFull(inp, pos + 1, init, end, sl); }
  }

  lemma FollowTy(s: Syn, k: Kind, sl: Switch)
    requires s.Ty? && k != ColonColon
    ensures Follow(s, k, sl)
  {
  }

  lemma {:induction false} CompleteFor(inp: Input, pos: nat, s: StmtForm, end: nat, sl: Switch)
    requires s.SFor? && MStmt(inp, pos, s) == end && WFStmt(s, sl)
    ensures KindAt(inp, pos) == KwFor && RunFor(inp, pos, sl) == Ok(St(s), end)
    decreases s, 0
  {
    hide M, WF, Follow, RunExpr, RunBlock;
    var name := if s.reg then pos + 2 else pos + 1;
    var q := M(inp, name + 2, s.iter);
    CompleteBlockExpr(inp, q, s.body, end, sl);
    CompleteHeader(inp, name + 2, s.iter, q);
  }
}
