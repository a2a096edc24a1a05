/** Whatever the error-free parser returns is a derivation of the tokens it consumed, and it
    stops only where no longer derivation exists. */
module Soundness {
  import opened Tokens
  import opened Grammar
  import opened Spelling
  import opened ErrorFree

  /** `e` derives the tokens from `pos` to `end` as an expression at binding power `m`: the
      tokens spell it, every operator on its spines respects the table, and the token at `end`
      can neither be absorbed by its right edge nor continue it at power `m`. */
  ghost predicate DerivesExpr(inp: Input, pos: nat, e: Syn, end: nat, m: int, sl: Switch) {
    && M(inp, pos, e) == end
    && e.Ex? && WF(e, sl) && LeftOk(e, m)
    && Follow(e, KindAt(inp, end), sl)
    && Pull(KindAt(inp, end)) < m
  }

  ghost predicate Derives(inp: Input, pos: nat, s: Syn, end: nat, sl: Switch) {
    M(inp, pos, s) == end && WF(s, sl) && Follow(s, KindAt(inp, end), sl)
  }

  ghost predicate DerivesList(inp: Input, pos: nat, r: ListRes, lk: ListKind, sl: Switch) {
    r.LOk? ==> MItems(inp, pos, r.items, r.trail) == r.end && WFItems(lk, r.items, r.trail, sl)
  }

  // One unfolding of spelling, grammar and follow condition for each class of syntax. The proofs
  // below hide the recursive definitions and take the unfoldings they need from here.
  lemma DefTy(inp: Input, pos: nat, t: TypeForm, k: Kind, sl: Switch)
    ensures M(inp, pos, Ty(t)) == MType(inp, pos, t) && WF(Ty(t), sl) == WFType(t, sl)
    ensures Follow(Ty(t), k, sl) == (t.TNamed? ==> k != ColonColon)
  {
  }

  lemma DefPt(inp: Input, pos: nat, p: PatForm, k: Kind, sl: Switch)
    ensures M(inp, pos, Pt(p)) == MPat(inp, pos, p) && WF(Pt(p), sl) == WFPat(p, sl)
    ensures Follow(Pt(p), k, sl) == (p.PName? ==> k != ColonColon && k != LParen && k != LBrace)
  {
  }

  lemma DefEx(inp: Input, pos: nat, e: ExprForm, k: Kind, sl: Switch)
    ensures M(inp, pos, Ex(e)) == (if IsTail(e) then MTail(inp, pos, e) else MExpr(inp, pos, e))
    ensures WF(Ex(e), sl) == WFExpr(e, sl) && Follow(Ex(e), k, sl) == FollowExpr(e, k, sl)
  {
  }

  lemma DefSt(inp: Input, pos: nat, s: StmtForm, sl: Switch)
    ensures M(inp, pos, St(s)) == MStmt(inp, pos, s) && WF(St(s), sl) == WFStmt(s, sl)
  {
  }

  lemma {:induction false} SoundSegs(inp: Input, pos: nat)
    ensures var r := RunSegs(inp, pos); r.Segs? ==> MSegs(inp, pos, r.n) == r.end && KindAt(inp, r.end) != ColonColon
    decreases |inp.toks| - pos
  {
    if KindAt(inp, pos) == ColonColon && KindAt(inp, pos + 1) == Identifier {
      SoundSegs(inp, pos + 2);
    }
  }

  lemma {:induction false} SoundType(inp: Input, pos: nat, sl: Switch)
    ensures var r := RunType(inp, pos, sl); r.Ok? ==> r.syn.Ty? && Derives(inp, pos, r.syn, r.end, sl)
    decreases |inp.toks| - pos, 1
  {
    hide M, WF, Follow, LeftOk, RunArrayType, RunComma, RunSegs, RunTensorType;
    var k := KindAt(inp, pos);
    var r := RunType(inp, pos, sl);
    if !r.Ok? {
    } else if k == LParen {
      SoundComma(inp, pos + 1, LTypes, sl);
      var items := RunComma(inp, pos + 1, LTypes, sl);
      DefTy(inp, pos, TTuple(items.items, items.trail), KindAt(inp, r.end), sl);
    } else if k == LSquare {
      SoundArrayType(inp, pos, sl);
    } else if k == KwTensor {
      SoundTensorType(inp, pos, sl);
    } else {
      SoundSegs(inp, pos + 1);
      DefTy(inp, pos, TNamed(RunSegs(inp, pos + 1).n), KindAt(inp, r.end), sl);
    }
  }

  lemma {:induction false} SoundArrayType(inp: Input, pos: nat, sl: Switch)
    requires KindAt(inp, pos) == LSquare
    ensures var r := RunArrayType(inp, pos, sl); r.Ok? ==> r.syn.Ty? && Derives(inp, pos, r.syn, r.end, sl)
    decreases |inp.toks| - pos, 0
  {
    hide M, WF, Follow, LeftOk, RunExpr, RunType;
    SoundType(inp, pos + 1, sl);
    var e := RunType(inp, pos + 1, sl);
    if e.Ok? && KindAt(inp, e.end) == Semi {
      SoundExpr(inp, e.end + 1, 0, sl);
      var n := RunExpr(inp, e.end + 1, 0, sl);
      if n.Ok? { DefTy(inp, pos, TArray(e.syn, n.syn), KindAt(inp, n.end + 1), sl); }
    }
  }

  lemma {:induction false} SoundTensorType(inp: Input, pos: nat, sl: Switch)
    requires KindAt(inp, pos) == KwTensor
    ensures var r := RunTensorType(inp, pos, sl); r.Ok? ==> r.syn.Ty? && Derives(inp, pos, r.syn, r.end, sl)
    decreases |inp.toks| - pos, 0
  {
    hide M, WF, Follow, LeftOk, RunComma, RunType;
    if KindAt(inp, pos + 1) == LSquare {
      SoundType(inp, pos + 2, sl);
      var e := RunType(inp, pos + 2, sl);
      if e.Ok? && KindAt(inp, e.end) == Semi {
        SoundComma(inp, e.end + 1, LDims, sl);
        var d := RunComma(inp, e.end + 1, LDims, sl);
        if d.LOk? { DefTy(inp, pos, TTensor(e.syn, d.items, d.trail), KindAt(inp, d.end + 1), sl); }
      }
    }
  }

  lemma {:induction false} SoundPat(inp: Input, pos: nat, sl: Switch)
    ensures var r := RunPat(inp, pos, sl); r.Ok? ==> r.syn.Pt? && Derives(inp, pos, r.syn, r.end, sl)
    decreases |inp.toks| - pos, 1
  {
    hide M, WF, Follow, LeftOk, RunPathPat, RunTuplePat, TokText;
    var k := KindAt(inp, pos);
    var r := RunPat(inp, pos, sl);
    if !r.Ok? {
    } else if k == LParen {
      SoundTuplePat(inp, pos, pos, Off, 0, sl);
    } else if k != Identifier {
      DefPt(inp, pos, PLit, KindAt(inp, r.end), sl);
    } else if TokText(inp, pos) == "_" {
      DefPt(inp, pos, PWild, KindAt(inp, r.end), sl);
    } else {
      SoundPathPat(inp, pos, sl);
    }
  }

  lemma {:induction false} SoundPathPat(inp: Input, pos: nat, sl: Switch)
    requires KindAt(inp, pos) == Identifier && TokText(inp, pos) != "_"
    ensures var r := RunPathPat(inp, pos, sl); r.Ok? ==> r.syn.Pt? && Derives(inp, pos, r.syn, r.end, sl)
    decreases |inp.toks| - pos, 0
  {
    hide M, WF, Follow, RunComma, RunTuplePat, RunSegs, TokText;
    SoundSegs(inp, pos + 1);
    var q := RunSegs(inp, pos + 1);
    if q.Segs? {
      var k := KindAt(inp, q.end);
      if k == LParen {
        SoundTuplePat(inp, pos, q.end, On, q.n, sl);
      } else if k == LBrace {
        SoundComma(inp, q.end + 1, LFieldPats, sl);
        var f := RunComma(inp, q.end + 1, LFieldPats, sl);
        if f.LOk? { DefPt(inp, pos, PStruct(q.n, f.items, f.trail), KindAt(inp, f.end + 1), sl); }
      } else {
        DefPt(inp, pos, PName(q.n), k, sl);
      }
    }
  }

  lemma {:induction false} SoundTuplePat(inp: Input, start: nat, pos: nat, named: Switch, n: nat, sl: Switch)
    requires KindAt(inp, pos) == LParen
    requires if named.On? then MPatPath(inp, start, n) == pos else start == pos && n == 0
    ensures var r := RunTuplePat(inp, pos, named, n, sl); r.Ok? ==> r.syn.Pt? && Derives(inp, start, r.syn, r.end, sl)
    decreases |inp.toks| - pos, 0
  {
    hide M, WF, Follow, LeftOk, RunComma;
    SoundComma(inp, pos + 1, LPats, sl);
    var items := RunComma(inp, pos + 1, LPats, sl);
    if items.LOk? { DefPt(inp, start, PTuple(named, n, items.items, items.trail), KindAt(inp, items.end + 1), sl); }
  }

  lemma DefFl(inp: Input, pos: nat, f: FieldForm, k: Kind, sl: Switch)
    ensures M(inp, pos, Fl(f)) == MField(inp, pos, f)
    ensures WF(Fl(f), sl) == ((f.PField? ==> f.sub.Pt? && WF(f.sub, sl)) && (f.FInit? ==> f.val.Ex? && WF(f.val, sl)))
    ensures f.PField? ==> Follow(Fl(f), k, sl) == Follow(f.sub, k, sl)
    ensures f.FInit? ==> Follow(Fl(f), k, sl) == (Pull(k) < 0 && Follow(f.val, k, sl))
    ensures f.PFieldShort? || f.FShort? ==> Follow(Fl(f), k, sl) == (k != Colon)
  {
  }

  lemma {:induction false} SoundField(inp: Input, pos: nat, pat: Switch, sl: Switch)
    ensures var r := RunField(inp, pos, pat, sl);
            r.Ok? ==> InClass(if pat.On? then CFieldPat else CFieldInit, r.syn) && Derives(inp, pos, r.syn, r.end, sl)
    decreases |inp.toks| - pos, 0
  {
    hide M, WF, Follow, LeftOk, RunExpr, RunPat;
    if KindAt(inp, pos) == Identifier {
      if KindAt(inp, pos + 1) != Colon {
        DefFl(inp, pos, if pat.On? then PFieldShort else FShort, KindAt(inp, pos + 1), sl);
      } else if pat.On? {
        SoundPat(inp, pos + 2, sl);
        var v := RunPat(inp, pos + 2, sl);
        if v.Ok? { DefFl(inp, pos, PField(v.syn), KindAt(inp, v.end), sl); }
      } else {
        SoundExpr(inp, pos + 2, 0, sl);
        var v := RunExpr(inp, pos + 2, 0, sl);
        if v.Ok? { DefFl(inp, pos, FInit(v.syn), KindAt(inp, v.end), sl); }
      }
    }
  }

  lemma {:induction false} SoundElem(inp: Input, pos: nat, c: Class, sl: Switch)
    ensures var r := RunElem(inp, pos, c, sl); r.Ok? ==> InClass(c, r.syn) && Derives(inp, pos, r.syn, r.end, sl)
    decreases |inp.toks| - pos, 4
  {
    hide M, WF, Follow, LeftOk, RunExpr, RunField, RunPat, RunType;
    match c
    case CExpr => SoundExpr(inp, pos, 0, sl);
    case CType => SoundType(inp, pos, sl);
    case CPat => SoundPat(inp, pos, sl);
    case CFieldPat => SoundField(inp, pos, On, sl);
    case CFieldInit => SoundField(inp, pos, Off, sl);
  }

  lemma {:induction false} SoundMore(inp: Input, pos: nat, lk: ListKind, sl: Switch)
    ensures var r := RunMore(inp, pos, lk, sl);
            r.LOk? ==> && MMore(inp, pos, r.items, r.trail) == r.end && WFAll(ClassOf(lk), r.items, sl)
                       && (r.trail.On? ==> lk != LArgs)
    decreases |inp.toks| - pos, 0
  {
    hide M, WF, Follow, LeftOk, RunElem;
    if KindAt(inp, pos) == Comma && !IsStop(lk, KindAt(inp, pos + 1)) {
      SoundElem(inp, pos + 1, ClassOf(lk), sl);
      var e := RunElem(inp, pos + 1, ClassOf(lk), sl);
      if e.Ok? {
        SoundMore(inp, e.end, lk, sl);
        var t := RunMore(inp, e.end, lk, sl);
        if t.LOk? { assert WFAll(ClassOf(lk), Cons(e.syn, t.items), sl); }
      }
    }
  }

  lemma {:induction false} SoundItems(inp: Input, pos: nat, lk: ListKind, sl: Switch)
    ensures DerivesList(inp, pos, RunItems(inp, pos, lk, sl), lk, sl)
    decreases |inp.toks| - pos, 5
  {
    hide M, WF, Follow, LeftOk, RunElem, RunMore;
    SoundElem(inp, pos, ClassOf(lk), sl);
    var e := RunElem(inp, pos, ClassOf(lk), sl);
    if e.Ok? {
      SoundMore(inp, e.end, lk, sl);
      var t := RunMore(inp, e.end, lk, sl);
      if t.LOk? { assert WFAll(ClassOf(lk), Cons(e.syn, t.items), sl); }
    }
  }

  lemma {:induction false} SoundComma(inp: Input, pos: nat, lk: ListKind, sl: Switch)
    ensures DerivesList(inp, pos, RunComma(inp, pos, lk, sl), lk, sl)
    decreases |inp.toks| - pos, 6
  {
    hide M, WF, Follow, LeftOk, RunItems;
    if !IsStop(lk, KindAt(inp, pos)) && KindAt(inp, pos) != Eof { SoundItems(inp, pos, lk, sl); }
  }

  /////////////////////////// expressions ///////////////////////////

  // What the Pratt loops need from the table, without its rows.
  lemma Powers(k: Kind)
    ensures LeftPower(k) >= 0 ==> 0 <= RightPower(k) && !IsPostfix(k) && k != Eof && k != RBrace
    ensures !IsPostfix(k) ==> Pull(k) == LeftPower(k)
    ensures IsPostfix(k) ==> Pull(k) == 1000
    ensures -1 <= LeftPower(k) <= 100 && RightPower(k) <= 101
  {
  }

  /** An error-free `parseExpr(m)` reads a derivation at power `m` and stops as late as it can. */
  lemma {:induction false} SoundExpr(inp: Input, pos: nat, m: int, sl: Switch)
    requires m >= 0
    ensures var r := RunExpr(inp, pos, m, sl); r.Ok? ==> DerivesExpr(inp, pos, r.syn, r.end, m, sl)
    decreases |inp.toks| - pos, 3
  {
    hide M, WF, Follow, LeftPower, RightPower, Pull, IsPostfix, RunLoop, RunPrefix;
    SoundPrefix(inp, pos, sl);
    var p := RunPrefix(inp, pos, sl);
    if p.Ok? { SoundLoop(inp, pos, p.end, m, sl, p.syn); }
  }

  lemma {:induction false} SoundLoop(inp: Input, start: nat, pos: nat, m: int, sl: Switch, lhs: Syn)
    requires m >= 0
    requires lhs.Ex? && LeftOk(lhs, m) && Derives(inp, start, lhs, pos, sl)
    ensures var r := RunLoop(inp, pos, m, sl, lhs); r.Ok? ==> DerivesExpr(inp, start, r.syn, r.end, m, sl)
    decreases |inp.toks| - pos, 2
  {
    hide M, WF, Follow, LeftOk, LeftPower, RightPower, Pull, IsPostfix, RunInfix, RunPostfix;
    SoundPostfix(inp, start, pos, m, sl, lhs);
    var e := RunPostfix(inp, pos, sl, lhs);
    if e.Ok? { SoundInfix(inp, start, e.end, m, sl, e.syn); }
  }

  lemma {:induction false} SoundInfix(inp: Input, start: nat, pos: nat, m: int, sl: Switch, lhs: Syn)
    requires m >= 0 && !IsPostfix(KindAt(inp, pos))
    requires lhs.Ex? && LeftOk(lhs, m) && Derives(inp, start, lhs, pos, sl)
    ensures var r := RunInfix(inp, pos, m, sl, lhs); r.Ok? ==> DerivesExpr(inp, start, r.syn, r.end, m, sl)
    decreases |inp.toks| - pos, 1
  {
    hide M, WF, Follow, LeftPower, RightPower, Pull, IsPostfix, RunExpr, RunLoop;
    var k := KindAt(inp, pos);
    Powers(k);
    if LeftPower(k) >= m {
      SoundExpr(inp, pos + 1, RightPower(k), sl);
      var rhs := RunExpr(inp, pos + 1, RightPower(k), sl);
      if rhs.Ok? {
        DefEx(inp, start, EBin(lhs, k, rhs.syn), KindAt(inp, rhs.end), sl);
        SoundLoop(inp, start, rhs.end, m, sl, Ex(EBin(lhs, k, rhs.syn)));
      }
    }
  }

  lemma {:induction false} SoundPostfix(inp: Input, start: nat, pos: nat, m: int, sl: Switch, lhs: Syn)
    requires lhs.Ex? && LeftOk(lhs, m) && Derives(inp, start, lhs, pos, sl)
    ensures var r := RunPostfix(inp, pos, sl, lhs);
            r.Ok? ==> && r.syn.Ex? && LeftOk(r.syn, m) && Derives(inp, start, r.syn, r.end, sl)
                      && !IsPostfix(KindAt(inp, r.end))
    decreases |inp.toks| - pos, 1
  {
    hide M, WF, Follow, LeftOk, LeftPower, RightPower, Pull, IsPostfix, RunPostfix1;
    if IsPostfix(KindAt(inp, pos)) {
      SoundPostfix1(inp, start, pos, m, sl, lhs);
      var e := RunPostfix1(inp, pos, sl, lhs);
      if e.Ok? { SoundPostfix(inp, start, e.end, m, sl, e.syn); }
    }
  }

  // The base of a postfix expression, already derived up to the postfix token.
  ghost predicate Base(inp: Input, start: nat, pos: nat, m: int, sl: Switch, lhs: Syn) {
    lhs.Ex? && LeftOk(lhs, m) && Derives(inp, start, lhs, pos, sl)
  }

  lemma {:induction false} SoundPostfix1(inp: Input, start: nat, pos: nat, m: int, sl: Switch, lhs: Syn)
    requires IsPostfix(KindAt(inp, pos)) && Base(inp, start, pos, m, sl, lhs)
    ensures var r := RunPostfix1(inp, pos, sl, lhs); r.Ok? ==> Base(inp, start, r.end, m, sl, r.syn)
    decreases |inp.toks| - pos, 0
  {
    hide M, WF, Follow, RunCall, RunDot, RunIndex, RunCast;
    var k := KindAt(inp, pos);
    if k == LParen { SoundCall(inp, start, pos, m, sl, lhs); }
    else if k == Dot { SoundDot(inp, start, pos, m, sl, lhs); }
    else if k == LSquare { SoundIndex(inp, start, pos, m, sl, lhs); }
    else if k == Question { DefEx(inp, start, ETry(lhs), KindAt(inp, pos + 1), sl); }
    else { SoundCast(inp, start, pos, m, sl, lhs); }
  }

  lemma {:induction false} SoundArgs(inp: Input, pos: nat)
    ensures DerivesList(inp, pos, RunArgs(inp, pos), LArgs, On)
    decreases |inp.toks| - pos, 6
  {
    if KindAt(inp, pos) != RParen { SoundItems(inp, pos, LArgs, On); }
  }

  lemma {:induction false} SoundCall(inp: Input, start: nat, pos: nat, m: int, sl: Switch, lhs: Syn)
    requires KindAt(inp, pos) == LParen && Base(inp, start, pos, m, sl, lhs)
    ensures var r := RunCall(inp, pos + 1, lhs); r.Ok? ==> Base(inp, start, r.end, m, sl, r.syn)
    decreases |inp.toks| - pos - 1, 7
  {
    hide M, WF, Follow, RunArgs;
    SoundArgs(inp, pos + 1);
    var a := RunArgs(inp, pos + 1);
    if a.LOk? { DefEx(inp, start, ECall(lhs, a.items), KindAt(inp, a.end + 1), sl); }
  }

  lemma {:induction false} SoundDot(inp: Input, start: nat, pos: nat, m: int, sl: Switch, lhs: Syn)
    requires KindAt(inp, pos) == Dot && Base(inp, start, pos, m, sl, lhs)
    ensures var r := RunDot(inp, pos + 1, lhs); r.Ok? ==> Base(inp, start, r.end, m, sl, r.syn)
  {
    hide M, WF, Follow, TokText, FloatSplit;
    var k := KindAt(inp, pos + 2);
    DefEx(inp, start, EField(lhs), k, sl);
    DefEx(inp, start, ETupleIdx(lhs), k, sl);
    DefEx(inp, start, EFloatIdx(lhs, false), k, sl);
    DefEx(inp, start, EFloatIdx(lhs, true), k, sl);
  }

  lemma {:induction false} SoundIndex(inp: Input, start: nat, pos: nat, m: int, sl: Switch, lhs: Syn)
    requires KindAt(inp, pos) == LSquare && Base(inp, start, pos, m, sl, lhs)
    ensures var r := RunIndex(inp, pos + 1, lhs); r.Ok? ==> Base(inp, start, r.end, m, sl, r.syn)
    decreases |inp.toks| - pos - 1, 7
  {
    hide M, WF, Follow, RunItems;
    SoundItems(inp, pos + 1, LIndex, On);
    var x := RunItems(inp, pos + 1, LIndex, On);
    if x.LOk? { DefEx(inp, start, EIndex(lhs, x.items, x.trail), KindAt(inp, x.end + 1), sl); }
  }

  lemma {:induction false} SoundCast(inp: Input, start: nat, pos: nat, m: int, sl: Switch, lhs: Syn)
    requires KindAt(inp, pos) == KwAs && Base(inp, start, pos, m, sl, lhs)
    ensures var r := RunCast(inp, pos + 1, sl, lhs); r.Ok? ==> Base(inp, start, r.end, m, sl, r.syn)
    decreases |inp.toks| - pos - 1, 7
  {
    hide M, WF, Follow, RunType;
    SoundType(inp, pos + 1, sl);
    var ty := RunType(inp, pos + 1, sl);
    if ty.Ok? { DefEx(inp, start, ECast(lhs, ty.syn), KindAt(inp, ty.end), sl); }
  }

  lemma {:induction false} SoundPrefix(inp: Input, pos: nat, sl: Switch)
    ensures var r := RunPrefix(inp, pos, sl); r.Ok? ==>
      r.syn.Ex? && !IsTail(r.syn.e) && Derives(inp, pos, r.syn, r.end, sl)
    decreases |inp.toks| - pos, 2
  {
    hide M, WF, Follow, LeftOk, RunArray, RunBlock, RunIf, RunMatch, RunNameExpr, RunParen, RunTensor, RunUnary,
         RunUnsafe, RunWhile;
    var k := KindAt(inp, pos);
    if IsLiteral(k) { DefEx(inp, pos, ELit, KindAt(inp, pos + 1), sl); }
    else if k == Identifier { SoundNameExpr(inp, pos, sl); }
    else if k == LParen { SoundParen(inp, pos, sl); }
    else if k == LSquare { SoundArray(inp, pos, sl); }
    else if k == KwIf { SoundIf(inp, pos, sl); }
    else if k == KwWhile { SoundWhile(inp, pos, sl); }
    else if k == KwMatch { SoundMatch(inp, pos, sl); }
    else if k == KwUnsafe { SoundUnsafe(inp, pos, sl); }
    else if k == LBrace { SoundBlock(inp, pos, sl); }
    else if k == KwTensor { SoundTensor(inp, pos, sl); }
    else if IsPrefixOp(k) { SoundUnary(inp, pos, sl); }
  }

  lemma {:induction false} SoundNameExpr(inp: Input, pos: nat, sl: Switch)
    requires KindAt(inp, pos) == Identifier
    ensures var r := RunNameExpr(inp, pos, sl); r.Ok? ==>
      r.syn.Ex? && !IsTail(r.syn.e) && Derives(inp, pos, r.syn, r.end, sl)
    decreases |inp.toks| - pos, 1
  {
    hide M, WF, Follow, LeftOk, RunComma, RunSegs;
    SoundSegs(inp, pos + 1);
    var q := RunSegs(inp, pos + 1);
    if q.Segs? {
      if sl.On? && KindAt(inp, q.end) == LBrace {
        SoundComma(inp, q.end + 1, LFieldInits, On);
        var f := RunComma(inp, q.end + 1, LFieldInits, On);
        if f.LOk? { DefEx(inp, pos, EStruct(q.n, f.items, f.trail), KindAt(inp, f.end + 1), sl); }
      } else {
        DefEx(inp, pos, EName(q.n), KindAt(inp, q.end), sl);
      }
    }
  }

  lemma {:induction false} SoundUnary(inp: Input, pos: nat, sl: Switch)
    requires IsPrefixOp(KindAt(inp, pos))
    ensures var r := RunUnary(inp, pos, sl); r.Ok? ==>
      r.syn.Ex? && !IsTail(r.syn.e) && Derives(inp, pos, r.syn, r.end, sl)
    decreases |inp.toks| - pos, 1
  {
    hide M, WF, Follow, LeftOk, RunExpr;
    var k := KindAt(inp, pos);
    SoundExpr(inp, pos + 1, 110, sl);
    var a := RunExpr(inp, pos + 1, 110, sl);
    if a.Ok? {
      if k == Star && KindAt(inp, a.end) == Eq {
        SoundExpr(inp, a.end + 1, 0, sl);
        var b := RunExpr(inp, a.end + 1, 0, sl);
        if b.Ok? { DefEx(inp, pos, EProj(a.syn, b.syn), KindAt(inp, b.end), sl); }
      } else {
        DefEx(inp, pos, EUnary(k, a.syn), KindAt(inp, a.end), sl);
      }
    }
  }

  lemma {:induction false} SoundParen(inp: Input, pos: nat, sl: Switch)
    requires KindAt(inp, pos) == LParen
    ensures var r := RunParen(inp, pos); r.Ok? ==> r.syn.Ex? && !IsTail(r.syn.e) && Derives(inp, pos, r.syn, r.end, sl)
    decreases |inp.toks| - pos, 1
  {
    hide M, WF, Follow, LeftOk, RunExpr, RunTuple;
    if KindAt(inp, pos + 1) == RParen {
      DefEx(inp, pos, ETuple(Nil, Off), KindAt(inp, pos + 2), sl);
    } else {
      SoundExpr(inp, pos + 1, 0, On);
      var e := RunExpr(inp, pos + 1, 0, On);
      if e.Ok? {
        if KindAt(inp, e.end) == Comma {
          SoundTuple(inp, pos, e.end, e.syn, sl);
        } else {
          DefEx(inp, pos, EParen(e.syn), KindAt(inp, e.end + 1), sl);
        }
      }
    }
  }

  // Behind a comma there is an element, or the comma was a trailing one.
  lemma CommaThenMore(inp: Input, pos: nat)
    requires KindAt(inp, pos) == Comma
    ensures var r := RunMore(inp, pos, LTuple, On); r.LOk? && r.items.Nil? ==> r.trail.On?
  {
  }

  lemma {:induction false} SoundTuple(inp: Input, start: nat, pos: nat, first: Syn, sl: Switch)
    requires KindAt(inp, start) == LParen && first.Ex? && WF(first, On) && M(inp, start + 1, first) == pos
    requires KindAt(inp, pos) == Comma
    ensures var r := RunTuple(inp, pos, first); r.Ok? ==>
      r.syn.Ex? && !IsTail(r.syn.e) && Derives(inp, start, r.syn, r.end, sl)
    decreases |inp.toks| - pos, 4
  {
    hide M, WF, Follow, LeftOk, RunMore;
    SoundMore(inp, pos, LTuple, On);
    var t := RunMore(inp, pos, LTuple, On);
    if t.LOk? {
      assert WFAll(ClassOf(LTuple), Cons(first, t.items), On);
      assert MItems(inp, start + 1, Cons(first, t.items), t.trail) == t.end;
      CommaThenMore(inp, pos);
      DefEx(inp, start, ETuple(Cons(first, t.items), t.trail), KindAt(inp, t.end + 1), sl);
    }
  }

  lemma {:induction false} SoundArray(inp: Input, pos: nat, sl: Switch)
    requires KindAt(inp, pos) == LSquare
    ensures var r := RunArray(inp, pos); r.Ok? ==> r.syn.Ex? && !IsTail(r.syn.e) && Derives(inp, pos, r.syn, r.end, sl)
    decreases |inp.toks| - pos, 1
  {
    hide M, WF, Follow, LeftOk, RunExpr, RunList, RunRepeat;
    if KindAt(inp, pos + 1) == RSquare {
      DefEx(inp, pos, EArray(Nil, Off), KindAt(inp, pos + 2), sl);
    } else {
      SoundExpr(inp, pos + 1, 0, On);
      var e := RunExpr(inp, pos + 1, 0, On);
      if e.Ok? {
        if KindAt(inp, e.end) == Semi { SoundRepeat(inp, pos, e.end + 1, e.syn, sl); } else {
          SoundList(inp, pos, e.end, e.syn, sl);
        }
      }
    }
  }

  lemma {:induction false} SoundRepeat(inp: Input, start: nat, pos: nat, first: Syn, sl: Switch)
    requires KindAt(inp, start) == LSquare && first.Ex? && WF(first, On)
    requires Expect1(inp, M(inp, start + 1, first), Semi) == pos
    ensures var r := RunRepeat(inp, pos, first); r.Ok? ==>
      r.syn.Ex? && !IsTail(r.syn.e) && Derives(inp, start, r.syn, r.end, sl)
    decreases |inp.toks| - pos, 4
  {
    hide M, WF, Follow, LeftOk, RunExpr;
    SoundExpr(inp, pos, 0, On);
    var n := RunExpr(inp, pos, 0, On);
    if n.Ok? {
      DefEx(inp, start, ERepeat(first, n.syn), KindAt(inp, n.end + 1), sl);
    }
  }

  lemma {:induction false} SoundList(inp: Input, start: nat, pos: nat, first: Syn, sl: Switch)
    requires KindAt(inp, start) == LSquare && first.Ex? && WF(first, On) && M(inp, start + 1, first) == pos
    ensures var r := RunList(inp, pos, first); r.Ok? ==>
      r.syn.Ex? && !IsTail(r.syn.e) && Derives(inp, start, r.syn, r.end, sl)
    decreases |inp.toks| - pos, 4
  {
    hide M, WF, Follow, LeftOk, RunMore;
    SoundMore(inp, pos, LArray, On);
    var t := RunMore(inp, pos, LArray, On);
    if t.LOk? {
      assert WFAll(ClassOf(LArray), Cons(first, t.items), On);
      assert MItems(inp, start + 1, Cons(first, t.items), t.trail) == t.end;
      DefEx(inp, start, EArray(Cons(first, t.items), t.trail), KindAt(inp, t.end + 1), sl);
    }
  }

  lemma {:induction false} SoundTensor(inp: Input, pos: nat, sl: Switch)
    requires KindAt(inp, pos) == KwTensor
    ensures var r := RunTensor(inp, pos, sl); r.Ok? ==>
      r.syn.Ex? && !IsTail(r.syn.e) && Derives(inp, pos, r.syn, r.end, sl)
    decreases |inp.toks| - pos, 1
  {
    hide M, WF, Follow, LeftOk, RunComma, RunItems;
    if KindAt(inp, pos + 1) == LSquare {
      SoundItems(inp, pos + 2, LTensorVals, On);
      var v := RunItems(inp, pos + 2, LTensorVals, On);
      if v.LOk? && KindAt(inp, v.end) == Semi {
        SoundComma(inp, v.end + 1, LDims, sl);
        var d := RunComma(inp, v.end + 1, LDims, sl);
        if d.LOk? { DefEx(inp, pos, ETensor(v.items, v.trail, d.items, d.trail), KindAt(inp, d.end + 1), sl); }
      }
    }
  }

  /////////////////////////// control flow and statements ///////////////////////////

  lemma {:induction false} SoundIf(inp: Input, pos: nat, sl: Switch)
    requires KindAt(inp, pos) == KwIf
    ensures var r := RunIf(inp, pos, sl); r.Ok? ==> r.syn.Ex? && r.syn.e.EIf? && Derives(inp, pos, r.syn, r.end, sl)
    decreases |inp.toks| - pos, 1
  {
    hide M, WF, Follow, LeftOk, RunExpr, RunBlock, RunIfElse;
    SoundExpr(inp, pos + 1, 0, Off);
    var c := RunExpr(inp, pos + 1, 0, Off);
    if c.Ok? {
      SoundBlock(inp, c.end, sl);
      var t := RunBlock(inp, c.end, sl);
      if t.Ok? {
        if KindAt(inp, t.end) == KwElse {
          SoundIfElse(inp, pos, t.end + 1, c.syn, t.syn, sl);
        } else {
          DefEx(inp, pos, EIf(c.syn, t.syn, Absent), KindAt(inp, t.end), sl);
        }
      }
    }
  }

  lemma {:induction false} SoundIfElse(inp: Input, start: nat, pos: nat, c: Syn, t: Syn, sl: Switch)
    requires KindAt(inp, start) == KwIf && c.Ex? && WF(c, Off) && IsBlock(t) && WF(t, sl)
    requires Expect1(inp, M(inp, M(inp, start + 1, c), t), KwElse) == pos
    ensures var r := RunIfElse(inp, pos, c, t, sl); r.Ok? ==>
      r.syn.Ex? && r.syn.e.EIf? && Derives(inp, start, r.syn, r.end, sl)
    decreases |inp.toks| - pos, 3
  {
    hide M, WF, Follow, LeftOk, RunElse;
    SoundElse(inp, pos, sl);
    var e := RunElse(inp, pos, sl);
    if e.Ok? { DefEx(inp, start, EIf(c, t, e.syn), KindAt(inp, e.end), sl); }
  }

  lemma {:induction false} SoundElse(inp: Input, pos: nat, sl: Switch)
    ensures var r := RunElse(inp, pos, sl);
            r.Ok? ==> r.syn.Ex? && (r.syn.e.EIf? || r.syn.e.EBlock?) && Derives(inp, pos, r.syn, r.end, sl)
    decreases |inp.toks| - pos, 2
  {
    hide M, WF, Follow, LeftOk, RunBlock, RunIf;
    if KindAt(inp, pos) == KwIf { SoundIf(inp, pos, sl); } else { SoundBlock(inp, pos, sl); }
  }

  lemma {:induction false} SoundWhile(inp: Input, pos: nat, sl: Switch)
    requires KindAt(inp, pos) == KwWhile
    ensures var r := RunWhile(inp, pos, sl); r.Ok? ==>
      r.syn.Ex? && r.syn.e.EWhile? && Derives(inp, pos, r.syn, r.end, sl)
    decreases |inp.toks| - pos, 1
  {
    hide M, WF, Follow, LeftOk, RunBlock, RunExpr;
    SoundExpr(inp, pos + 1, 0, Off);
    var c := RunExpr(inp, pos + 1, 0, Off);
    if c.Ok? {
      SoundBlock(inp, c.end, sl);
      var b := RunBlock(inp, c.end, sl);
      if b.Ok? { DefEx(inp, pos, EWhile(c.syn, b.syn), KindAt(inp, b.end), sl); }
    }
  }

  lemma {:induction false} SoundMatch(inp: Input, pos: nat, sl: Switch)
    requires KindAt(inp, pos) == KwMatch
    ensures var r := RunMatch(inp, pos, sl); r.Ok? ==>
      r.syn.Ex? && r.syn.e.EMatch? && Derives(inp, pos, r.syn, r.end, sl)
    decreases |inp.toks| - pos, 1
  {
    hide M, WF, Follow, LeftOk, RunArms, RunExpr, MSeq, WFArms;
    SoundExpr(inp, pos + 1, 0, Off);
    var c := RunExpr(inp, pos + 1, 0, Off);
    if c.Ok? && KindAt(inp, c.end) == LBrace {
      SoundArms(inp, c.end + 1, sl);
      var a := RunArms(inp, c.end + 1, sl);
      if a.LOk? { DefEx(inp, pos, EMatch(c.syn, a.items), KindAt(inp, a.end + 1), sl); }
    }
  }

  lemma {:induction false} SoundArms(inp: Input, pos: nat, sl: Switch)
    ensures var r := RunArms(inp, pos, sl);
            r.LOk? ==> && MSeq(inp, pos, r.items) == r.end && WFArms(r.items, sl)
                       && (r.items.Cons? && IsTupleArm(r.items.hd) ==> KindAt(inp, pos) == LParen)
    decreases |inp.toks| - pos, 3
  {
    hide M, WF, Follow, LeftOk, RunArm;
    if KindAt(inp, pos) != RBrace && KindAt(inp, pos) != Eof {
      SoundArm(inp, pos, sl);
      var a := RunArm(inp, pos, sl);
      if a.Ok? {
        SoundArms(inp, a.end, sl);
        var t := RunArms(inp, a.end, sl);
        if t.LOk? { assert WFArms(Cons(a.syn, t.items), sl); }
      }
    }
  }

  lemma DefAr(inp: Input, pos: nat, p: Syn, v: Syn, sep: bool, sl: Switch)
    ensures var q := M(inp, Expect1(inp, M(inp, pos, p), FatArrow), v);
            pos >= 0 && q > pos && sep == (KindAt(inp, q) == Comma || KindAt(inp, q) == Semi)
            ==> M(inp, pos, Ar(p, v, sep)) == if sep then q + 1 else q
    ensures WF(Ar(p, v, sep), sl) == (p.Pt? && WF(p, sl) && v.Ex? && WF(v, sl))
  {
  }

  lemma TupleArmFirst(inp: Input, pos: nat, p: Syn)
    requires M(inp, pos, p) >= 0 && p.Pt? && p.p.PTuple? && p.p.named.Off?
    ensures KindAt(inp, pos) == LParen
  {
    assert M(inp, pos, p) == MPat(inp, pos, p.p);
  }

  lemma {:induction false} SoundArm(inp: Input, pos: nat, sl: Switch)
    ensures var r := RunArm(inp, pos, sl);
            r.Ok? ==> && r.syn.Ar? && M(inp, pos, r.syn) == r.end && WF(r.syn, sl)
                      && (!r.syn.sep ==> KindAt(inp, r.end) != LParen)
                      && (IsTupleArm(r.syn) ==> KindAt(inp, pos) == LParen)
    decreases |inp.toks| - pos, 2
  {
    hide M, WF, Follow, LeftOk, RunExpr, RunPat;
    SoundPat(inp, pos, sl);
    var p := RunPat(inp, pos, sl);
    if p.Ok? && KindAt(inp, p.end) == FatArrow {
      if p.syn.p.PTuple? && p.syn.p.named.Off? { TupleArmFirst(inp, pos, p.syn); }
      SoundExpr(inp, p.end + 1, 0, sl);
      var v := RunExpr(inp, p.end + 1, 0, sl);
      if v.Ok? {
        var k := KindAt(inp, v.end);
        DefAr(inp, pos, p.syn, v.syn, k == Comma || k == Semi, sl);
      }
    }
  }

  lemma {:induction false} SoundUnsafe(inp: Input, pos: nat, sl: Switch)
    requires KindAt(inp, pos) == KwUnsafe
    ensures var r := RunUnsafe(inp, pos, sl); r.Ok? ==>
      r.syn.Ex? && r.syn.e.EUnsafe? && Derives(inp, pos, r.syn, r.end, sl)
    decreases |inp.toks| - pos, 1
  {
    hide M, WF, Follow, LeftOk, RunStmts;
    if KindAt(inp, pos + 1) == LBrace {
      SoundStmts(inp, pos + 2, sl);
      var b := RunStmts(inp, pos + 2, sl);
      if b.LOk? { DefEx(inp, pos, EUnsafe(b.items), KindAt(inp, b.end + 1), sl); }
    }
  }

  lemma {:induction false} SoundBlock(inp: Input, pos: nat, sl: Switch)
    ensures var r := RunBlock(inp, pos, sl); r.Ok? ==> IsBlock(r.syn) && Derives(inp, pos, r.syn, r.end, sl)
    decreases |inp.toks| - pos, 0
  {
    hide M, WF, Follow, LeftOk, RunStmts;
    if KindAt(inp, pos) == LBrace {
      SoundStmts(inp, pos + 1, sl);
      var b := RunStmts(inp, pos + 1, sl);
      if b.LOk? { DefEx(inp, pos, EBlock(b.items), KindAt(inp, b.end + 1), sl); }
    }
  }

  lemma {:induction false} SoundStmts(inp: Input, pos: nat, sl: Switch)
    ensures var r := RunStmts(inp, pos, sl); r.LOk? ==> MSeq(inp, pos, r.items) == r.end && WFStmts(r.items, sl)
    decreases |inp.toks| - pos, 6
  {
    hide M, WF, Follow, LeftOk, RunStmt;
    if KindAt(inp, pos) != RBrace && KindAt(inp, pos) != Eof {
      SoundStmt(inp, pos, sl);
      var s := RunStmt(inp, pos, sl);
      if s.Ok? { SoundStmts(inp, s.end, sl); }
    }
  }

  // The tokens that spell an expression begin with the tokens that spell its leftmost atom.
  lemma {:induction false} LeftAtomFirst(inp: Input, pos: nat, s: Syn, sl: Switch)
    requires s.Ex? && M(inp, pos, s) >= 0 && WF(s, sl)
    ensures LeftAtom(s).Ex? && M(inp, pos, LeftAtom(s)) >= 0
    decreases s
  {
    if IsTail(s.e) {
      LeftAtomFirst(inp, pos, Head(s.e), sl);
    }
  }

  // An expression whose first token opens an expression statement is not block-like.
  lemma {:induction false} NotBlockLike(inp: Input, pos: nat, s: Syn, sl: Switch)
    requires s.Ex? && M(inp, pos, s) >= 0 && WF(s, sl) && IsExprStmtStart(KindAt(inp, pos))
    ensures !IsBlockLike(LeftAtom(s))
  {
    LeftAtomFirst(inp, pos, s, sl);
  }

  lemma Item(inp: Input, pos: nat, r: Res, sl: Switch)
    requires r.Ok? ==> IsBlockLike(r.syn) && M(inp, pos, r.syn) == r.end && WF(r.syn, sl)
    ensures var w := AsItem(r); w.Ok? ==> w.syn.St? && M(inp, pos, w.syn) == w.end && WF(w.syn, sl)
  {
    hide M, WF;
    if r.Ok? { DefSt(inp, pos, SItem(r.syn), sl); }
  }

  lemma {:induction false} SoundStmt(inp: Input, pos: nat, sl: Switch)
    ensures var r := RunStmt(inp, pos, sl); r.Ok? ==> r.syn.St? && M(inp, pos, r.syn) == r.end && WF(r.syn, sl)
    decreases |inp.toks| - pos, 5
  {
    hide M, WF, Follow, LeftOk, LeftAtom, RunBlock, RunExpr, RunFor, RunIf, RunLet, RunRet, RunUnsafe, RunWhile;
    var k := KindAt(inp, pos);
    if k == KwLet { SoundLet(inp, pos, sl); }
    else if k == KwIf { SoundIf(inp, pos, sl); Item(inp, pos, RunIf(inp, pos, sl), sl); }
    else if k == KwFor { SoundFor(inp, pos, sl); }
    else if k == KwWhile { SoundWhile(inp, pos, sl); Item(inp, pos, RunWhile(inp, pos, sl), sl); }
    else if k == LBrace { SoundBlock(inp, pos, sl); Item(inp, pos, RunBlock(inp, pos, sl), sl); }
    else if k == KwRet { SoundRet(inp, pos, sl); }
    else if k == KwBreak { DefSt(inp, pos, SBreak, sl); }
    else if k == KwContinue { DefSt(inp, pos, SContinue, sl); }
    else if k == KwUnsafe { SoundUnsafe(inp, pos, sl); Item(inp, pos, RunUnsafe(inp, pos, sl), sl); }
    else if IsExprStmtStart(k) {
      SoundExpr(inp, pos, 0, sl);
      var e := RunExpr(inp, pos, 0, sl);
      if e.Ok? {
        NotBlockLike(inp, pos, e.syn, sl);
        DefSt(inp, pos, SExpr(e.syn), sl);
      }
    }
  }

  lemma {:induction false} SoundRet(inp: Input, pos: nat, sl: Switch)
    requires KindAt(inp, pos) == KwRet
    ensures var r := RunRet(inp, pos, sl); r.Ok? ==> r.syn.St? && M(inp, pos, r.syn) == r.end && WF(r.syn, sl)
    decreases |inp.toks| - pos, 1
  {
    hide M, WF, Follow, LeftOk, RunExpr;
    SoundExpr(inp, pos + 1, 0, sl);
    var e := RunExpr(inp, pos + 1, 0, sl);
    if e.Ok? { DefSt(inp, pos, SRet(e.syn), sl); }
  }

  lemma {:induction false} SoundLet(inp: Input, pos: nat, sl: Switch)
    requires KindAt(inp, pos) == KwLet
    ensures var r := RunLet(inp, pos, sl); r.Ok? ==> r.syn.St? && M(inp, pos, r.syn) == r.end && WF(r.syn, sl)
    decreases |inp.toks| - pos, 1
  {
    hide M, WF, Follow, LeftOk, RunOptInit, RunOptType;
    var reg := IsRegime(KindAt(inp, pos + 1));
    var name := if reg then pos + 2 else pos + 1;
    if KindAt(inp, name) == Identifier {
      SoundOptType(inp, name + 1, sl);
      var ty := RunOptType(inp, name + 1, sl);
      if ty.Ok? {
        SoundOptInit(inp, ty.end, sl);
        var init := RunOptInit(inp, ty.end, sl);
        if init.Ok? {
          DefSt(inp, pos, SLet(reg, ty.syn, init.syn), sl);
          var r := RunLet(inp, pos, sl);
          assert r == Ok(St(SLet(reg, ty.syn, init.syn)), init.end + 1) || r.Fail?;
        }
      }
    }
  }

  // An optional part behind its introducing token.
  ghost predicate DerivesOpt(inp: Input, pos: nat, r: Res, intro: Kind, sl: Switch) {
    r.Ok? ==> if r.syn.Absent? then r.end == pos else M(inp, Expect1(inp, pos, intro), r.syn) == r.end && WF(r.syn, sl)
  }

  lemma {:induction false} SoundOptType(inp: Input, pos: nat, sl: Switch)
    ensures var r := RunOptType(inp, pos, sl);
            DerivesOpt(inp, pos, r, Colon, sl) && (r.Ok? ==> r.syn.Absent? || r.syn.Ty?)
    decreases |inp.toks| - pos, 0
  {
    hide M, WF, Follow, LeftOk, RunType;
    if KindAt(inp, pos) == Colon { SoundType(inp, pos + 1, sl); }
  }

  lemma {:induction false} SoundOptInit(inp: Input, pos: nat, sl: Switch)
    ensures var r := RunOptInit(inp, pos, sl);
            DerivesOpt(inp, pos, r, Eq, sl) && (r.Ok? ==> r.syn.Absent? || r.syn.Ex?)
    decreases |inp.toks| - pos, 0
  {
    hide M, WF, Follow, LeftOk, RunExpr;
    if KindAt(inp, pos) == Eq { SoundExpr(inp, pos + 1, 0, sl); }
  }

  lemma {:induction false} SoundFor(inp: Input, pos: nat, sl: Switch)
    requires KindAt(inp, pos) == KwFor
    ensures var r := RunFor(inp, pos, sl); r.Ok? ==> r.syn.St? && M(inp, pos, r.syn) == r.end && WF(r.syn, sl)
    decreases |inp.toks| - pos, 1
  {
    hide M, WF, Follow, LeftOk, RunBlock, RunExpr;
    var reg := IsRegime(KindAt(inp, pos + 1));
    var name := if reg then pos + 2 else pos + 1;
    SoundExpr(inp, name + 2, 0, Off);
    var it := RunExpr(inp, name + 2, 0, Off);
    if it.Ok? {
      SoundBlock(inp, it.end, sl);
      var b := RunBlock(inp, it.end, sl);
      if b.Ok? { DefSt(inp, pos, SFor(reg, it.syn, b.syn), sl); }
    }
  }
}
