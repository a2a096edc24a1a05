/** Types, patterns, expressions and statements: the words of the tree are the tokens. */
module TreeTexts {
  import opened Tokens
  import opened Trees
  import opened Grammar
  import opened Spelling
  import opened Layouts
  import opened NodeKinds
  import opened Printing
  import opened Telling

  /////////////////////////// lists ///////////////////////////

  lemma {:induction false} TellSyn(inp: Input, pos: nat, s: Syn, sl: Switch) returns (r: Tale)
    requires Worded(inp) && M(inp, pos, s) >= 0 && WF(s, sl) && !s.Absent?
    ensures True(inp, r) && r.lo == pos && r.hi == M(inp, pos, s) && r.ts == Show(Ast(inp, pos, s))
    decreases s, 4
  {
    hide True, Worded, Show, MType, MPat, MField, MStmt, MExpr, MTail, AstType, AstPat, AstField, AstStmt, AstExpr,
         AstTail, WFType, WFPat, WFExpr, WFStmt;
    match s
    case Ty(t) => r := TellType(inp, pos, t, sl);
    case Pt(p) => r := TellPat(inp, pos, p, sl);
    case Fl(f) => r := TellField(inp, pos, f, sl);
    case Ex(e) => if IsTail(e) { r := TellTail(inp, pos, e, sl); } else { r := TellExpr(inp, pos, e, sl); }
    case Ar(p, v, sep) => r := TellArm(inp, pos, p, v, sep, sl);
    case St(st) => r := TellStmt(inp, pos, st, sl);
  }

  lemma {:induction false} TellItems(inp: Input, pos: nat, c: Class, l: Syns, trail: Switch, sl: Switch)
    returns (r: Tale)
    requires Worded(inp) && pos <= |inp.toks| && MItems(inp, pos, l, trail) >= 0 && WFAll(c, l, sl)
    ensures True(inp, r) && r.lo == pos && r.hi == MItems(inp, pos, l, trail) && r.ts == AllWords(AstItems(inp, pos, l))
    decreases l, 6
  {
    hide True, Worded, Show, M, Ast, AllWords, WF;
    if l.Nil? {
      NoWords();
      r := Start(inp, pos);
    } else {
      var x := TellSyn(inp, pos, l.hd, sl);
      var more := TellMore(inp, M(inp, pos, l.hd), c, l.tl, trail, sl);
      ConsWords(Ast(inp, pos, l.hd), AstMore(inp, M(inp, pos, l.hd), l.tl));
      r := Join(inp, x, more);
    }
  }

  lemma {:induction false} TellMore(inp: Input, pos: nat, c: Class, l: Syns, trail: Switch, sl: Switch)
    returns (r: Tale)
    requires Worded(inp) && pos <= |inp.toks| && MMore(inp, pos, l, trail) >= 0 && WFAll(c, l, sl)
    ensures True(inp, r) && r.lo == pos && r.hi == MMore(inp, pos, l, trail) && r.ts == AllWords(AstMore(inp, pos, l))
    decreases l, 6
  {
    hide True, Worded, Show, M, Ast, AllWords, WF;
    if l.Nil? {
      NoWords();
      r := Start(inp, pos);
      if trail.On? { r := Behind(inp, r); }
    } else {
      var x := TellSyn(inp, pos + 1, l.hd, sl);
      x := Ahead(inp, pos, x);
      var more := TellMore(inp, M(inp, pos + 1, l.hd), c, l.tl, trail, sl);
      ConsWords(Ast(inp, pos + 1, l.hd), AstMore(inp, M(inp, pos + 1, l.hd), l.tl));
      r := Join(inp, x, more);
    }
  }

  lemma {:induction false} TellSeq(inp: Input, pos: nat, l: Syns, sl: Switch) returns (r: Tale)
    requires Worded(inp) && pos <= |inp.toks| && MSeq(inp, pos, l) >= 0 && (WFStmts(l, sl) || WFArms(l, sl))
    ensures True(inp, r) && r.lo == pos && r.hi == MSeq(inp, pos, l) && r.ts == AllWords(AstSeq(inp, pos, l))
    decreases l, 6
  {
    hide True, Worded, Show, M, Ast, AllWords, WF;
    if l.Nil? {
      NoWords();
      r := Start(inp, pos);
    } else {
      var x := TellSyn(inp, pos, l.hd, sl);
      var more := TellSeq(inp, M(inp, pos, l.hd), l.tl, sl);
      ConsWords(Ast(inp, pos, l.hd), AstSeq(inp, M(inp, pos, l.hd), l.tl));
      r := Join(inp, x, more);
    }
  }

  // A bracketed list behind what is told.
  lemma {:induction false} TellEnclosed(inp: Input, a: Tale, open: Kind, o: string, c: Class, l: Syns, trail: Switch,
                                        close: Kind,
                                        z: string, sl: Switch) returns (r: Tale)
    requires Worded(inp) && True(inp, a) && Enclosed(inp, a.hi, open, l, trail, close) >= 0 && WFAll(c, l, sl)
    requires o != "" && KindText(open) == o && open != Unknown && z != "" && KindText(close) == z && close != Unknown
    ensures True(inp, r) && r.lo == a.lo && r.hi == Enclosed(inp, a.hi, open, l, trail, close)
    ensures r.ts == a.ts + [o] + AllWords(AstItems(inp, a.hi + 1, l)) + [z]
    decreases l, 7
  {
    hide True, Worded, KindText, AllWords, MItems, AstItems;
    r := Key(inp, a, open, o);
    var items := TellItems(inp, a.hi + 1, c, l, trail, sl);
    r := Join(inp, r, items);
    r := Key(inp, r, close, z);
  }

  // A path.
  lemma {:induction false} SegKinds(inp: Input, pos: nat, n: nat, k: int)
    requires MSegs(inp, pos, n) >= 0 && pos <= k < MSegs(inp, pos, n)
    ensures InPath(KindAt(inp, k))
    decreases n
  {
    if n > 0 && k >= pos + 2 { SegKinds(inp, pos + 2, n - 1, k); }
  }

  lemma TellPath(inp: Input, pos: nat, n: nat) returns (r: Tale)
    requires MPath(inp, pos, n) >= 0 && (KindAt(inp, pos) == Identifier || KindAt(inp, pos) == KwSelf)
    ensures True(inp, r) && r.lo == pos && r.hi == MPath(inp, pos, n)
    ensures r.ts == [TextOf(inp.src, PathSpan(inp, pos, n))]
  {
    hide True, MSegs, TextOf;
    var z := MPath(inp, pos, n);
    forall k | pos <= k < z ensures InPath(KindAt(inp, k)) { if k > pos { SegKinds(inp, pos + 1, n, k); } }
    PathOk(inp, pos, z);
    r := OnePiece(inp, Path(pos, z));
  }

  lemma PathOk(inp: Input, pos: nat, z: nat)
    requires pos < z <= |inp.toks| && forall k :: pos <= k < z ==> InPath(KindAt(inp, k))
    ensures PieceOk(inp, Path(pos, z))
  {
  }

  lemma Text(inp: Input, a: Tale) returns (r: Tale)
    requires True(inp, a) && a.hi < |inp.toks| && KindAt(inp, a.hi) != Unknown && KindAt(inp, a.hi) != Eof
    ensures True(inp, r) && r.lo == a.lo && r.hi == a.hi + 1 && r.ts == a.ts + [TokText(inp, a.hi)]
  {
    hide True, TextOf;
    r := Word(inp, a, TokText(inp, a.hi));
  }

  lemma OneToken(inp: Input, pos: nat) returns (r: Tale)
    requires pos < |inp.toks| && KindAt(inp, pos) != Unknown && KindAt(inp, pos) != Eof
    ensures True(inp, r) && r.lo == pos && r.hi == pos + 1 && r.ts == [TokText(inp, pos)]
  {
    hide True, TextOf;
    PlainOk(inp, pos);
    r := OnePiece(inp, Lone(pos));
  }

  // More syntax behind what is told.
  lemma {:induction false} More(inp: Input, a: Tale, s: Syn, sl: Switch) returns (r: Tale)
    requires Worded(inp) && True(inp, a) && M(inp, a.hi, s) >= 0 && WF(s, sl) && !s.Absent?
    ensures True(inp, r) && r.lo == a.lo && r.hi == M(inp, a.hi, s) && r.ts == a.ts + Show(Ast(inp, a.hi, s))
    decreases s, 5
  {
    hide True, Worded, Show, M, Ast, WF;
    r := TellSyn(inp, a.hi, s, sl);
    r := Join(inp, a, r);
  }

  lemma KidsAre(t: Tree)
    requires t.Tree?
    ensures |t.kids| > 0 ==> Kid(t, 0) == Show(t.kids[0])
    ensures |t.kids| > 1 ==> Kid(t, 1) == Show(t.kids[1])
    ensures |t.kids| > 2 ==> Kid(t, 2) == Show(t.kids[2])
    ensures ShowFrom(t, 0) == AllWords(t.kids)
  {
    hide Show, ShowFrom;
    FromAll(t, 0);
    assert t.kids[0..] == t.kids;
  }

  lemma KidsBehind(t: Tree, x: Tree, ts: seq<Tree>)
    requires t.Tree? && t.kids == [x] + ts
    ensures Kid(t, 0) == Show(x) && ShowFrom(t, 1) == AllWords(ts)
  {
    hide Show, ShowFrom;
    FromAll(t, 1);
    assert t.kids[1..] == ts;
  }

  /////////////////////////// types ///////////////////////////

  lemma {:induction false} TellType(inp: Input, pos: nat, t: TypeForm, sl: Switch) returns (r: Tale)
    requires Worded(inp) && MType(inp, pos, t) >= 0 && WFType(t, sl)
    ensures True(inp, r) && r.lo == pos && r.hi == MType(inp, pos, t) && r.ts == Show(Ast(inp, pos, Ty(t)))
    decreases t, 3
  {
    hide True, Worded, M, Ast, AllWords, KindText, ShowFrom, Kid, MItems, AstItems, WF, TextOf;
    Signs();
    StatementWords();
    var x := Ast(inp, pos, Ty(t));
    match t
    case TNamed(n) =>
      r := TellPath(inp, pos, n);
      NamedShown(inp, pos, n);
    case TTuple(items, tr) =>
      r := Start(inp, pos);
      r := TellEnclosed(inp, r, LParen, "(", CType, items, tr, RParen, ")", sl);
      TupleShown(inp, pos, items, tr);
    case TArray(e, n) =>
      r := First(inp, pos, LSquare, "[");
      r := More(inp, r, e, sl);
      r := Key(inp, r, Semi, ";");
      r := More(inp, r, n, sl);
      r := Key(inp, r, RSquare, "]");
      ArrayShown(inp, pos, e, n);
    case TTensor(e, d, tr) =>
      r := First(inp, pos, KwTensor, "tensor");
      r := Key(inp, r, LSquare, "[");
      r := More(inp, r, e, sl);
      r := Key(inp, r, Semi, ";");
      var ds := TellItems(inp, r.hi, CExpr, d, tr, sl);
      r := Join(inp, r, ds);
      r := Key(inp, r, RSquare, "]");
      TensorShown(inp, pos, e, d, tr);
  }

  lemma NamedShown(inp: Input, pos: nat, n: nat)
    ensures Show(Ast(inp, pos, Ty(TNamed(n)))) == [TextOf(inp.src, PathSpan(inp, pos, n))]
  {
    hide M, TextOf;
  }

  lemma TupleShown(inp: Input, pos: nat, items: Syns, tr: Switch)
    ensures Show(Ast(inp, pos, Ty(TTuple(items, tr)))) == [] + ["("] + AllWords(AstItems(inp, pos + 1, items)) + [")"]
  {
    hide M, AllWords, ShowFrom, Kid, AstItems;
    KidsAre(Ast(inp, pos, Ty(TTuple(items, tr))));
    assert [] + ["("] == ["("];
  }

  lemma ArrayShown(inp: Input, pos: nat, e: Syn, n: Syn)
    ensures Show(Ast(inp, pos, Ty(TArray(e, n))))
            == ["["] + Show(Ast(inp, pos + 1, e)) + [";"] + Show(Ast(inp, M(inp, pos + 1, e) + 1, n)) + ["]"]
  {
    hide M, ShowFrom, Kid;
    var x := Ast(inp, pos, Ty(TArray(e, n)));
    assert x == AstType(inp, pos, EndOf(inp, M(inp, pos, Ty(TArray(e, n))) - 1), TArray(e, n));
    KidsAre(x);
  }

  lemma TensorShown(inp: Input, pos: nat, e: Syn, d: Syns, tr: Switch)
    ensures Show(Ast(inp, pos, Ty(TTensor(e, d, tr))))
            == ["tensor"] + ["["] + Show(Ast(inp, pos + 2, e)) + [";"]
               + AllWords(AstItems(inp, M(inp, pos + 2, e) + 1, d)) + ["]"]
  {
    hide M, ShowFrom, Kid, AllWords, AstItems;
    var x := Ast(inp, pos, Ty(TTensor(e, d, tr)));
    assert x == AstType(inp, pos, EndOf(inp, M(inp, pos, Ty(TTensor(e, d, tr))) - 1), TTensor(e, d, tr));
    assert x.kids == [Ast(inp, pos + 2, e)] + AstItems(inp, M(inp, pos + 2, e) + 1, d);
    KidsBehind(x, Ast(inp, pos + 2, e), AstItems(inp, M(inp, pos + 2, e) + 1, d));
  }

  /////////////////////////// patterns and fields ///////////////////////////

  lemma {:induction false} TellPat(inp: Input, pos: nat, p: PatForm, sl: Switch) returns (r: Tale)
    requires Worded(inp) && MPat(inp, pos, p) >= 0 && WFPat(p, sl)
    ensures True(inp, r) && r.lo == pos && r.hi == MPat(inp, pos, p) && r.ts == Show(Ast(inp, pos, Pt(p)))
    decreases p, 3
  {
    hide True, Worded, M, Ast, AllWords, KindText, ShowFrom, Kid, MItems, AstItems, WF, TextOf, Show, MSegs;
    Signs();
    PatShown(inp, pos, p);
    match p
    case PWild => r := OneToken(inp, pos);
    case PLit => r := OneToken(inp, pos);
    case PName(n) => r := TellPath(inp, pos, n);
    case PTuple(named, n, items, tr) =>
      if named.On? { r := TellPath(inp, pos, n); } else { r := Start(inp, pos); }
      r := TellEnclosed(inp, r, LParen, "(", CPat, items, tr, RParen, ")", sl);
    case PStruct(n, fs, tr) =>
      r := TellPath(inp, pos, n);
      r := TellEnclosed(inp, r, LBrace, "{", CFieldPat, fs, tr, RBrace, "}", sl);
  }

  // The words of a pattern, by its syntax.
  ghost function PatWords(inp: Input, pos: nat, p: PatForm): seq<string> {
    match p
    case PWild => ["_"]
    case PLit => [TokText(inp, pos)]
    case PName(n) => [TextOf(inp.src, PathSpan(inp, pos, n))]
    case PTuple(named, n, items, _) =>
      (if named.On? then [TextOf(inp.src, PathSpan(inp, pos, n))] else []) + ["("]
      + AllWords(AstItems(inp, (if named.On? then MPath(inp, pos, n) else pos) + 1, items)) + [")"]
    case PStruct(n, fs, _) =>
      [TextOf(inp.src, PathSpan(inp, pos, n))] + ["{"] + AllWords(AstItems(inp, MPath(inp, pos, n) + 1, fs)) + ["}"]
  }

  lemma PatShown(inp: Input, pos: nat, p: PatForm)
    ensures Show(Ast(inp, pos, Pt(p))) == PatWords(inp, pos, p)
  {
    hide M, AllWords, ShowFrom, Kid, AstItems, TextOf, MSegs, AstType, AstField, AstStmt, AstExpr, AstTail;
    KidsAre(Ast(inp, pos, Pt(p)));
  }

  lemma {:induction false} TellField(inp: Input, pos: nat, f: FieldForm, sl: Switch) returns (r: Tale)
    requires Worded(inp) && MField(inp, pos, f) >= 0 && WF(Fl(f), sl)
    ensures True(inp, r) && r.lo == pos && r.hi == MField(inp, pos, f) && r.ts == Show(Ast(inp, pos, Fl(f)))
    decreases f, 3
  {
    hide True, Worded, M, Ast, KindText, Kid, TextOf, Show, WFType, WFPat, WFExpr, WFStmt;
    Signs();
    FieldShown(inp, pos, f);
    match f
    case PField(sub) =>
      r := OneToken(inp, pos);
      r := Key(inp, r, Colon, ":");
      r := More(inp, r, sub, sl);
    case PFieldShort => r := OneToken(inp, pos);
    case FInit(v) =>
      r := OneToken(inp, pos);
      r := Key(inp, r, Colon, ":");
      r := More(inp, r, v, sl);
    case FShort => r := OnePiece(inp, Doubled(pos));
  }

  // The words of a field.
  ghost function FieldWords(inp: Input, pos: nat, f: FieldForm): seq<string> {
    var t := TokText(inp, pos);
    match f
    case PField(sub) => [t] + [":"] + Show(Ast(inp, pos + 2, sub))
    case PFieldShort => [t]
    case FInit(v) => [t] + [":"] + Show(Ast(inp, pos + 2, v))
    case FShort => [t] + [":"] + [t]
  }

  lemma FieldShown(inp: Input, pos: nat, f: FieldForm)
    ensures Show(Ast(inp, pos, Fl(f))) == FieldWords(inp, pos, f)
  {
    hide M, AllWords, ShowFrom, Kid, AstItems, TextOf, AstType, AstPat, AstStmt, AstExpr, AstTail;
    var x := Ast(inp, pos, Fl(f));
    KidsAre(x);
    if f.FShort? { assert Show(x.kids[0]) == [TokText(inp, pos)]; }
  }

  /////////////////////////// expressions ///////////////////////////

  lemma {:induction false} TellTail(inp: Input, pos: nat, e: ExprForm, sl: Switch) returns (r: Tale)
    requires Worded(inp) && IsTail(e) && MTail(inp, pos, e) >= 0 && WFExpr(e, sl)
    ensures True(inp, r) && r.lo == pos && r.hi == MTail(inp, pos, e) && r.ts == Show(Ast(inp, pos, Ex(e)))
    decreases e, 3
  {
    hide True, Worded, M, Ast, AllWords, KindText, ShowFrom, Kid, MItems, AstItems, Follow, LeftOk, WF, TextOf,
         Show, InfixBindingPower, FloatSplit, OperatorText;
    Signs();
    StatementWords();
    if e.EFloatIdx? {
      r := TellFloat(inp, pos, e, sl);
    } else {
      TailShown(inp, pos, e, sl);
      r := TellSyn(inp, pos, Head(e), sl);
      match e
      case EBin(l, op, b) =>
        OperatorWords(op);
        r := Key(inp, r, op, OperatorText(op));
        r := More(inp, r, b, sl);
      case ECall(_, args) => r := TellEnclosed(inp, r, LParen, "(", CExpr, args, Off, RParen, ")", Switch.On);
      case EField(_) => r := Key(inp, r, Dot, "."); r := Text(inp, r);
      case ETupleIdx(_) => r := Key(inp, r, Dot, "."); r := Text(inp, r);
      case EIndex(_, items, tr) => r := TellEnclosed(inp, r, LSquare, "[", CExpr, items, tr, RSquare, "]", Switch.On);
      case ETry(_) => r := Key(inp, r, Question, "?");
      case ECast(_, ty) => r := Key(inp, r, KwAs, "as"); r := More(inp, r, ty, sl);
    }
  }

  // The words of an operator form behind those of the expression it begins with.
  ghost function TailWords(inp: Input, pos: nat, e: ExprForm): seq<string>
    requires IsTail(e)
  {
    var p, q := Show(Ast(inp, pos, Head(e))), M(inp, pos, Head(e));
    match e
    case EBin(_, op, b) => p + [OperatorText(op)] + Show(Ast(inp, q + 1, b))
    case ECall(_, args) => p + ["("] + AllWords(AstItems(inp, q + 1, args)) + [")"]
    case EField(_) => p + ["."] + [TokText(inp, q + 1)]
    case ETupleIdx(_) => p + ["."] + [TokText(inp, q + 1)]
    case EIndex(_, items, _) => p + ["["] + AllWords(AstItems(inp, q + 1, items)) + ["]"]
    case ETry(_) => p + ["?"]
    case ECast(_, ty) => p + ["as"] + Show(Ast(inp, q + 1, ty))
    case _ => []
  }

  lemma TailShown(inp: Input, pos: nat, e: ExprForm, sl: Switch)
    requires IsTail(e) && !e.EFloatIdx?
    ensures Show(Ast(inp, pos, Ex(e))) == TailWords(inp, pos, e)
  {
    hide M, AllWords, ShowFrom, Kid, AstItems, TextOf, AstType, AstPat, AstStmt, AstExpr, AstField, OperatorText;
    var x := Ast(inp, pos, Ex(e));
    KidsAre(x);
    if e.ECall? { KidsAre(x.kids[1]); }
    if e.EIndex? { IndexKids(inp, pos, e.base, e.items, e.trail); }
  }

  lemma IndexKids(inp: Input, pos: nat, b: Syn, items: Syns, tr: Switch)
    ensures var x := Ast(inp, pos, Ex(EIndex(b, items, tr)));
            x.Tree? && ShowFrom(x, 1) == AllWords(AstItems(inp, M(inp, pos, b) + 1, items))
  {
    hide M, AllWords, ShowFrom, Kid, AstItems, AstType, AstPat, AstStmt, AstExpr, AstField;
    var x := Ast(inp, pos, Ex(EIndex(b, items, tr)));
    assert x == AstTail(inp, pos, EndOf(inp, M(inp, pos, Ex(EIndex(b, items, tr))) - 1), EIndex(b, items, tr));
    assert x.kids == [Ast(inp, pos, b)] + AstItems(inp, M(inp, pos, b) + 1, items);
    KidsBehind(x, Ast(inp, pos, b), AstItems(inp, M(inp, pos, b) + 1, items));
  }

  lemma {:induction false} TellFloat(inp: Input, pos: nat, e: ExprForm, sl: Switch) returns (r: Tale)
    requires Worded(inp) && e.EFloatIdx? && MTail(inp, pos, e) >= 0 && WFExpr(e, sl)
    ensures True(inp, r) && r.lo == pos && r.hi == MTail(inp, pos, e) && r.ts == Show(Ast(inp, pos, Ex(e)))
    decreases e, 2
  {
    hide True, Worded, M, Ast, KindText, Follow, WF, TextOf, Show, FloatSplit;
    Signs();
    FloatShown(inp, pos, e);
    r := TellSyn(inp, pos, e.base, sl);
    r := Key(inp, r, Dot, ".");
    var p := OnePiece(inp, Fused(r.hi));
    r := Join(inp, r, p);
  }

  lemma FloatShown(inp: Input, pos: nat, e: ExprForm)
    requires e.EFloatIdx? && MTail(inp, pos, e) >= 0
    ensures Show(Ast(inp, pos, Ex(e)))
            == Show(Ast(inp, pos, e.base)) + ["."] + PieceWords(inp, Fused(M(inp, pos, e.base) + 1))
  {
    hide M, AllWords, ShowFrom, Kid, AstItems, TextOf, AstType, AstPat, AstStmt, AstExpr, AstField, FloatSplit;
    var x := Ast(inp, pos, Ex(e));
    KidsAre(x);
    if e.two { KidsAre(x.kids[0]); }
  }

  lemma {:induction false} TellExpr(inp: Input, pos: nat, e: ExprForm, sl: Switch) returns (r: Tale)
    requires Worded(inp) && !IsTail(e) && MExpr(inp, pos, e) >= 0 && WFExpr(e, sl)
    ensures True(inp, r) && r.lo == pos && r.hi == MExpr(inp, pos, e) && r.ts == Show(Ast(inp, pos, Ex(e)))
    decreases e, 3
  {
    hide True, Worded, M, Ast, AllWords, KindText, MItems, AstItems, AstSeq, MSeq, Follow, LeftOk, WF, WFStmts,
         WFArms, TextOf, Show, MSegs, OperatorText, FloatSplit;
    Signs();
    if e.EIf? || e.EWhile? || e.EMatch? || e.EUnsafe? || e.EBlock? {
      r := TellControl(inp, pos, e, sl);
    } else if e.EParen? {
      ParenShown(inp, pos, e);
      r := TellSyn(inp, pos + 1, e.inner, Switch.On);
      r := Behind(inp, r);
      r := Ahead(inp, pos, r);
    } else if e.ETensor? {
      r := TellTensor(inp, pos, e, sl);
    } else if e.EUnary? || e.EProj? {
      r := TellPrefix(inp, pos, e, sl);
    } else {
      ExprShown(inp, pos, e);
      match e
      case ELit => r := OneToken(inp, pos);
      case EName(n) => r := TellPath(inp, pos, n);
      case EStruct(n, fs, tr) =>
        r := TellPath(inp, pos, n);
        r := TellEnclosed(inp, r, LBrace, "{", CFieldInit, fs, tr, RBrace, "}", Switch.On);
      case ETuple(items, tr) =>
        r := Start(inp, pos);
        r := TellEnclosed(inp, r, LParen, "(", CExpr, items, tr, RParen, ")", Switch.On);
      case EArray(items, tr) =>
        r := Start(inp, pos);
        r := TellEnclosed(inp, r, LSquare, "[", CExpr, items, tr, RSquare, "]", Switch.On);
      case ERepeat(v, n) =>
        r := First(inp, pos, LSquare, "[");
        r := More(inp, r, v, Switch.On);
        r := Key(inp, r, Semi, ";");
        r := More(inp, r, n, Switch.On);
        r := Key(inp, r, RSquare, "]");
    }
  }

  lemma {:induction false} TellPrefix(inp: Input, pos: nat, e: ExprForm, sl: Switch) returns (r: Tale)
    requires Worded(inp) && (e.EUnary? || e.EProj?) && MExpr(inp, pos, e) >= 0 && WFExpr(e, sl)
    ensures True(inp, r) && r.lo == pos && r.hi == MExpr(inp, pos, e) && r.ts == Show(Ast(inp, pos, Ex(e)))
    decreases e, 2
  {
    hide True, Worded, M, Ast, KindText, Follow, LeftOk, WF, Show, OperatorText;
    Signs();
    PrefixShown(inp, pos, e);
    if e.EUnary? {
      OperatorWords(e.op);
      r := First(inp, pos, e.op, OperatorText(e.op));
      r := More(inp, r, e.arg, sl);
    } else {
      r := First(inp, pos, Star, "*");
      r := More(inp, r, e.arg, sl);
      r := Key(inp, r, Eq, "=");
      r := More(inp, r, e.rhs, sl);
    }
  }

  lemma PrefixShown(inp: Input, pos: nat, e: ExprForm)
    requires e.EUnary? || e.EProj?
    ensures Show(Ast(inp, pos, Ex(e)))
            == if e.EUnary? then [OperatorText(e.op)] + Show(Ast(inp, pos + 1, e.arg))
               else ["*"] + Show(Ast(inp, pos + 1, e.arg)) + ["="] + Show(Ast(inp, M(inp, pos + 1, e.arg) + 1, e.rhs))
  {
    hide M, ShowFrom, Kid, AstType, AstPat, AstStmt, AstTail, AstField, OperatorText;
    var x := Ast(inp, pos, Ex(e));
    assert x == AstExpr(inp, pos, EndOf(inp, M(inp, pos, Ex(e)) - 1), e);
    KidsAre(x);
  }

  lemma ParenShown(inp: Input, pos: nat, e: ExprForm)
    requires e.EParen?
    ensures Show(Ast(inp, pos, Ex(e))) == Show(Ast(inp, pos + 1, e.inner))
  {
    hide M, Show;
  }

  // The words of an atom.
  ghost function ExprWords(inp: Input, pos: nat, e: ExprForm): seq<string> {
    match e
    case ELit => [TokText(inp, pos)]
    case EName(n) => [TextOf(inp.src, PathSpan(inp, pos, n))]
    case EStruct(n, fs, _) =>
      [TextOf(inp.src, PathSpan(inp, pos, n))] + ["{"] + AllWords(AstItems(inp, MPath(inp, pos, n) + 1, fs)) + ["}"]
    case ETuple(items, _) => [] + ["("] + AllWords(AstItems(inp, pos + 1, items)) + [")"]
    case EArray(items, _) => [] + ["["] + AllWords(AstItems(inp, pos + 1, items)) + ["]"]
    case ERepeat(v, n) =>
      ["["] + Show(Ast(inp, pos + 1, v)) + [";"] + Show(Ast(inp, M(inp, pos + 1, v) + 1, n)) + ["]"]
    case _ => []
  }

  lemma ExprShown(inp: Input, pos: nat, e: ExprForm)
    requires e.ELit? || e.EName? || e.EStruct? || e.ETuple? || e.EArray? || e.ERepeat?
    ensures Show(Ast(inp, pos, Ex(e))) == ExprWords(inp, pos, e)
  {
    hide M, AllWords, ShowFrom, Kid, AstItems, TextOf, MSegs, AstType, AstPat, AstStmt, AstTail, AstField,
         OperatorText;
    KidsAre(Ast(inp, pos, Ex(e)));
    assert [] + ["("] == ["("] && [] + ["["] == ["["];
  }

  // The dimensions stand behind the values.
  lemma {:induction false} TellTensor(inp: Input, pos: nat, e: ExprForm, sl: Switch) returns (r: Tale)
    requires Worded(inp) && e.ETensor? && MExpr(inp, pos, e) >= 0 && WFExpr(e, sl)
    ensures True(inp, r) && r.lo == pos && r.hi == MExpr(inp, pos, e) && r.ts == Show(Ast(inp, pos, Ex(e)))
    decreases e, 2
  {
    hide True, Worded, M, Ast, AllWords, KindText, MItems, AstItems, WF, Show;
    Signs();
    StatementWords();
    TensorLitShown(inp, pos, e);
    r := First(inp, pos, KwTensor, "tensor");
    r := Key(inp, r, LSquare, "[");
    var vs := TellItems(inp, pos + 2, CExpr, e.vals, e.vtrail, Switch.On);
    vs := Behind(inp, vs);
    var ds := TellItems(inp, vs.hi, CExpr, e.dims, e.trail, sl);
    vs := Join(inp, vs, ds);
    r := Join(inp, r, vs);
    r := Key(inp, r, RSquare, "]");
  }

  lemma TensorLitShown(inp: Input, pos: nat, e: ExprForm)
    requires e.ETensor?
    ensures Show(Ast(inp, pos, Ex(e)))
            == ["tensor"] + ["["]
               + (AllWords(AstItems(inp, pos + 2, e.vals))
                  + AllWords(AstItems(inp, MItems(inp, pos + 2, e.vals, e.vtrail) + 1, e.dims))) + ["]"]
  {
    hide M, AllWords, ShowFrom, Kid, AstItems, MItems, AstType, AstPat, AstStmt, AstTail, AstField;
    KidsAre(Ast(inp, pos, Ex(e)));
    CatWords(AstItems(inp, pos + 2, e.vals), AstItems(inp, MItems(inp, pos + 2, e.vals, e.vtrail) + 1, e.dims));
  }

  /////////////////////////// control ///////////////////////////

  lemma {:induction false} TellControl(inp: Input, pos: nat, e: ExprForm, sl: Switch) returns (r: Tale)
    requires Worded(inp) && (e.EIf? || e.EWhile? || e.EMatch? || e.EUnsafe? || e.EBlock?)
    requires MExpr(inp, pos, e) >= 0 && WFExpr(e, sl)
    ensures True(inp, r) && r.lo == pos && r.hi == MExpr(inp, pos, e) && r.ts == Show(Ast(inp, pos, Ex(e)))
    decreases e, 2
  {
    hide True, Worded, M, Ast, AllWords, KindText, AstSeq, MSeq, WF, WFStmts, WFArms, Show;
    Signs();
    StatementWords();
    ControlShown(inp, pos, e);
    match e
    case EIf(c, t, els) =>
      r := First(inp, pos, KwIf, "if");
      r := More(inp, r, c, Off);
      r := More(inp, r, t, sl);
      var z := Start(inp, r.hi);
      if !els.Absent? {
        z := First(inp, r.hi, KwElse, "else");
        z := More(inp, z, els, sl);
      }
      r := Join(inp, r, z);
    case EWhile(c, b) =>
      r := First(inp, pos, KwWhile, "while");
      r := More(inp, r, c, Off);
      r := More(inp, r, b, sl);
    case EMatch(c, arms) =>
      r := First(inp, pos, KwMatch, "match");
      r := More(inp, r, c, Off);
      r := TellBraces(inp, r, arms, sl);
    case EUnsafe(st) =>
      r := First(inp, pos, KwUnsafe, "unsafe");
      r := TellBraces(inp, r, st, sl);
    case EBlock(st) =>
      r := Start(inp, pos);
      r := TellBraces(inp, r, st, sl);
  }

  // Statements or arms in braces behind what is told.
  lemma {:induction false} TellBraces(inp: Input, a: Tale, l: Syns, sl: Switch) returns (r: Tale)
    requires Worded(inp) && True(inp, a) && (WFStmts(l, sl) || WFArms(l, sl))
    requires KindAt(inp, a.hi) == LBrace && Expect1(inp, MSeq(inp, a.hi + 1, l), RBrace) >= 0
    ensures True(inp, r) && r.lo == a.lo && r.hi == Expect1(inp, MSeq(inp, a.hi + 1, l), RBrace)
    ensures r.ts == a.ts + ["{"] + AllWords(AstSeq(inp, a.hi + 1, l)) + ["}"]
    decreases l, 7
  {
    hide True, Worded, KindText, AllWords, MSeq, AstSeq, WFStmts, WFArms;
    Signs();
    r := Key(inp, a, LBrace, "{");
    var items := TellSeq(inp, a.hi + 1, l, sl);
    r := Join(inp, r, items);
    r := Key(inp, r, RBrace, "}");
  }

  // The words of a block or of what is made of blocks.
  ghost function ControlWords(inp: Input, pos: nat, e: ExprForm): seq<string> {
    match e
    case EIf(c, t, els) =>
      var q := M(inp, pos + 1, c);
      ["if"] + Show(Ast(inp, pos + 1, c)) + Show(Ast(inp, q, t))
      + (if els.Absent? then [] else ["else"] + Show(Ast(inp, M(inp, q, t) + 1, els)))
    case EWhile(c, b) =>
      ["while"] + Show(Ast(inp, pos + 1, c)) + Show(Ast(inp, M(inp, pos + 1, c), b))
    case EMatch(c, arms) =>
      ["match"] + Show(Ast(inp, pos + 1, c)) + ["{"]
      + AllWords(AstSeq(inp, M(inp, pos + 1, c) + 1, arms)) + ["}"]
    case EUnsafe(st) => ["unsafe"] + ["{"] + AllWords(AstSeq(inp, pos + 2, st)) + ["}"]
    case EBlock(st) => [] + ["{"] + AllWords(AstSeq(inp, pos + 1, st)) + ["}"]
    case _ => []
  }

  lemma ControlShown(inp: Input, pos: nat, e: ExprForm)
    requires e.EIf? || e.EWhile? || e.EMatch? || e.EUnsafe? || e.EBlock?
    ensures Show(Ast(inp, pos, Ex(e))) == ControlWords(inp, pos, e)
  {
    hide M, AllWords, ShowFrom, Kid, AstSeq, AstType, AstPat, AstStmt, AstTail, AstField;
    var x := Ast(inp, pos, Ex(e));
    KidsAre(x);
    if e.EMatch? { MatchKids(inp, pos, e.cond, e.arms); }
    assert [] + ["{"] == ["{"];
  }

  lemma MatchKids(inp: Input, pos: nat, c: Syn, arms: Syns)
    ensures var x := Ast(inp, pos, Ex(EMatch(c, arms)));
            x.Tree? && ShowFrom(x, 1) == AllWords(AstSeq(inp, M(inp, pos + 1, c) + 1, arms))
  {
    hide M, AllWords, ShowFrom, Kid, AstSeq, AstType, AstPat, AstStmt, AstTail, AstField;
    var x := Ast(inp, pos, Ex(EMatch(c, arms)));
    assert x == AstExpr(inp, pos, EndOf(inp, M(inp, pos, Ex(EMatch(c, arms))) - 1), EMatch(c, arms));
    assert x.kids == [Ast(inp, pos + 1, c)] + AstSeq(inp, M(inp, pos + 1, c) + 1, arms);
    KidsBehind(x, Ast(inp, pos + 1, c), AstSeq(inp, M(inp, pos + 1, c) + 1, arms));
  }

  /////////////////////////// arms and statements ///////////////////////////

  lemma {:induction false} TellArm(inp: Input, pos: nat, p: Syn, v: Syn, sep: bool, sl: Switch) returns (r: Tale)
    requires Worded(inp) && M(inp, pos, Ar(p, v, sep)) >= 0 && WF(Ar(p, v, sep), sl)
    ensures True(inp, r) && r.lo == pos && r.hi == M(inp, pos, Ar(p, v, sep))
    ensures r.ts == Show(Ast(inp, pos, Ar(p, v, sep)))
    decreases Ar(p, v, sep), 3
  {
    hide True, Worded, Ast, KindText, Show, MType, MPat, MField, MStmt, MExpr, MTail, WFType, WFPat, WFExpr, WFStmt;
    Signs();
    ArmShown(inp, pos, p, v, sep);
    ArmParts(inp, pos, p, v, sep);
    r := TellSyn(inp, pos, p, sl);
    r := Key(inp, r, FatArrow, "=>");
    r := More(inp, r, v, sl);
    if sep { r := Behind(inp, r); }
  }

  lemma ArmParts(inp: Input, pos: nat, p: Syn, v: Syn, sep: bool)
    requires M(inp, pos, Ar(p, v, sep)) >= 0
    ensures var q := M(inp, pos, p);
            && q >= 0 && KindAt(inp, q) == FatArrow && M(inp, q + 1, v) >= 0
            && M(inp, pos, Ar(p, v, sep)) == (if sep then M(inp, q + 1, v) + 1 else M(inp, q + 1, v))
            && (sep ==> IsDropped(KindAt(inp, M(inp, q + 1, v))))
  {
    hide MType, MPat, MField, MStmt, MExpr, MTail;
  }

  lemma ArmShown(inp: Input, pos: nat, p: Syn, v: Syn, sep: bool)
    ensures Show(Ast(inp, pos, Ar(p, v, sep)))
            == Show(Ast(inp, pos, p)) + ["=>"] + Show(Ast(inp, M(inp, pos, p) + 1, v))
  {
    hide M, ShowFrom, Kid, AstType, AstPat, AstStmt, AstTail, AstField, AstExpr;
    KidsAre(Ast(inp, pos, Ar(p, v, sep)));
  }

  // A regime keyword, or none.
  lemma TellRegime(inp: Input, pos: nat, reg: bool, text: string) returns (r: Tale)
    requires Worded(inp) && MRegime(inp, pos, reg) >= 0 && pos <= |inp.toks|
    ensures True(inp, r) && r.lo == pos && r.hi == MRegime(inp, pos, reg)
    ensures r.ts == RegimeWord(NameRegime(text, RegimeOf(KindAt(inp, pos))))
  {
    hide True, Worded, KindText;
    StatementWords();
    r := Start(inp, pos);
    var k := KindAt(inp, pos);
    if k == KwImm { r := First(inp, pos, KwImm, "imm"); }
    if k == KwMut { r := First(inp, pos, KwMut, "mut"); }
    if k == KwProj { r := First(inp, pos, KwProj, "proj"); }
  }

  lemma {:induction false} TellStmt(inp: Input, pos: nat, s: StmtForm, sl: Switch) returns (r: Tale)
    requires Worded(inp) && MStmt(inp, pos, s) >= 0 && WFStmt(s, sl)
    ensures True(inp, r) && r.lo == pos && r.hi == MStmt(inp, pos, s) && r.ts == Show(Ast(inp, pos, St(s)))
    decreases s, 3
  {
    hide True, Worded, M, Ast, AllWords, KindText, Show, WF, RegimeWord, RegimeOf, LeftAtom, TextOf;
    Signs();
    StatementWords();
    if !s.SLet? { StmtShown(inp, pos, s); }
    match s
    case SItem(e) => r := TellSyn(inp, pos, e, sl);
    case SLet(_, _, _) => r := TellLet(inp, pos, s, sl);
    case SExpr(e) =>
      r := TellSyn(inp, pos, e, sl);
      r := Behind(inp, r);
    case SRet(e) =>
      r := First(inp, pos, KwRet, "ret");
      r := More(inp, r, e, sl);
      r := Key(inp, r, Semi, ";");
    case SBreak =>
      r := First(inp, pos, KwBreak, "break");
      r := Key(inp, r, Semi, ";");
    case SContinue =>
      r := First(inp, pos, KwContinue, "continue");
      r := Key(inp, r, Semi, ";");
    case SFor(reg, it, b) =>
      var n := if reg then pos + 2 else pos + 1;
      r := First(inp, pos, KwFor, "for");
      var g := TellRegime(inp, pos + 1, reg, TokText(inp, n));
      r := Join(inp, r, g);
      r := Text(inp, r);
      r := Key(inp, r, KwIn, "in");
      r := More(inp, r, it, Off);
      r := More(inp, r, b, sl);
  }

  // The words of a statement other than `let`.
  ghost function StmtWords(inp: Input, pos: nat, s: StmtForm): seq<string> {
    match s
    case SItem(e) => Show(Ast(inp, pos, e))
    case SExpr(e) => Show(Ast(inp, pos, e))
    case SRet(e) => ["ret"] + Show(Ast(inp, pos + 1, e)) + [";"]
    case SBreak => ["break"] + [";"]
    case SContinue => ["continue"] + [";"]
    case SFor(reg, it, b) =>
      var n := if reg then pos + 2 else pos + 1;
      ["for"] + RegimeWord(NameRegime(TokText(inp, n), RegimeOf(KindAt(inp, pos + 1)))) + [TokText(inp, n)]
      + ["in"] + Show(Ast(inp, n + 2, it)) + Show(Ast(inp, M(inp, n + 2, it), b))
    case _ => []
  }

  lemma StmtShown(inp: Input, pos: nat, s: StmtForm)
    requires !s.SLet?
    ensures Show(Ast(inp, pos, St(s))) == StmtWords(inp, pos, s)
  {
    hide M, ShowFrom, Kid, AstType, AstPat, AstTail, AstField, AstExpr, RegimeWord, RegimeOf, TextOf;
    var x := Ast(inp, pos, St(s));
    if !s.SItem? && !s.SExpr? { KidsAre(x); }
  }

  lemma {:induction false} TellLet(inp: Input, pos: nat, s: StmtForm, sl: Switch) returns (r: Tale)
    requires Worded(inp) && s.SLet? && MStmt(inp, pos, s) >= 0 && WFStmt(s, sl)
    ensures True(inp, r) && r.lo == pos && r.hi == MStmt(inp, pos, s) && r.ts == Show(Ast(inp, pos, St(s)))
    decreases s, 2
  {
    hide True, Worded, M, MStmt, MRegime, Ast, KindText, Show, WF, RegimeWord, RegimeOf, TextOf;
    Signs();
    StatementWords();
    LetShown(inp, pos, s, sl);
    LetParts(inp, pos, s);
    var n := if s.reg then pos + 2 else pos + 1;
    r := First(inp, pos, KwLet, "let");
    var g := TellRegime(inp, pos + 1, s.reg, TokText(inp, n));
    r := Join(inp, r, g);
    r := Text(inp, r);
    var t := TellOpt(inp, n + 1, Colon, ":", s.ty, sl);
    r := Join(inp, r, t);
    t := TellOpt(inp, t.hi, Eq, "=", s.init, sl);
    r := Join(inp, r, t);
    r := Key(inp, r, Semi, ";");
  }

  // A sign and what follows it, or nothing.
  lemma {:induction false} TellOpt(inp: Input, pos: nat, k: Kind, text: string, s: Syn, sl: Switch) returns (r: Tale)
    requires Worded(inp) && pos <= |inp.toks| && (s.Absent? || WF(s, sl)) && text != "" && KindText(k) == text
             && k != Unknown && k != Eof
    requires s.Absent? || M(inp, Expect1(inp, pos, k), s) >= 0
    ensures True(inp, r) && r.lo == pos && r.hi == if s.Absent? then pos else M(inp, pos + 1, s)
    ensures r.ts == if s.Absent? then [] else [text] + Show(Ast(inp, pos + 1, s))
    decreases s, 6
  {
    hide True, Worded, M, Ast, KindText, Show, WF;
    if s.Absent? {
      r := Start(inp, pos);
    } else {
      r := First(inp, pos, k, text);
      r := More(inp, r, s, sl);
    }
  }

  lemma LetParts(inp: Input, pos: nat, s: StmtForm)
    requires s.SLet? && MStmt(inp, pos, s) >= 0
    ensures var n := if s.reg then pos + 2 else pos + 1;
            var q := if s.ty.Absent? then n + 1 else M(inp, n + 2, s.ty);
            var z := if s.init.Absent? then q else M(inp, q + 1, s.init);
            && KindAt(inp, pos) == KwLet && MRegime(inp, pos + 1, s.reg) == n && KindAt(inp, n) == Identifier
            && (s.ty.Absent? || (KindAt(inp, n + 1) == Colon && q >= 0))
            && (s.init.Absent? || (KindAt(inp, q) == Eq && z >= 0))
            && KindAt(inp, z) == Semi && MStmt(inp, pos, s) == z + 1 && n < |inp.toks|
  {
    hide M, WF, RegimeOf, TextOf;
  }

  lemma LetKids(inp: Input, pos: nat, s: StmtForm)
    requires s.SLet?
    ensures var n := if s.reg then pos + 2 else pos + 1;
            var q := if s.ty.Absent? then n + 1 else M(inp, n + 2, s.ty);
            var x := Ast(inp, pos, St(s));
            && x.Tree? && x.kind == LetStmt && x.payload == NameRegime(TokText(inp, n), RegimeOf(KindAt(inp, pos + 1)))
            && x.kids == (if s.ty.Absent? then [] else [Ast(inp, n + 2, s.ty)])
                         + (if s.init.Absent? then [] else [Ast(inp, q + 1, s.init)])
  {
    hide M, AstType, AstPat, AstTail, AstField, AstExpr, RegimeOf, TextOf;
    var x := Ast(inp, pos, St(s));
    assert x == AstStmt(inp, pos, EndOf(inp, M(inp, pos, St(s)) - 1), s);
  }

  lemma LetShown(inp: Input, pos: nat, s: StmtForm, sl: Switch)
    requires s.SLet? && MStmt(inp, pos, s) >= 0 && WFStmt(s, sl)
    ensures var n := if s.reg then pos + 2 else pos + 1;
            var q := if s.ty.Absent? then n + 1 else M(inp, n + 2, s.ty);
            Show(Ast(inp, pos, St(s)))
            == ["let"] + RegimeWord(NameRegime(TokText(inp, n), RegimeOf(KindAt(inp, pos + 1)))) + [TokText(inp, n)]
               + (if s.ty.Absent? then [] else [":"] + Show(Ast(inp, n + 2, s.ty)))
               + (if s.init.Absent? then [] else ["="] + Show(Ast(inp, q + 1, s.init))) + [";"]
  {
    hide M, Ast, WF, ShowFrom, Kid, RegimeWord, RegimeOf, TextOf, MStmt;
    LetParts(inp, pos, s);
    LetKids(inp, pos, s);
    var n := if s.reg then pos + 2 else pos + 1;
    var q := if s.ty.Absent? then n + 1 else M(inp, n + 2, s.ty);
    if s.ty.Ty? { TypeTree(inp, n + 2, s.ty.t); }
    if s.init.Ex? { ExprTree(inp, q + 1, s.init.e, sl); }
    var x := Ast(inp, pos, St(s));
    KidsAre(x);
    assert ShowLet(x, 0) + ShowLet(x, 1)
        == (if s.ty.Absent? then [] else [":"] + Show(Ast(inp, n + 2, s.ty)))
           + (if s.init.Absent? then [] else ["="] + Show(Ast(inp, q + 1, s.init)));
  }
}
