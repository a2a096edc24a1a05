/** Recovery leaves clean runs alone: for every production, from every position and on any tokens, the
    total function is free of diagnostics exactly where the grammar has the production, and then stops at
    its end with its tree. */
module CleanRuns {
  import opened Tokens
  import opened Trees
  import opened Grammar
  import opened Spelling
  import opened ErrorFree
  import opened Outcomes
  import opened Productions
  import opened Soundness
  import opened NodeKinds
  import opened Pool
  import opened DeclGrammar
  import opened DeclRuns
  import opened Declarations
  import opened Recovery

  /////////////////////////// elements of lists ///////////////////////////

  // The lists that the expression grammar has.
  predicate IsSyntax(e: Elem) { !e.AField? && !e.AVariant? }

  function ListOf(e: Elem): ListKind
    requires IsSyntax(e)
  {
    match e
    case AType => LTypes
    case APat => LPats
    case AFieldPat => LFieldPats
    case AFieldInit => LFieldInits
    case AConst => LDims
  }

  // The lists that only declarations have.
  function ItemOf(e: Elem): DeclItem
    requires !IsSyntax(e)
  {
    if e.AField? then DField else DVariant
  }

  function InnerOf(e: Elem): Inner { if e.AField? then Fields else Variants }

  lemma FoundVariant(inp: Input, pos: nat, e: Elem, sl: Switch, l: ListOut, o: Out)
    requires ItemsFound(inp, pos + 2, e, sl, l) && KindAt(inp, pos) == Identifier
    requires (e.AType? && KindAt(inp, pos + 1) == LParen) || (e.AField? && KindAt(inp, pos + 1) == LBrace)
    requires o.ok == (l.ok && KindAt(inp, l.end) == CloseOf(e))
    requires o.ok ==> o.end == l.end + 1 && o.tree == Node(if e.AType? then EnumVariantTuple else EnumVariantStruct,
                        StartOf(inp, pos), EndOf(inp, l.end), NameRegime(TokText(inp, pos), NoRegime), l.trees)
    ensures Says(o, ReadVariant(inp, pos, sl))
  {
    hide TextOf, AgreesItems, SaysAll, RunComma, ReadItems, ReadVariant;
    LinkVariantWith(inp, pos, sl, l, o);
  }

  // What a call for one element, for the elements behind the first, and for a whole list has to do
  // with the run function or the reading function of the elements.
  ghost predicate ElemFound(inp: Input, pos: nat, e: Elem, sl: Switch, o: Out) {
    if IsSyntax(e) then Agrees(inp, pos, o, RunElem(inp, pos, ClassOf(ListOf(e)), sl))
    else Says(o, ReadOne(inp, pos, ItemOf(e), sl))
  }

  ghost predicate MoreFound(inp: Input, pos: nat, e: Elem, sl: Switch, l: ListOut) {
    if IsSyntax(e) then AgreesMore(inp, pos, l, RunMore(inp, pos, ListOf(e), sl))
    else SaysAll(l, ReadMore(inp, pos, ItemOf(e), sl))
  }

  ghost predicate ItemsFound(inp: Input, pos: nat, e: Elem, sl: Switch, l: ListOut) {
    if IsSyntax(e) then AgreesItems(inp, pos, l, RunComma(inp, pos, ListOf(e), sl))
    else SaysAll(l, ReadItems(inp, pos, ItemOf(e), sl))
  }

  // A failed element fails whatever recovery does.
  lemma FoundFails(inp: Input, pos: nat, e: Elem, sl: Switch, x: Out, o: Out)
    requires ElemFound(inp, pos, e, sl, x) && !x.ok && !o.ok
    ensures ElemFound(inp, pos, e, sl, o)
  {
    hide RunElem, ReadOne, Stands;
  }

  // A list whose first token closes it, and one with elements.
  lemma LinkEmptyComma(inp: Input, pos: nat, e: Elem, sl: Switch, l: ListOut)
    requires l == ListOut(true, pos, []) && (KindAt(inp, pos) == CloseOf(e) || KindAt(inp, pos) == Eof)
    ensures ItemsFound(inp, pos, e, sl, l)
  {
    hide RunItems, ReadOne, ReadMore;
  }

  lemma LinkFullComma(inp: Input, pos: nat, e: Elem, sl: Switch, x: Out, more: ListOut, l: ListOut)
    requires KindAt(inp, pos) != CloseOf(e) && KindAt(inp, pos) != Eof
    requires ElemFound(inp, pos, e, sl, x) && (x.ok ==> MoreFound(inp, x.end, e, sl, more))
    requires l == ListOut(x.ok && more.ok, more.end, [x.tree] + more.trees)
    ensures ItemsFound(inp, pos, e, sl, l)
  {
    hide RunItems, RunElem, RunMore, ReadOne, ReadMore, ReadItems, Stands, MItems, AstItems, MMore, AstMore;
    if IsSyntax(e) {
      LinkItems(inp, pos, ListOf(e), sl, x, more);
      ClosesList(e);
    } else {
      LinkReadItems(inp, pos, ItemOf(e), sl, x, more);
    }
  }

  lemma ClosesList(e: Elem)
    requires IsSyntax(e)
    ensures forall k :: IsStop(ListOf(e), k) == (k == CloseOf(e))
  {
  }

  lemma ElemCases(inp: Input, pos: nat, sl: Switch)
    ensures RunElem(inp, pos, CType, sl) == RunType(inp, pos, sl) && RunElem(inp, pos, CPat, sl) == RunPat(inp, pos, sl)
    ensures RunElem(inp, pos, CFieldPat, sl) == RunField(inp, pos, On, sl)
    ensures RunElem(inp, pos, CFieldInit, sl) == RunField(inp, pos, Off, sl)
    ensures RunElem(inp, pos, CExpr, sl) == RunExpr(inp, pos, 0, sl)
  {
    hide RunType, RunPat, RunField, RunExpr;
  }

  lemma {:induction false} CleanSegs(inp: Input, pos: nat)
    requires pos <= |inp.toks|
    ensures var s := TakeSegs(inp, pos); SegsRead(inp, pos, s.ok, SegsAt(inp, pos), s.end)
    decreases |inp.toks| - pos
  {
    if KindAt(inp, pos) == ColonColon && KindAt(inp, pos + 1) == Identifier { CleanSegs(inp, pos + 2); }
  }

  function SegsAt(inp: Input, pos: nat): nat {
    match RunSegs(inp, pos)
    case SegFail => 0
    case Segs(n, _) => n
  }

  /////////////////////////// comma lists ///////////////////////////

  lemma {:induction false} CleanComma(inp: Input, pos: nat, e: Elem, sl: Switch)
    requires pos <= |inp.toks|
    ensures ItemsFound(inp, pos, e, sl, TakeComma(inp, pos, e, sl))
    decreases |inp.toks| - pos, 8
  {
    hide TakeElem, TakeMore, ItemsFound, ElemFound, MoreFound;
    if KindAt(inp, pos) == CloseOf(e) || KindAt(inp, pos) == Eof {
      LinkEmptyComma(inp, pos, e, sl, None(pos));
    } else {
      var x := TakeElem(inp, pos, e, sl);
      CleanElem(inp, pos, e, sl);
      CleanMore(inp, x.end, e, sl);
      LinkFullComma(inp, pos, e, sl, x, TakeMore(inp, x.end, e, sl), TakeComma(inp, pos, e, sl));
    }
  }

  lemma {:induction false} CleanMore(inp: Input, pos: nat, e: Elem, sl: Switch)
    requires pos <= |inp.toks|
    ensures MoreFound(inp, pos, e, sl, TakeMore(inp, pos, e, sl))
    decreases |inp.toks| - pos, 7
  {
    hide TakeElem, MoreFound, ElemFound;
    var go := KindAt(inp, pos) == Comma && KindAt(inp, pos + 1) != CloseOf(e);
    var x := if go then TakeElem(inp, pos + 1, e, sl) else Out(true, pos, NullTree);
    if go {
      CleanElem(inp, pos + 1, e, sl);
      CleanMore(inp, x.end, e, sl);
    }
    if IsSyntax(e) { LinkMore(inp, pos, e, sl, x); } else { LinkMoreParts(inp, pos, e, sl, x); }
  }

  lemma LinkMore(inp: Input, pos: nat, e: Elem, sl: Switch, x: Out)
    requires pos <= |inp.toks| && IsSyntax(e)
    requires KindAt(inp, pos) == Comma && KindAt(inp, pos + 1) != CloseOf(e) ==>
             && x == TakeElem(inp, pos + 1, e, sl) && ElemFound(inp, pos + 1, e, sl, x)
             && MoreFound(inp, x.end, e, sl, TakeMore(inp, x.end, e, sl))
    ensures MoreFound(inp, pos, e, sl, TakeMore(inp, pos, e, sl))
  {
    hide TakeElem, RunElem, M, Ast, IsStop;
    ClosesList(e);
  }

  lemma LinkMoreParts(inp: Input, pos: nat, e: Elem, sl: Switch, x: Out)
    requires pos <= |inp.toks| && !IsSyntax(e)
    requires KindAt(inp, pos) == Comma && KindAt(inp, pos + 1) != CloseOf(e) ==>
             && x == TakeElem(inp, pos + 1, e, sl) && ElemFound(inp, pos + 1, e, sl, x)
             && MoreFound(inp, x.end, e, sl, TakeMore(inp, x.end, e, sl))
    ensures MoreFound(inp, pos, e, sl, TakeMore(inp, pos, e, sl))
  {
    hide TakeElem, ReadOne, ReadMore;
    MoreIs(inp, pos, ItemOf(e), sl);
  }

  lemma {:induction false} CleanElem(inp: Input, pos: nat, e: Elem, sl: Switch)
    requires pos <= |inp.toks|
    ensures ElemFound(inp, pos, e, sl, TakeElem(inp, pos, e, sl))
    decreases |inp.toks| - pos, 6
  {
    hide TakeOne, ElemFound, FirstOf;
    CleanOne(inp, pos, e, sl);
    var x := TakeOne(inp, pos, e, sl);
    if !x.ok { FoundFails(inp, pos, e, sl, x, TakeElem(inp, pos, e, sl)); }
  }

  lemma {:induction false} CleanOne(inp: Input, pos: nat, e: Elem, sl: Switch)
    requires pos <= |inp.toks|
    ensures ElemFound(inp, pos, e, sl, TakeOne(inp, pos, e, sl))
    decreases |inp.toks| - pos, 5, 1
  {
    hide TakeType, TakePat, TakeFieldPat, TakeFieldInit, TakeExpr, TakeField, TakeVariant, ReadOne, ReadField,
         ReadVariant, RunElem, Says, Agrees;
    if IsSyntax(e) {
      CleanSyntax(inp, pos, e, sl);
    } else {
      OneIs(inp, pos, sl);
      if e.AField? { CleanField(inp, pos, sl); } else { CleanVariant(inp, pos, sl); }
    }
  }

  lemma {:induction false} CleanSyntax(inp: Input, pos: nat, e: Elem, sl: Switch)
    requires pos <= |inp.toks| && IsSyntax(e)
    ensures Agrees(inp, pos, TakeOne(inp, pos, e, sl), RunElem(inp, pos, ClassOf(ListOf(e)), sl))
    decreases |inp.toks| - pos, 5, 0
  {
    hide TakeType, TakePat, TakeFieldPat, TakeFieldInit, TakeExpr, TakeField, TakeVariant, RunElem, RunType, RunPat,
         RunField, RunExpr, Agrees;
    ElemCases(inp, pos, sl);
    match e
    case AType => CleanType(inp, pos, sl);
    case APat => CleanPat(inp, pos, sl);
    case AFieldPat => CleanFieldPat(inp, pos, sl);
    case AFieldInit => CleanFieldInit(inp, pos, sl);
    case AConst => CleanExpr(inp, pos, 0, sl);
  }

  lemma {:induction false} CleanFieldPat(inp: Input, pos: nat, sl: Switch)
    requires pos <= |inp.toks|
    ensures Agrees(inp, pos, TakeFieldPat(inp, pos, sl), RunField(inp, pos, On, sl))
    decreases |inp.toks| - pos, 0
  {
    hide TakePat, RunPat, RunField, Agrees, TextOf;
    var o := TakeFieldPat(inp, pos, sl);
    if KindAt(inp, pos) != Identifier {
      FieldFails(inp, pos, On, sl);
      FailAgrees(inp, pos, o, RunField(inp, pos, On, sl));
    } else {
      var v := Out(true, 0, NullTree);
      if KindAt(inp, pos + 1) == Colon {
        CleanPat(inp, pos + 2, sl);
        v := TakePat(inp, pos + 2, sl);
      }
      LinkFieldPat(inp, pos, sl, v, o);
    }
  }

  lemma {:induction false} CleanFieldInit(inp: Input, pos: nat, sl: Switch)
    requires pos <= |inp.toks|
    ensures Agrees(inp, pos, TakeFieldInit(inp, pos, sl), RunField(inp, pos, Off, sl))
    decreases |inp.toks| - pos, 0
  {
    hide TakeExpr, RunExpr, RunField, Agrees, TextOf;
    var o := TakeFieldInit(inp, pos, sl);
    if KindAt(inp, pos) != Identifier {
      FieldFails(inp, pos, Off, sl);
      FailAgrees(inp, pos, o, RunField(inp, pos, Off, sl));
    } else {
      var v := Out(true, 0, NullTree);
      if KindAt(inp, pos + 1) == Colon {
        CleanExpr(inp, pos + 2, 0, sl);
        v := TakeExpr(inp, pos + 2, 0, sl);
      }
      LinkFieldInit(inp, pos, sl, v, o);
    }
  }

  lemma {:induction false} CleanMoreExprs(inp: Input, pos: nat, lk: ListKind)
    requires pos <= |inp.toks| && ClassOf(lk) == CExpr
    ensures AgreesMore(inp, pos, TakeMoreExprs(inp, pos, lk), RunMore(inp, pos, lk, On))
    decreases |inp.toks| - pos, 4
  {
    hide TakeExpr, RunExpr, M, Ast, IsStop;
    if KindAt(inp, pos) == Comma && !IsStop(lk, KindAt(inp, pos + 1)) {
      CleanExpr(inp, pos + 1, 0, On);
      CleanMoreExprs(inp, TakeExpr(inp, pos + 1, 0, On).end, lk);
      ElemCases(inp, pos + 1, On);
    }
  }

  lemma {:induction false} CleanExprItems(inp: Input, pos: nat, lk: ListKind)
    requires pos <= |inp.toks| && ClassOf(lk) == CExpr
    ensures AgreesItems(inp, pos, TakeExprItems(inp, pos, lk), RunItems(inp, pos, lk, On))
    decreases |inp.toks| - pos, 5
  {
    hide TakeExpr, TakeMoreExprs, RunExpr, RunElem, RunMore, RunItems, AgreesMore, AgreesItems, Agrees;
    var x := TakeExpr(inp, pos, 0, On);
    CleanExpr(inp, pos, 0, On);
    CleanMoreExprs(inp, x.end, lk);
    ElemCases(inp, pos, On);
    LinkItems(inp, pos, lk, On, x, TakeMoreExprs(inp, x.end, lk));
  }

  /////////////////////////// expressions ///////////////////////////

  lemma {:induction false} CleanExpr(inp: Input, pos: nat, m: int, sl: Switch)
    requires pos <= |inp.toks| && m >= 0
    ensures Agrees(inp, pos, TakeExpr(inp, pos, m, sl), RunExpr(inp, pos, m, sl))
    decreases |inp.toks| - pos, 3
  {
    hide TakePrefix, TakeOps, RunPrefix, RunLoop, M, Ast;
    CleanPrefix(inp, pos, sl);
    var x := TakePrefix(inp, pos, sl);
    if x.ok { CleanOps(inp, pos, RunPrefix(inp, pos, sl).syn, x.end, x.tree, m, sl); }
  }

  // What continues an expression that began at `start`.
  lemma {:induction false} CleanOps(inp: Input, start: nat, s: Syn, pos: nat, t: Tree, m: int, sl: Switch)
    requires pos <= |inp.toks| && m >= 0 && Stands(inp, start, s, pos, t)
    ensures Continues(inp, start, TakeOps(inp, pos, t, m, sl), RunLoop(inp, pos, m, sl, s))
    decreases |inp.toks| - pos, 2
  {
    hide TakePostfix, TakeExpr, TakeOps, RunPostfix, RunLoop, RunExpr, InfixBindingPower, Agrees, Stands,
         IsErrorTree;
    CleanPostfix(inp, start, s, pos, t, sl);
    var p := TakePostfix(inp, pos, t, sl);
    var k := KindAt(inp, p.end);
    OpsTurn(inp, pos, t, m, sl);
    LoopStep(inp, pos, m, sl, s);
    OperatorThere(k);
    if LeftPower(k) >= m {
      CleanExpr(inp, p.end + 1, RightPower(k), sl);
      var q := TakeExpr(inp, p.end + 1, RightPower(k), sl);
      ExprKind(inp, p.end + 1, RightPower(k), sl, q);
      AgreesEnd(inp, p.end + 1, q, RunExpr(inp, p.end + 1, RightPower(k), sl));
      if p.ok && q.ok {
        var lhs, rhs := RunPostfix(inp, pos, sl, s).syn, RunExpr(inp, p.end + 1, RightPower(k), sl).syn;
        StandsInfix(inp, start, lhs, k, rhs, p, q);
        CleanOps(inp, start, Ex(EBin(lhs, k, rhs)), q.end, Infix(p.tree, k, q.tree), m, sl);
      }
    }
  }

  lemma AgreesEnd(inp: Input, pos: nat, o: Out, r: Res)
    requires Agrees(inp, pos, o, r)
    ensures o.ok == r.Ok? && (o.ok ==> o.end == r.end && Stands(inp, pos, r.syn, o.end, o.tree))
  {
    hide Stands;
  }

  lemma StandsInfix(inp: Input, start: nat, lhs: Syn, k: Kind, rhs: Syn, p: Out, q: Out)
    requires Stands(inp, start, lhs, p.end, p.tree) && KindAt(inp, p.end) == k && k != Eof
    requires Stands(inp, p.end + 1, rhs, q.end, q.tree)
    ensures Stands(inp, start, Ex(EBin(lhs, k, rhs)), q.end, Infix(p.tree, k, q.tree))
  {
    hide M, Ast;
    StandsEx(inp, start, EBin(lhs, k, rhs), q.end, Infix(p.tree, k, q.tree));
  }

  // A clean expression or type is no error node.
  lemma ExprKind(inp: Input, pos: nat, m: int, sl: Switch, o: Out)
    requires Agrees(inp, pos, o, RunExpr(inp, pos, m, sl)) && m >= 0
    ensures o.ok ==> !IsErrorTree(o.tree)
  {
    hide RunExpr, M, Ast, WF, Follow, LeftOk;
    if o.ok {
      SoundExpr(inp, pos, m, sl);
      var s := RunExpr(inp, pos, m, sl).syn;
      ExprTree(inp, pos, s.e, sl);
    }
  }

  lemma TypeKind(inp: Input, pos: nat, sl: Switch, o: Out)
    requires Agrees(inp, pos, o, RunType(inp, pos, sl))
    ensures o.ok ==> !IsErrorTree(o.tree)
  {
    hide RunType, M, Ast;
    if o.ok {
      TypePresent(inp, pos, sl);
      TypeTree(inp, pos, RunType(inp, pos, sl).syn.t);
    }
  }

  // The comma lists of the expression grammar.
  lemma {:induction false} CleanList(inp: Input, pos: nat, e: Elem, sl: Switch)
    requires pos <= |inp.toks| && IsSyntax(e)
    ensures AgreesItems(inp, pos, TakeComma(inp, pos, e, sl), RunComma(inp, pos, ListOf(e), sl))
    decreases |inp.toks| - pos, 9
  {
    hide TakeComma, RunComma, AgreesItems;
    CleanComma(inp, pos, e, sl);
  }

  lemma {:induction false} CleanPrefix(inp: Input, pos: nat, sl: Switch)
    requires pos <= |inp.toks|
    ensures Agrees(inp, pos, TakePrefix(inp, pos, sl), RunPrefix(inp, pos, sl))
    decreases |inp.toks| - pos, 2
  {
    hide TakeName, TakeParen, TakeArray, TakeIf, TakeWhile, TakeMatch, TakeUnsafe, TakeBlock, TakeTensor, TakeUnary,
         RunPrefix, RunNameExpr, RunParen, RunArray, RunIf, RunWhile, RunMatch, RunUnsafe, RunBlock, RunTensor,
         RunUnary, Stands, TextOf;
    PrefixCases(inp, pos, sl);
    var k := KindAt(inp, pos);
    if IsLiteral(k) { LinkLiteral(inp, pos, sl); }
    else if k == Identifier { CleanName(inp, pos, sl); }
    else if k == LParen { CleanParen(inp, pos); }
    else if k == LSquare { CleanArray(inp, pos); }
    else if k == KwIf { CleanIf(inp, pos, sl); }
    else if k == KwWhile { CleanWhile(inp, pos, sl); }
    else if k == KwMatch { CleanMatch(inp, pos, sl); }
    else if k == KwUnsafe { CleanUnsafe(inp, pos, sl); }
    else if k == LBrace { CleanBlock(inp, pos, sl); }
    else if k == KwTensor { CleanTensor(inp, pos, sl); }
    else if IsPrefixOp(k) { CleanUnary(inp, pos, sl); }
  }

  lemma {:induction false} CleanName(inp: Input, pos: nat, sl: Switch)
    requires pos <= |inp.toks| && KindAt(inp, pos) == Identifier
    ensures Agrees(inp, pos, TakeName(inp, pos, sl), RunNameExpr(inp, pos, sl))
    decreases |inp.toks| - pos, 1
  {
    hide TakeSegs, TakeComma, RunNameExpr, RunComma, RunSegs, MSegs, TextOf, Agrees, AgreesItems, SegsAt;
    var s, n, o := TakeSegs(inp, pos + 1), SegsAt(inp, pos + 1), TakeName(inp, pos, sl);
    CleanSegs(inp, pos + 1);
    SegsLong(inp, pos + 1);
    if sl.On? && KindAt(inp, s.end) == LBrace && s.ok {
      var l := TakeComma(inp, s.end + 1, AFieldInit, On);
      CleanList(inp, s.end + 1, AFieldInit, On);
      LinkStructLit(inp, pos, n, s.end, l, o.ok, o.end, o.tree);
    } else {
      LinkName(inp, pos, sl, s.ok, n, o.end, o.tree);
    }
  }

  // A clean path has segments exactly when it goes on behind its first name.
  lemma SegsLong(inp: Input, pos: nat)
    requires pos <= |inp.toks|
    ensures var s := TakeSegs(inp, pos); s.ok ==> (s.end > pos <==> SegsAt(inp, pos) > 0)
  {
    CleanSegs(inp, pos);
  }

  lemma {:induction false} CleanParen(inp: Input, pos: nat)
    requires pos <= |inp.toks| && KindAt(inp, pos) == LParen
    ensures Agrees(inp, pos, TakeParen(inp, pos), RunParen(inp, pos))
    decreases |inp.toks| - pos, 1
  {
    hide TakeExpr, TakeMoreExprs, RunParen, RunExpr, RunMore, Agrees, AgreesMore;
    var none, o := ListOut(true, 0, []), TakeParen(inp, pos);
    if KindAt(inp, pos + 1) == RParen {
      LinkParen(inp, pos, o, none, o);
    } else {
      var x := TakeExpr(inp, pos + 1, 0, On);
      CleanExpr(inp, pos + 1, 0, On);
      if KindAt(inp, x.end) == Comma {
        CleanMoreExprs(inp, x.end, LTuple);
        LinkParen(inp, pos, x, TakeMoreExprs(inp, x.end, LTuple), o);
      } else {
        LinkParen(inp, pos, x, none, o);
      }
    }
  }

  lemma {:induction false} CleanArray(inp: Input, pos: nat)
    requires pos <= |inp.toks| && KindAt(inp, pos) == LSquare
    ensures Agrees(inp, pos, TakeArray(inp, pos), RunArray(inp, pos))
    decreases |inp.toks| - pos, 1
  {
    hide TakeExpr, TakeMoreExprs, RunArray, RunExpr, RunMore, Agrees, AgreesMore;
    var o := TakeArray(inp, pos);
    if KindAt(inp, pos + 1) == RSquare {
      LinkArrayEmpty(inp, pos);
    } else {
      var x := TakeExpr(inp, pos + 1, 0, On);
      CleanExpr(inp, pos + 1, 0, On);
      if KindAt(inp, x.end) == Semi {
        CleanExpr(inp, x.end + 1, 0, On);
        LinkArrayRepeat(inp, pos, x, TakeExpr(inp, x.end + 1, 0, On), o);
      } else {
        CleanMoreExprs(inp, x.end, LArray);
        LinkArrayList(inp, pos, x, TakeMoreExprs(inp, x.end, LArray), o);
      }
    }
  }

  lemma {:induction false} CleanUnary(inp: Input, pos: nat, sl: Switch)
    requires pos <= |inp.toks| && IsPrefixOp(KindAt(inp, pos))
    ensures Agrees(inp, pos, TakeUnary(inp, pos, sl), RunUnary(inp, pos, sl))
    decreases |inp.toks| - pos, 1
  {
    hide TakeExpr, RunUnary, RunExpr, Agrees;
    var k, o := KindAt(inp, pos), TakeUnary(inp, pos, sl);
    var x := TakeExpr(inp, pos + 1, PrefixBindingPower(k), sl);
    CleanExpr(inp, pos + 1, PrefixBindingPower(k), sl);
    if k == Star && KindAt(inp, x.end) == Eq {
      CleanExpr(inp, x.end + 1, 0, sl);
      LinkProj(inp, pos, sl, x, TakeExpr(inp, x.end + 1, 0, sl), o);
    } else {
      LinkUnary(inp, pos, sl, x, o);
    }
  }

  lemma {:induction false} CleanTensor(inp: Input, pos: nat, sl: Switch)
    requires pos <= |inp.toks| && KindAt(inp, pos) == KwTensor
    ensures Agrees(inp, pos, TakeTensor(inp, pos, sl), RunTensor(inp, pos, sl))
    decreases |inp.toks| - pos, 1
  {
    hide TakeExprItems, TakeComma, RunTensor, RunItems, RunComma, Agrees, AgreesItems;
    var vs := TakeExprItems(inp, Past(inp, pos + 1, LSquare), LTensorVals);
    CleanExprItems(inp, Past(inp, pos + 1, LSquare), LTensorVals);
    var q := Past(inp, vs.end, Semi);
    CleanList(inp, q, AConst, sl);
    LinkTensor(inp, pos, sl, vs, TakeComma(inp, q, AConst, sl), TakeTensor(inp, pos, sl));
  }

  /////////////////////////// postfix operators ///////////////////////////

  lemma {:induction false} CleanPostfix(inp: Input, start: nat, s: Syn, pos: nat, t: Tree, sl: Switch)
    requires pos <= |inp.toks| && Stands(inp, start, s, pos, t)
    ensures Continues(inp, start, TakePostfix(inp, pos, t, sl), RunPostfix(inp, pos, sl, s))
    decreases |inp.toks| - pos, 1
  {
    hide TakePostfixOp, RunPostfix1, IsPostfix, Stands;
    if IsPostfix(KindAt(inp, pos)) {
      CleanPostfixOp(inp, start, s, pos, t, sl);
      var x := TakePostfixOp(inp, pos, t, sl);
      if x.ok { CleanPostfix(inp, start, RunPostfix1(inp, pos, sl, s).syn, x.end, x.tree, sl); }
    }
  }

  lemma {:induction false} CleanPostfixOp(inp: Input, start: nat, s: Syn, pos: nat, t: Tree, sl: Switch)
    requires pos <= |inp.toks| && Stands(inp, start, s, pos, t) && IsPostfix(KindAt(inp, pos))
    ensures Continues(inp, start, TakePostfixOp(inp, pos, t, sl), RunPostfix1(inp, pos, sl, s))
    decreases |inp.toks| - pos, 0
  {
    hide TakeCall, TakeDot, TakeIndex, TakeType, RunCall, RunDot, RunIndex, RunCast, RunType, Stands, Agrees;
    var k, b := KindAt(inp, pos), Out(true, pos, t);
    if k == LParen { CleanCall(inp, start, s, pos, t); }
    else if k == Dot { CleanDot(inp, start, s, pos, t); }
    else if k == LSquare { CleanIndex(inp, start, s, pos, t); }
    else if k == Question { LinkTry(inp, start, s, b, TakePostfixOp(inp, pos, t, sl).tree); }
    else {
      CleanType(inp, pos + 1, sl);
      LinkCast(inp, start, sl, s, b, TakeType(inp, pos + 1, sl), TakePostfixOp(inp, pos, t, sl));
    }
  }

  lemma {:induction false} CleanCall(inp: Input, start: nat, s: Syn, pos: nat, t: Tree)
    requires pos <= |inp.toks| && Stands(inp, start, s, pos, t) && KindAt(inp, pos) == LParen
    ensures Continues(inp, start, TakeCall(inp, pos, t), RunCall(inp, pos + 1, s))
    decreases |inp.toks| - pos - 1, 7
  {
    hide TakeExprItems, RunCall, RunArgs, RunItems, Stands, AgreesItems, Continues;
    var l := if KindAt(inp, pos + 1) == RParen then None(pos + 1) else TakeExprItems(inp, pos + 1, LArgs);
    if KindAt(inp, pos + 1) != RParen { CleanExprItems(inp, pos + 1, LArgs); }
    LinkArgs(inp, pos + 1, l);
    LinkCall(inp, start, s, Out(true, pos, t), l, TakeArgs(inp, pos).tree, TakeCall(inp, pos, t));
  }

  lemma {:induction false} CleanIndex(inp: Input, start: nat, s: Syn, pos: nat, t: Tree)
    requires pos <= |inp.toks| && Stands(inp, start, s, pos, t) && KindAt(inp, pos) == LSquare
    ensures Continues(inp, start, TakeIndex(inp, pos, t), RunIndex(inp, pos + 1, s))
    decreases |inp.toks| - pos - 1, 7
  {
    hide TakeExprItems, RunIndex, RunItems, Stands, AgreesItems, Continues;
    CleanExprItems(inp, pos + 1, LIndex);
    LinkIndex(inp, start, s, Out(true, pos, t), TakeExprItems(inp, pos + 1, LIndex), TakeIndex(inp, pos, t));
  }

  lemma CleanDot(inp: Input, start: nat, s: Syn, pos: nat, t: Tree)
    requires pos <= |inp.toks| && Stands(inp, start, s, pos, t) && KindAt(inp, pos) == Dot
    ensures Continues(inp, start, TakeDot(inp, pos, t), RunDot(inp, pos + 1, s))
  {
    hide RunDot, Stands, FloatSplit, TextOf;
    var k, b, o := KindAt(inp, pos + 1), Out(true, pos, t), TakeDot(inp, pos, t);
    var split := FloatSplit(TokText(inp, pos + 1));
    if k == IntegerLiteral { LinkTupleIndex(inp, start, s, b, o); }
    else if k == FloatLiteral && !split.NoSplit? {
      LinkFloatIndex(inp, start, s, b, o,
                     Node(TupleIndexExpr, SpanOf(t).start, EndOf(inp, pos + 1), Name(split.whole), [t]));
    } else if k == Identifier { LinkField(inp, start, s, b, o); }
    else { DotFails(inp, pos + 1, s); }
  }

  /////////////////////////// blocks and control flow ///////////////////////////

  lemma {:induction false} CleanStmts(inp: Input, pos: nat, sl: Switch)
    requires pos <= |inp.toks|
    ensures AgreesSeq(inp, pos, TakeStmts(inp, pos, sl), RunStmts(inp, pos, sl))
    decreases |inp.toks| - pos, 5
  {
    hide TakeStmt, RunStmt, M, Ast;
    if KindAt(inp, pos) != RBrace && KindAt(inp, pos) != Eof {
      CleanStmt(inp, pos, sl);
      CleanStmts(inp, TakeStmt(inp, pos, sl).end, sl);
    }
  }

  lemma {:induction false} CleanBlock(inp: Input, pos: nat, sl: Switch)
    requires pos <= |inp.toks|
    ensures Agrees(inp, pos, TakeBlock(inp, pos, sl), RunBlock(inp, pos, sl))
    decreases |inp.toks| - pos, if KindAt(inp, pos) == LBrace then 1 else 6
  {
    hide TakeStmts, RunBlock, RunStmts, Agrees, AgreesSeq;
    CleanStmts(inp, Past(inp, pos, LBrace), sl);
    LinkBlock(inp, pos, sl, TakeStmts(inp, Past(inp, pos, LBrace), sl), TakeBlock(inp, pos, sl));
  }

  lemma {:induction false} CleanUnsafe(inp: Input, pos: nat, sl: Switch)
    requires pos <= |inp.toks| && KindAt(inp, pos) == KwUnsafe
    ensures Agrees(inp, pos, TakeUnsafe(inp, pos, sl), RunUnsafe(inp, pos, sl))
    decreases |inp.toks| - pos, 1
  {
    hide TakeStmts, RunUnsafe, RunStmts, Agrees, AgreesSeq;
    CleanStmts(inp, Past(inp, pos + 1, LBrace), sl);
    LinkUnsafe(inp, pos, sl, TakeStmts(inp, Past(inp, pos + 1, LBrace), sl), TakeUnsafe(inp, pos, sl));
  }

  lemma {:induction false} CleanWhile(inp: Input, pos: nat, sl: Switch)
    requires pos <= |inp.toks| && KindAt(inp, pos) == KwWhile
    ensures Agrees(inp, pos, TakeWhile(inp, pos, sl), RunWhile(inp, pos, sl))
    decreases |inp.toks| - pos, 1
  {
    hide TakeExpr, TakeBlock, RunWhile, RunExpr, RunBlock, Agrees;
    var x := TakeExpr(inp, pos + 1, 0, Off);
    CleanExpr(inp, pos + 1, 0, Off);
    CleanBlock(inp, x.end, sl);
    LinkWhile(inp, pos, sl, x, TakeBlock(inp, x.end, sl), TakeWhile(inp, pos, sl));
  }

  lemma {:induction false} CleanElse(inp: Input, pos: nat, sl: Switch)
    requires pos <= |inp.toks|
    ensures Agrees(inp, pos, if KindAt(inp, pos) == KwIf then TakeIf(inp, pos, sl) else TakeBlock(inp, pos, sl),
                   RunElse(inp, pos, sl))
    decreases |inp.toks| - pos, 7
  {
    hide TakeIf, TakeBlock, RunElse, RunIf, RunBlock, Agrees;
    ElsePresent(inp, pos, sl);
    if KindAt(inp, pos) == KwIf { CleanIf(inp, pos, sl); } else { CleanBlock(inp, pos, sl); }
  }

  lemma {:induction false} CleanIf(inp: Input, pos: nat, sl: Switch)
    requires pos <= |inp.toks| && KindAt(inp, pos) == KwIf
    ensures Agrees(inp, pos, TakeIf(inp, pos, sl), RunIf(inp, pos, sl))
    decreases |inp.toks| - pos, 1
  {
    hide TakeExpr, TakeBlock, RunIf, RunExpr, RunBlock, RunElse, Agrees;
    var x := TakeExpr(inp, pos + 1, 0, Off);
    CleanExpr(inp, pos + 1, 0, Off);
    var y := TakeBlock(inp, x.end, sl);
    CleanBlock(inp, x.end, sl);
    var z := y;
    if KindAt(inp, y.end) == KwElse {
      CleanElse(inp, y.end + 1, sl);
      z := if KindAt(inp, y.end + 1) == KwIf then TakeIf(inp, y.end + 1, sl) else TakeBlock(inp, y.end + 1, sl);
    }
    IfIs(inp, pos, sl, x, y, z);
    LinkIf(inp, pos, sl, x, y, z, TakeIf(inp, pos, sl));
  }

  lemma IfIs(inp: Input, pos: nat, sl: Switch, x: Out, y: Out, z: Out)
    requires pos <= |inp.toks| && KindAt(inp, pos) == KwIf
    requires x == TakeExpr(inp, pos + 1, 0, Off) && y == TakeBlock(inp, x.end, sl)
    requires KindAt(inp, y.end) == KwElse ==>
             z == if KindAt(inp, y.end + 1) == KwIf then TakeIf(inp, y.end + 1, sl) else TakeBlock(inp, y.end + 1, sl)
    ensures var w, kids := if KindAt(inp, y.end) == KwElse then z.end else y.end, [x.tree, y.tree];
            TakeIf(inp, pos, sl)
            == Out(x.ok && y.ok && (KindAt(inp, y.end) == KwElse ==> z.ok), w,
                   Node(IfExpr, StartOf(inp, pos), PrevEnd(inp, w), Zero,
                        if KindAt(inp, y.end) == KwElse then kids + [z.tree] else kids))
  {
    hide TakeExpr, TakeBlock;
  }

  lemma {:induction false} CleanMatch(inp: Input, pos: nat, sl: Switch)
    requires pos <= |inp.toks| && KindAt(inp, pos) == KwMatch
    ensures Agrees(inp, pos, TakeMatch(inp, pos, sl), RunMatch(inp, pos, sl))
    decreases |inp.toks| - pos, 1
  {
    hide TakeExpr, TakeArms, RunMatch, RunExpr, RunArms, Agrees, AgreesSeq;
    var x := TakeExpr(inp, pos + 1, 0, Off);
    CleanExpr(inp, pos + 1, 0, Off);
    var q := Past(inp, x.end, LBrace);
    CleanArms(inp, q, sl);
    LinkMatch(inp, pos, sl, x, TakeArms(inp, q, sl), TakeMatch(inp, pos, sl));
  }

  lemma {:induction false} CleanArms(inp: Input, pos: nat, sl: Switch)
    requires pos <= |inp.toks|
    ensures AgreesSeq(inp, pos, TakeArms(inp, pos, sl), RunArms(inp, pos, sl))
    decreases |inp.toks| - pos, 5
  {
    hide TakeArm, RunArm, M, Ast;
    if KindAt(inp, pos) != RBrace && KindAt(inp, pos) != Eof {
      CleanArm(inp, pos, sl);
      CleanArms(inp, TakeArm(inp, pos, sl).end, sl);
    }
  }

  lemma {:induction false} CleanArm(inp: Input, pos: nat, sl: Switch)
    requires pos < |inp.toks|
    ensures Agrees(inp, pos, TakeArm(inp, pos, sl), RunArm(inp, pos, sl))
    decreases |inp.toks| - pos, 4
  {
    hide TakePat, TakeExpr, RunArm, RunPat, RunExpr, Agrees;
    var p := TakePat(inp, pos, sl);
    CleanPat(inp, pos, sl);
    var q := Past(inp, p.end, FatArrow);
    CleanExpr(inp, q, 0, sl);
    LinkArm(inp, pos, sl, p, TakeExpr(inp, q, 0, sl), TakeArm(inp, pos, sl));
  }

  /////////////////////////// statements ///////////////////////////

  lemma {:induction false} CleanStmt(inp: Input, pos: nat, sl: Switch)
    requires pos <= |inp.toks|
    ensures Agrees(inp, pos, TakeStmt(inp, pos, sl), RunStmt(inp, pos, sl))
    decreases |inp.toks| - pos, 4
  {
    hide TakeLet, TakeFor, TakeRet, TakeIf, TakeWhile, TakeBlock, TakeUnsafe, TakeExpr, RunStmt, RunLet, RunFor,
         RunRet, RunIf, RunWhile, RunBlock, RunUnsafe, RunExpr, Stands, SyncFrom, AsItem;
    StmtCases(inp, pos, sl);
    ItemsPresent(inp, pos, sl);
    var k, o := KindAt(inp, pos), TakeStmt(inp, pos, sl);
    if k == KwLet { CleanLet(inp, pos, sl); }
    else if k == KwFor { CleanFor(inp, pos, sl); }
    else if k == KwRet { CleanRet(inp, pos, sl); }
    else if k == KwBreak || k == KwContinue { LinkBreak(inp, pos, sl, o); }
    else if k == KwIf { CleanIf(inp, pos, sl); LinkItem(inp, pos, o, RunIf(inp, pos, sl)); }
    else if k == KwWhile { CleanWhile(inp, pos, sl); LinkItem(inp, pos, o, RunWhile(inp, pos, sl)); }
    else if k == LBrace { CleanBlock(inp, pos, sl); LinkItem(inp, pos, o, RunBlock(inp, pos, sl)); }
    else if k == KwUnsafe { CleanUnsafe(inp, pos, sl); LinkItem(inp, pos, o, RunUnsafe(inp, pos, sl)); }
    else if IsExprStmtStart(k) {
      var x := TakeExpr(inp, pos, 0, sl);
      CleanExpr(inp, pos, 0, sl);
      ExprKind(inp, pos, 0, sl, x);
      LinkExprStmt(inp, pos, sl, x, o);
    }
  }

  lemma {:induction false} CleanRet(inp: Input, pos: nat, sl: Switch)
    requires pos <= |inp.toks| && KindAt(inp, pos) == KwRet
    ensures Agrees(inp, pos, TakeRet(inp, pos, sl), RunRet(inp, pos, sl))
    decreases |inp.toks| - pos, 3
  {
    hide TakeExpr, RunRet, RunExpr, Agrees;
    CleanExpr(inp, pos + 1, 0, sl);
    LinkRet(inp, pos, sl, TakeExpr(inp, pos + 1, 0, sl), TakeRet(inp, pos, sl));
  }

  lemma {:induction false} CleanFor(inp: Input, pos: nat, sl: Switch)
    requires pos <= |inp.toks| && KindAt(inp, pos) == KwFor
    ensures Agrees(inp, pos, TakeFor(inp, pos, sl), RunFor(inp, pos, sl))
    decreases |inp.toks| - pos, 3
  {
    hide TakeExpr, TakeBlock, RunFor, RunExpr, RunBlock, Agrees, TextOf, RegimeOf;
    var q := Past(inp, Past(inp, NameAt(inp, pos), Identifier), KwIn);
    var x := TakeExpr(inp, q, 0, Off);
    CleanExpr(inp, q, 0, Off);
    CleanBlock(inp, x.end, sl);
    LinkFor(inp, pos, sl, x, TakeBlock(inp, x.end, sl), TakeFor(inp, pos, sl));
  }

  lemma {:induction false} CleanOptType(inp: Input, pos: nat, sl: Switch)
    requires pos <= |inp.toks|
    ensures var o := TakeOptType(inp, pos, sl);
            AgreesOpt(inp, pos, o, RunOptType(inp, pos, sl), Colon) && (o.ok ==> !LastIsError(o.trees))
                && |o.trees| <= 1
    decreases |inp.toks| - pos, 2
  {
    hide TakeType, RunType, RunOptType, Agrees, AgreesOpt, IsErrorTree;
    var e := Out(true, 0, NullTree);
    if KindAt(inp, pos) == Colon {
      CleanType(inp, pos + 1, sl);
      e := TakeType(inp, pos + 1, sl);
      TypeKind(inp, pos + 1, sl, e);
    }
    LinkOptType(inp, pos, sl, e, TakeOptType(inp, pos, sl));
  }

  lemma {:induction false} CleanOptInit(inp: Input, pos: nat, sl: Switch)
    requires pos <= |inp.toks|
    ensures var o := TakeOptInit(inp, pos, sl);
            AgreesOpt(inp, pos, o, RunOptInit(inp, pos, sl), Eq) && (o.ok ==> !LastIsError(o.trees)) && |o.trees| <= 1
    decreases |inp.toks| - pos, 3, 0
  {
    hide TakeExpr, RunExpr, RunOptInit, Agrees, AgreesOpt, IsErrorTree;
    var e := Out(true, 0, NullTree);
    if KindAt(inp, pos) == Eq {
      CleanExpr(inp, pos + 1, 0, sl);
      e := TakeExpr(inp, pos + 1, 0, sl);
      ExprKind(inp, pos + 1, 0, sl, e);
    }
    LinkOptInit(inp, pos, sl, e, TakeOptInit(inp, pos, sl));
  }

  lemma {:induction false} CleanLet(inp: Input, pos: nat, sl: Switch)
    requires pos <= |inp.toks| && KindAt(inp, pos) == KwLet
    ensures Agrees(inp, pos, TakeLet(inp, pos, sl), RunLet(inp, pos, sl))
    decreases |inp.toks| - pos, 3
  {
    hide TakeOptType, TakeOptInit, RunLet, RunOptType, RunOptInit, Agrees, AgreesOpt, TextOf, RegimeOf, IsErrorTree;
    var q := Past(inp, NameAt(inp, pos), Identifier);
    var ty := TakeOptType(inp, q, sl);
    CleanOptType(inp, q, sl);
    var init := TakeOptInit(inp, ty.end, sl);
    CleanOptInit(inp, ty.end, sl);
    LinkLet(inp, pos, sl, ty, init, TakeLet(inp, pos, sl));
  }

  /////////////////////////// types ///////////////////////////

  lemma {:induction false} CleanType(inp: Input, pos: nat, sl: Switch)
    requires pos <= |inp.toks|
    ensures Agrees(inp, pos, TakeType(inp, pos, sl), RunType(inp, pos, sl))
    decreases |inp.toks| - pos, 1
  {
    hide TakeComma, TakeArrayType, TakeTensorType, TakeSegs, RunType, RunArrayType, RunTensorType, RunComma,
         RunSegs, MSegs, Stands, AgreesItems, TextOf, SegsAt;
    TypeCases(inp, pos, sl);
    var k, o := KindAt(inp, pos), TakeType(inp, pos, sl);
    if k == LParen {
      CleanList(inp, pos + 1, AType, sl);
      LinkTupleType(inp, pos, sl, TakeComma(inp, pos + 1, AType, sl), o.ok, o.end, o.tree);
    } else if k == LSquare {
      CleanArrayType(inp, pos, sl);
    } else if k == KwTensor {
      CleanTensorType(inp, pos, sl);
    } else if k == Identifier || k == KwSelf {
      CleanSegs(inp, pos + 1);
      LinkNamedType(inp, pos, sl, o.ok, SegsAt(inp, pos + 1), o.end, o.tree);
    }
  }

  lemma {:induction false} CleanArrayType(inp: Input, pos: nat, sl: Switch)
    requires pos <= |inp.toks| && KindAt(inp, pos) == LSquare
    ensures Agrees(inp, pos, TakeArrayType(inp, pos, sl), RunArrayType(inp, pos, sl))
    decreases |inp.toks| - pos, 0
  {
    hide TakeType, TakeExpr, RunArrayType, RunType, RunExpr, Agrees;
    var t, o := TakeType(inp, pos + 1, sl), TakeArrayType(inp, pos, sl);
    CleanType(inp, pos + 1, sl);
    var q := Past(inp, t.end, Semi);
    CleanExpr(inp, q, 0, sl);
    LinkArrayType(inp, pos, sl, t, TakeExpr(inp, q, 0, sl), o.ok, o.end, o.tree);
  }

  lemma {:induction false} CleanTensorType(inp: Input, pos: nat, sl: Switch)
    requires pos <= |inp.toks| && KindAt(inp, pos) == KwTensor
    ensures Agrees(inp, pos, TakeTensorType(inp, pos, sl), RunTensorType(inp, pos, sl))
    decreases |inp.toks| - pos, 0
  {
    hide TakeType, TakeComma, RunTensorType, RunType, RunComma, Agrees, AgreesItems;
    var p, o := Past(inp, pos + 1, LSquare), TakeTensorType(inp, pos, sl);
    var t := TakeType(inp, p, sl);
    CleanType(inp, p, sl);
    var q := Past(inp, t.end, Semi);
    CleanList(inp, q, AConst, sl);
    LinkTensorType(inp, pos, sl, t, TakeComma(inp, q, AConst, sl), o.ok, o.end, o.tree);
  }

  /////////////////////////// patterns ///////////////////////////

  lemma {:induction false} CleanPat(inp: Input, pos: nat, sl: Switch)
    requires pos <= |inp.toks|
    ensures Agrees(inp, pos, TakePat(inp, pos, sl), RunPat(inp, pos, sl))
    decreases |inp.toks| - pos, 1
  {
    hide TakePathPat, TakeTuplePat, TakeComma, RunPat, RunPathPat, RunTuplePat, RunComma, Stands, AgreesItems,
         TextOf;
    LinkLeafPat(inp, pos, sl);
    var k := KindAt(inp, pos);
    if k == Identifier && TokText(inp, pos) != "_" { CleanPathPat(inp, pos, sl); }
    else if k == LParen { CleanTuplePat(inp, pos, pos, Off, 0, Zero, sl); }
  }

  // A parenthesis behind a path of `n` segments, or on its own.
  lemma {:induction false} CleanTuplePat(inp: Input, start: nat, pos: nat, named: Switch, n: nat, p: Payload,
                                         sl: Switch)
    requires pos <= |inp.toks| && KindAt(inp, pos) == LParen
    requires if named.On? then KindAt(inp, start) == Identifier && TokText(inp, start) != "_"
                               && MSegs(inp, start + 1, n) == pos && p == PathText(inp, start, pos)
             else start == pos && n == 0 && p == Zero
    ensures var o := TakeTuplePat(inp, pos, StartOf(inp, start), p, sl);
            var r := RunTuplePat(inp, pos, named, n, sl);
            o.ok == r.Ok? && (o.ok ==> o.end == r.end && Stands(inp, start, r.syn, o.end, o.tree))
    decreases |inp.toks| - pos, 0
  {
    hide TakeComma, RunTuplePat, RunComma, Stands, AgreesItems, TextOf, MSegs;
    var o := TakeTuplePat(inp, pos, StartOf(inp, start), p, sl);
    CleanList(inp, pos + 1, APat, sl);
    LinkTuplePat(inp, start, pos, named, n, sl, TakeComma(inp, pos + 1, APat, sl), o.ok, o.end, o.tree);
  }

  lemma {:induction false} CleanPathPat(inp: Input, pos: nat, sl: Switch)
    requires pos <= |inp.toks| && KindAt(inp, pos) == Identifier && TokText(inp, pos) != "_"
    ensures Agrees(inp, pos, TakePathPat(inp, pos, sl), RunPathPat(inp, pos, sl))
    decreases |inp.toks| - pos, 0
  {
    hide TakeSegs, TakeComma, TakeTuplePat, RunPathPat, RunTuplePat, RunComma, RunSegs, MSegs, Stands, AgreesItems,
         TextOf, SegsAt, Agrees;
    var s, n, o := TakeSegs(inp, pos + 1), SegsAt(inp, pos + 1), TakePathPat(inp, pos, sl);
    CleanSegs(inp, pos + 1);
    var p := PathText(inp, pos, s.end);
    if s.ok && KindAt(inp, s.end) == LParen { CleanTuplePat(inp, pos, s.end, On, n, p, sl); }
    if s.ok && KindAt(inp, s.end) == LBrace {
      CleanList(inp, s.end + 1, AFieldPat, sl);
      LinkStructPat(inp, pos, n, s.end, sl, TakeComma(inp, s.end + 1, AFieldPat, sl), o.ok, o.end, o.tree);
    }
    LinkPathPat(inp, pos, sl, s.ok, n, s.end, o);
  }

  /////////////////////////// fields, variants, parameters ///////////////////////////

  lemma {:induction false} CleanField(inp: Input, pos: nat, sl: Switch)
    requires pos <= |inp.toks|
    ensures Says(TakeField(inp, pos, sl), ReadField(inp, pos, sl))
    decreases |inp.toks| - pos, 3
  {
    hide TakeType, RunType, ReadField, Agrees, TextOf, RegimeOf, Says;
    var n, o := AfterRegime(inp, pos), TakeField(inp, pos, sl);
    if KindAt(inp, n) == Identifier && KindAt(inp, n + 1) == Colon {
      CleanType(inp, n + 2, sl);
      LinkMember(inp, pos, sl, TakeType(inp, n + 2, sl), o);
    } else {
      NoField(inp, pos, sl);
      FailSays(o, ReadField(inp, pos, sl));
    }
  }

  lemma {:induction false} CleanVariant(inp: Input, pos: nat, sl: Switch)
    requires pos <= |inp.toks|
    ensures Says(TakeVariant(inp, pos, sl), ReadVariant(inp, pos, sl))
    decreases |inp.toks| - pos, 0
  {
    hide TakeComma, TakeExpr, RunExpr, ReadVariant, Agrees, TextOf, Says, ItemsFound;
    var k, o := KindAt(inp, pos + 1), TakeVariant(inp, pos, sl);
    if KindAt(inp, pos) != Identifier {
      NoVariant(inp, pos, sl);
      FailSays(o, ReadVariant(inp, pos, sl));
    } else if k == LParen {
      CleanComma(inp, pos + 2, AType, sl);
      FoundVariant(inp, pos, AType, sl, TakeComma(inp, pos + 2, AType, sl), o);
    } else if k == LBrace {
      CleanComma(inp, pos + 2, AField, sl);
      FoundVariant(inp, pos, AField, sl, TakeComma(inp, pos + 2, AField, sl), o);
    } else {
      if k == Eq { CleanExpr(inp, pos + 2, 0, sl); }
      LinkVariantUnit(inp, pos, sl, if k == Eq then TakeExpr(inp, pos + 2, 0, sl) else o, o);
    }
  }

  lemma {:induction false} CleanGeneric(inp: Input, pos: nat, sl: Switch)
    requires pos <= |inp.toks|
    ensures Says(TakeGeneric(inp, pos, sl), ReadGeneric(inp, pos, sl))
    decreases |inp.toks| - pos, 3
  {
    hide TakeType, RunType, ReadGeneric, Agrees, TextOf, Says;
    var o := TakeGeneric(inp, pos, sl);
    if KindAt(inp, pos) != Identifier {
      NoVariant(inp, pos, sl);
      FailSays(o, ReadGeneric(inp, pos, sl));
    } else {
      var bound := KindAt(inp, pos + 1) == Colon;
      if bound { CleanType(inp, pos + 2, sl); }
      LinkGeneric(inp, pos, sl, if bound then TakeType(inp, pos + 2, sl) else Out(true, pos + 1, NullTree), o);
    }
  }

  lemma {:induction false} CleanParam(inp: Input, pos: nat, sl: Switch)
    requires pos <= |inp.toks|
    ensures Says(TakeParam(inp, pos, sl), ReadParam(inp, pos, sl))
    decreases |inp.toks| - pos, 3
  {
    hide TakeType, RunType, ReadParam, Agrees, TextOf, RegimeOf, Says;
    var n, o := AfterRegime(inp, pos), TakeParam(inp, pos, sl);
    var q := Past(inp, n, Identifier);
    if TokText(inp, n) == "self" && (KindAt(inp, q) == RParen || KindAt(inp, q) == Comma) {
      LinkSelfParam(inp, pos, sl, o);
    } else {
      CleanType(inp, Past(inp, q, Colon), sl);
      LinkParam(inp, pos, sl, TakeType(inp, Past(inp, q, Colon), sl), o);
    }
  }

  lemma {:induction false} CleanItem(inp: Input, pos: nat, e: DeclItem, sl: Switch)
    requires pos <= |inp.toks| && (e.DGeneric? || e.DParam?)
    ensures Says(TakeItem(inp, pos, e, sl), ReadOne(inp, pos, e, sl))
    decreases |inp.toks| - pos, 5
  {
    hide TakeGeneric, TakeParam, ReadOne, ReadGeneric, ReadParam, Says;
    OneIs(inp, pos, sl);
    if e.DGeneric? { CleanGeneric(inp, pos, sl); } else { CleanParam(inp, pos, sl); }
  }

  lemma {:induction false} CleanListed(inp: Input, pos: nat, e: DeclItem, sl: Switch)
    requires pos <= |inp.toks| && (e.DGeneric? || e.DParam?)
    ensures KindAt(inp, pos) != Eof ==> SaysAll(TakeListed(inp, pos, e, sl), ReadItems(inp, pos, e, sl))
    ensures KindAt(inp, pos) == Eof ==> !TakeListed(inp, pos, e, sl).ok
    decreases |inp.toks| - pos, 7
  {
    hide TakeItem, TakeListedMore, ReadOne, ReadMore, ReadItems, SaysAll;
    if KindAt(inp, pos) == Closer(e) {
      NoReadItems(inp, pos, e, sl);
    } else {
      var x := TakeItem(inp, pos, e, sl);
      CleanItem(inp, pos, e, sl);
      NothingAtEof(inp, pos, e, sl);
      CleanListedMore(inp, x.end, e, sl);
      if KindAt(inp, pos) != Eof { LinkReadItems(inp, pos, e, sl, x, TakeListedMore(inp, x.end, e, sl)); }
    }
  }

  lemma {:induction false} CleanListedMore(inp: Input, pos: nat, e: DeclItem, sl: Switch)
    requires pos <= |inp.toks| && (e.DGeneric? || e.DParam?)
    ensures SaysAll(TakeListedMore(inp, pos, e, sl), ReadMore(inp, pos, e, sl))
    decreases |inp.toks| - pos, 6
  {
    hide TakeItem, ReadOne, ReadMore;
    MoreIs(inp, pos, e, sl);
    if KindAt(inp, pos) == Comma && (e.DParam? || KindAt(inp, pos + 1) != Closer(e)) {
      CleanItem(inp, pos + 1, e, sl);
      CleanListedMore(inp, TakeItem(inp, pos + 1, e, sl).end, e, sl);
    }
  }

  lemma {:induction false} CleanGens(inp: Input, pos: nat, sl: Switch)
    requires pos <= |inp.toks|
    ensures SaysAll(TakeGens(inp, pos, sl), ReadGenerics(inp, pos, sl))
    decreases |inp.toks| - pos, 8
  {
    hide TakeListed, ReadGenerics, ReadItems, SaysAll;
    if KindAt(inp, pos) != Less {
      NoGenerics(inp, pos, sl);
    } else {
      var l := TakeListed(inp, pos + 1, DGeneric, sl);
      CleanListed(inp, pos + 1, DGeneric, sl);
      LinkGenerics(inp, pos, sl, l, Closing(inp, l.ok, l.end, Greater,
                   Node(GenericParamList, StartOf(inp, pos), EndOf(inp, l.end), Zero, l.trees)));
    }
  }

  lemma {:induction false} CleanParams(inp: Input, pos: nat, sl: Switch)
    requires pos <= |inp.toks|
    ensures Says(TakeParams(inp, pos, sl), ReadParams(inp, pos, sl))
    decreases |inp.toks| - pos, 8
  {
    hide TakeListed, ReadParams, ReadItems, SaysAll, Says;
    var q := Past(inp, pos, LParen);
    CleanListed(inp, q, DParam, sl);
    LinkParams(inp, pos, sl, TakeListed(inp, q, DParam, sl), TakeParams(inp, pos, sl));
  }

  /////////////////////////// functions and constants ///////////////////////////

  lemma {:induction false} CleanSignature(inp: Input, pos: nat, sl: Switch)
    requires pos <= |inp.toks|
    ensures SaysAll(TakeSignature(inp, pos, sl), ReadSignature(inp, pos, sl))
    decreases |inp.toks| - pos, 10
  {
    hide TakeParams, TakeType, ReadParams, ReadSignature, RunType, Agrees, Says, SaysAll;
    var x, o := TakeParams(inp, pos, sl), TakeSignature(inp, pos, sl);
    CleanParams(inp, pos, sl);
    var k := KindAt(inp, x.end);
    var y := if k == Colon || k == Arrow then TakeType(inp, x.end + 1, sl) else x;
    if k == Colon { CleanType(inp, x.end + 1, sl); }
    LinkSignature(inp, pos, sl, x, y, o);
  }

  lemma {:induction false} CleanBody(inp: Input, pos: nat, body: Switch, sl: Switch)
    requires pos <= |inp.toks|
    ensures Says(TakeBody(inp, pos, body, sl), ReadBody(inp, pos, body, sl))
    decreases |inp.toks| - pos, 8
  {
    hide TakeBlock, RunBlock, ReadBody, Agrees, Says;
    if body.On? { CleanBlock(inp, pos, sl); }
    LinkBody(inp, pos, body, sl, TakeBody(inp, pos, body, sl));
  }

  lemma {:induction false} CleanFn(inp: Input, pos: nat, body: Switch, flags: nat, docs: seq<Tree>, sl: Switch)
    requires pos <= |inp.toks|
    ensures Says(TakeFn(inp, pos, body, flags, docs, sl), ReadFn(inp, pos, body, flags, docs, sl))
    decreases |inp.toks| - pos, 11
  {
    hide TakeGens, TakeSignature, TakeBody, ReadFn, ReadGenerics, ReadSignature, ReadBody, Says, SaysAll, TextOf,
         RegimeOf;
    var n := AfterRegime(inp, Past(inp, DeclRuns.FnAt(inp, pos), KwFn));
    var q := Past(inp, n, Identifier);
    var g := TakeGens(inp, q, sl);
    CleanGens(inp, q, sl);
    var s := TakeSignature(inp, g.end, sl);
    CleanSignature(inp, g.end, sl);
    CleanBody(inp, s.end, body, sl);
    LinkFn(inp, pos, body, flags, docs, sl, g, s, TakeBody(inp, s.end, body, sl),
           TakeFn(inp, pos, body, flags, docs, sl));
  }

  lemma {:induction false} CleanConst(inp: Input, pos: nat, flags: nat, docs: seq<Tree>, sl: Switch)
    requires pos <= |inp.toks|
    ensures Says(TakeConst(inp, pos, flags, docs, sl), ReadConst(inp, pos, flags, docs, sl))
    decreases |inp.toks| - pos, 9
  {
    hide TakeType, TakeExpr, RunType, RunExpr, ReadConst, Agrees, Says, TextOf;
    var q := Past(inp, Past(inp, Past(inp, pos, KwConst), Identifier), Colon);
    var t := TakeType(inp, q, sl);
    CleanType(inp, q, sl);
    var p := Past(inp, t.end, Eq);
    CleanExpr(inp, p, 0, sl);
    LinkConst(inp, pos, flags, docs, sl, t, TakeExpr(inp, p, 0, sl), TakeConst(inp, pos, flags, docs, sl));
  }

  /////////////////////////// declarations with braces ///////////////////////////

  lemma {:induction false} CleanMethods(inp: Input, pos: nat, body: Switch, sl: Switch)
    requires pos <= |inp.toks|
    ensures SaysAll(TakeMethods(inp, pos, body, sl), ReadMethods(inp, pos, body, sl))
    decreases |inp.toks| - pos, 13
  {
    hide TakeMethod, ReadMethod, ReadMethods;
    MethodsIs(inp, pos, body, sl);
    if KindAt(inp, pos) != RBrace && KindAt(inp, pos) != Eof {
      CleanMethod(inp, pos, body, sl);
      CleanMethods(inp, TakeMethod(inp, pos, body, sl).end, body, sl);
    }
  }

  lemma {:induction false} CleanMethod(inp: Input, pos: nat, body: Switch, sl: Switch)
    requires pos <= |inp.toks| && KindAt(inp, pos) != RBrace && KindAt(inp, pos) != Eof
    ensures Says(TakeMethod(inp, pos, body, sl), ReadMethod(inp, pos, body, sl))
    decreases |inp.toks| - pos, 12
  {
    hide TakeFn, ReadFn, DocEnd, DocTrees, FirstOf;
    DocsEnd(inp, pos, DocCommentTok);
    CleanFn(inp, DocEnd(inp, pos, DocCommentTok), body, 0, DocTrees(inp, pos, DocCommentTok, DocComment), sl);
  }

  // What stands behind an opening brace.
  lemma {:induction false} CleanInner(inp: Input, q: nat, i: Inner, sl: Switch)
    requires q <= |inp.toks| && KindAt(inp, q) == LBrace
    ensures SaysAll(TakeInner(inp, q, i, sl), ReadInner(inp, q + 1, i, sl))
    decreases |inp.toks| - q, 14
  {
    hide TakeComma, TakeMethods, ReadMethods, ReadItems, SaysAll;
    match i
    case Fields =>
      CleanComma(inp, q + 1, AField, sl);
    case Variants =>
      CleanComma(inp, q + 1, AVariant, sl);
    case Signatures => CleanMethods(inp, q + 1, Off, sl);
    case Methods => CleanMethods(inp, q + 1, On, sl);
  }

  lemma {:induction false} CleanBraces(inp: Input, pos: nat, kind: NodeKind, p: Payload, flags: nat,
                                       before: seq<Tree>, q: nat,
                                       i: Inner, sl: Switch)
    requires q <= |inp.toks|
    ensures var x := TakeBraces(inp, pos, kind, p, flags, before, TakeInner(inp, q, i, sl));
            if KindAt(inp, q) == LBrace
                then Says(x, Braced(inp, pos, kind, p, flags, before, ReadInner(inp, q + 1, i, sl)))
            else !x.ok
    decreases |inp.toks| - q, 15
  {
    hide TakeInner, ReadInner, Says, SaysAll, Braced;
    var l := TakeInner(inp, q, i, sl);
    if KindAt(inp, q) == LBrace {
      CleanInner(inp, q, i, sl);
      LinkBraced(inp, pos, kind, p, flags, before, ReadInner(inp, q + 1, i, sl), l,
                 TakeBraces(inp, pos, kind, p, flags, before, l));
    } else {
      NotOpened(inp, q, i, sl);
    }
  }

  lemma NotOpened(inp: Input, q: nat, i: Inner, sl: Switch)
    requires q <= |inp.toks|
    ensures KindAt(inp, q) != LBrace ==> !TakeInner(inp, q, i, sl).ok
  {
    hide TakeComma, TakeMethods;
  }

  lemma {:induction false} CleanNamed(inp: Input, pos: nat, kind: NodeKind, i: Inner, flags: nat, docs: seq<Tree>,
                                      sl: Switch)
    requires pos < |inp.toks| && IsNamed(kind, KindAt(inp, pos), i)
    ensures Says(TakeNamed(inp, pos, kind, i, flags, docs, sl), ReadNamed(inp, pos, flags, docs, sl))
    decreases |inp.toks| - pos, 15
  {
    hide TakeGens, TakeInner, TakeBraces, ReadNamed, ReadGenerics, ReadInner, Says, SaysAll, Braced, TextOf,
         IsNamed;
    var q := Past(inp, pos + 1, Identifier);
    var g := TakeGens(inp, q, sl);
    CleanGens(inp, q, sl);
    var p := Name(TokText(inp, pos + 1));
    CleanBraces(inp, pos, kind, p, flags, docs + g.trees, g.end, i, sl);
    var x := TakeBraces(inp, pos, kind, p, flags, docs + g.trees, TakeInner(inp, g.end, i, sl));
    LinkNamed(inp, pos, kind, i, flags, docs, sl, g, x, TakeNamed(inp, pos, kind, i, flags, docs, sl));
  }

  lemma {:induction false} CleanImplTypes(inp: Input, pos: nat, sl: Switch)
    requires pos <= |inp.toks|
    ensures SaysAll(TakeImplTypes(inp, pos, sl), ReadImplTypes(inp, pos, sl))
    decreases |inp.toks| - pos, 2
  {
    hide TakeType, RunType, ReadImplTypes, Agrees, SaysAll;
    var x := TakeType(inp, pos, sl);
    CleanType(inp, pos, sl);
    var y := x;
    if KindAt(inp, x.end) == KwFor {
      CleanType(inp, x.end + 1, sl);
      y := TakeType(inp, x.end + 1, sl);
    }
    LinkImplTypes(inp, pos, sl, x, y, TakeImplTypes(inp, pos, sl));
  }

  lemma {:induction false} CleanImpl(inp: Input, pos: nat, flags: nat, docs: seq<Tree>, sl: Switch)
    requires pos < |inp.toks| && KindAt(inp, pos) == KwImpl
    ensures Says(TakeImpl(inp, pos, flags, docs, sl), ReadImpl(inp, pos, flags, docs, sl))
    decreases |inp.toks| - pos, 15
  {
    hide TakeGens, TakeImplTypes, TakeInner, TakeBraces, ReadImpl, ReadGenerics, ReadImplTypes, ReadInner, SaysAll,
         Braced;
    var g := TakeGens(inp, pos + 1, sl);
    CleanGens(inp, pos + 1, sl);
    var t := TakeImplTypes(inp, g.end, sl);
    CleanImplTypes(inp, g.end, sl);
    CleanBraces(inp, pos, ImplDecl, Zero, flags, docs + g.trees + t.trees, t.end, Methods, sl);
    var x := TakeBraces(inp, pos, ImplDecl, Zero, flags, docs + g.trees + t.trees, TakeInner(inp, t.end, Methods, sl));
    LinkImpl(inp, pos, flags, docs, sl, g, t, x, TakeImpl(inp, pos, flags, docs, sl));
  }

  /////////////////////////// modules and imports ///////////////////////////

  lemma {:induction false} CleanMod(inp: Input, pos: nat, flags: nat, docs: seq<Tree>, sl: Switch)
    requires pos < |inp.toks| && KindAt(inp, pos) == KwMod
    ensures Says(TakeMod(inp, pos, flags, docs, sl), ReadMod(inp, pos, flags, docs, sl))
    decreases |inp.toks| - pos, 15
  {
    hide TakeDecls, ReadMod, ReadDecls, Says, SaysAll, Braced, TextOf;
    var q, p, o := Past(inp, pos + 1, Identifier), Name(TokText(inp, pos + 1)), TakeMod(inp, pos, flags, docs, sl);
    if KindAt(inp, q) == LBrace {
      CleanDecls(inp, q + 1, On, sl);
      var l := TakeDecls(inp, q + 1, On, sl);
      var x := TakeBraces(inp, pos, ModDecl, p, flags, docs, l);
      LinkBraced(inp, pos, ModDecl, p, flags, docs, ReadDecls(inp, q + 1, On, sl), l, x);
      LinkMod(inp, pos, flags, docs, sl, x, o);
    } else {
      LinkMod(inp, pos, flags, docs, sl, o, o);
    }
  }

  lemma {:induction false} UseNames(inp: Input, pos: nat)
    requires pos <= |inp.toks|
    ensures PastUseNames(inp, pos) == UseSegments(inp, pos)
    decreases |inp.toks| - pos
  {
    if KindAt(inp, pos) == ColonColon && KindAt(inp, pos + 1) == Identifier { UseNames(inp, pos + 2); }
  }

  lemma CleanUse(inp: Input, pos: nat, flags: nat, docs: seq<Tree>)
    requires pos < |inp.toks| && KindAt(inp, pos) == KwUse
    ensures Says(TakeUse(inp, pos, flags, docs), ReadUse(inp, pos, flags, docs))
  {
    hide PastUseNames, UseSegments, ReadUse, TextOf, Says, TakeUseTail, UseStop;
    var o, p := TakeUse(inp, pos, flags, docs), Past(inp, pos + 1, Identifier);
    var t := TakeUseTail(inp, PastUseNames(inp, p));
    UseNames(inp, p);
    TailIs(inp, pos);
    LinkUse(inp, pos, flags, docs, t.end, o);
  }

  lemma TailIs(inp: Input, pos: nat)
    requires pos < |inp.toks|
    ensures KindAt(inp, pos + 1) != Identifier ==> UseStop(inp, pos) == 0
    ensures KindAt(inp, pos + 1) == Identifier ==>
            var t := TakeUseTail(inp, PastUseNames(inp, pos + 2));
            if t.ok then UseStop(inp, pos) == t.end == t.last && t.end > pos + 1 else UseStop(inp, pos) == 0
  {
    hide PastUseNames, UseSegments;
    if KindAt(inp, pos + 1) == Identifier { UseNames(inp, pos + 2); }
  }

  /////////////////////////// declarations and files ///////////////////////////

  lemma {:induction false} CleanPlain(inp: Input, pos: nat, flags: nat, docs: seq<Tree>, sl: Switch)
    requires pos <= |inp.toks|
    requires KindAt(inp, pos) == KwUnsafe ==> KindAt(inp, pos + 1) != KwFn
    ensures Says(TakePlain(inp, pos, flags, docs, sl), ReadPlain(inp, pos, flags, docs, sl))
    decreases |inp.toks| - pos, 16
  {
    hide TakeConst, TakeMod, TakeNamed, TakeUse, TakeImpl, ReadConst, ReadMod, ReadNamed, ReadUse, ReadImpl,
         ReadPlain, SyncFrom;
    PlainIs(inp, pos, flags, docs, sl);
    var k := KindAt(inp, pos);
    if k == KwUnsafe || k == KwConst { CleanConst(inp, pos, flags, docs, sl); }
    else if k == KwMod { CleanMod(inp, pos, flags, docs, sl); }
    else if k == KwStruct { CleanNamed(inp, pos, StructDecl, Fields, flags, docs, sl); }
    else if k == KwEnum { CleanNamed(inp, pos, EnumDecl, Variants, flags, docs, sl); }
    else if k == KwUnion { CleanNamed(inp, pos, UnionDecl, Fields, flags, docs, sl); }
    else if k == KwUse { CleanUse(inp, pos, flags, docs); }
    else if k == KwTrait { CleanNamed(inp, pos, TraitDecl, Signatures, flags, docs, sl); }
    else if k == KwImpl { CleanImpl(inp, pos, flags, docs, sl); }
  }

  /** A declaration is read without a diagnostic exactly where the grammar has one, whatever stands around. */
  lemma {:induction false} CleanDecl(inp: Input, pos: nat, sl: Switch)
    requires pos <= |inp.toks|
    ensures Says(TakeDecl(inp, pos, sl), ReadDecl(inp, pos, sl))
    decreases |inp.toks| - pos, 17
  {
    hide TakeFn, TakePlain, ReadDecl, ReadItem, ReadFn, ReadPlain, DocEnd, DocTrees, Says;
    DocsEnd(inp, pos, DocCommentTok);
    var q, docs := DocEnd(inp, pos, DocCommentTok), DocTrees(inp, pos, DocCommentTok, DocComment);
    var p := Past(inp, q, KwPub);
    var flags := if KindAt(inp, q) == KwPub then PubFlag else 0;
    var o := TakeDecl(inp, pos, sl);
    if KindAt(inp, p) == KwFn {
      CleanFn(inp, p, On, flags, docs, sl);
      LinkFnItem(inp, p, p, flags, docs, sl, o);
    } else if KindAt(inp, p) == KwUnsafe && KindAt(inp, p + 1) == KwFn {
      CleanFn(inp, p + 1, On, WithUnsafe(flags), docs, sl);
      LinkFnItem(inp, p, p + 1, flags, docs, sl, o);
    } else {
      CleanPlain(inp, p, flags, docs, sl);
      LinkPlainItem(inp, p, flags, docs, sl, o);
    }
    LinkDecl(inp, pos, sl, o);
  }

  lemma {:induction false} CleanDecls(inp: Input, pos: nat, inner: Switch, sl: Switch)
    requires pos <= |inp.toks|
    ensures SaysAll(TakeDecls(inp, pos, inner, sl), ReadDecls(inp, pos, inner, sl))
    decreases |inp.toks| - pos, 18
  {
    hide TakeDecl, ReadDecl, ReadDecls;
    DeclsIs(inp, pos, inner, sl);
    if KindAt(inp, pos) != Eof && (inner.On? ==> KindAt(inp, pos) != RBrace) {
      CleanDecl(inp, pos, sl);
      CleanDecls(inp, TakeDecl(inp, pos, sl).end, inner, sl);
    }
  }

  /** The same for a whole file. */
  lemma CleanFile(inp: Input, sl: Switch)
    ensures Says(TakeFile(inp, sl), ReadFile(inp, sl))
  {
    hide TakeDecls, ReadDecls, ReadFile, DocEnd, DocTrees, Says, SaysAll;
    DocsEnd(inp, 0, FileDocCommentTok);
    var p := DocEnd(inp, 0, FileDocCommentTok);
    CleanDecls(inp, p, Off, sl);
    LinkFile(inp, sl, TakeDecls(inp, p, Off, sl), TakeFile(inp, sl));
  }
}
