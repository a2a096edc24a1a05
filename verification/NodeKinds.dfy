/** What kind of node a piece of syntax stands for: types and expressions never look alike, and neither
    is an error node. */
module NodeKinds {
  import opened Tokens
  import opened Trees
  import opened Grammar
  import opened Spelling
  import opened Layouts

  lemma TypeTree(inp: Input, pos: nat, t: TypeForm)
    ensures var x := Ast(inp, pos, Ty(t)); x.Tree? && IsTypeKind(x.kind) && x.kind != Error
  {
    hide M, AstItems;
  }

  lemma {:induction false} ExprTree(inp: Input, pos: nat, e: ExprForm, sl: Switch)
    requires M(inp, pos, Ex(e)) >= 0 && WF(Ex(e), sl)
    ensures var x := Ast(inp, pos, Ex(e)); x.Tree? && !IsTypeKind(x.kind) && x.kind != Error
    decreases e
  {
    hide M, WF, Ast;
    if e.EParen? {
      ParenInner(inp, pos, e, sl);
      ExprTree(inp, pos + 1, e.inner.e, Switch.On);
    } else if IsTail(e) {
      if e.EFloatIdx? { FloatParts(inp, pos, e); }
      TailTree(inp, pos, e);
    } else {
      AtomTree(inp, pos, e);
    }
  }

  lemma TailTree(inp: Input, pos: nat, e: ExprForm)
    requires IsTail(e)
    requires e.EFloatIdx? ==>
               M(inp, pos, e.base) >= 0 && !FloatSplit(TokText(inp, M(inp, pos, e.base) + 1)).NoSplit?
    ensures var x := Ast(inp, pos, Ex(e)); x.Tree? && !IsTypeKind(x.kind) && x.kind != Error
  {
    hide M, AstItems, AstExpr, AstType, AstPat, AstField, AstStmt, FloatSplit, TextOf;
    var x := Ast(inp, pos, Ex(e));
    assert x == AstTail(inp, pos, EndOf(inp, M(inp, pos, Ex(e)) - 1), e);
  }

  lemma AtomTree(inp: Input, pos: nat, e: ExprForm)
    requires !IsTail(e) && !e.EParen?
    ensures var x := Ast(inp, pos, Ex(e)); x.Tree? && !IsTypeKind(x.kind) && x.kind != Error
  {
    hide M, AstItems, AstSeq, AstTail, AstType, AstPat, AstField, AstStmt, TextOf;
    var x := Ast(inp, pos, Ex(e));
    assert x == AstExpr(inp, pos, EndOf(inp, M(inp, pos, Ex(e)) - 1), e);
  }

  lemma ParenInner(inp: Input, pos: nat, e: ExprForm, sl: Switch)
    requires e.EParen? && M(inp, pos, Ex(e)) >= 0 && WF(Ex(e), sl)
    ensures e.inner.Ex? && WF(e.inner, Switch.On) && M(inp, pos + 1, e.inner) >= 0 && KindAt(inp, pos) == LParen
    ensures M(inp, pos, Ex(e)) == M(inp, pos + 1, e.inner) + 1 && KindAt(inp, M(inp, pos + 1, e.inner)) == RParen
    ensures Ast(inp, pos, Ex(e)) == Ast(inp, pos + 1, e.inner)
  {
    hide MTail, MType, MPat, MField, MStmt;
    assert MExpr(inp, pos, e) == M(inp, pos, Ex(e));
    assert WFExpr(e, sl);
  }

  lemma FloatParts(inp: Input, pos: nat, e: ExprForm)
    requires e.EFloatIdx? && M(inp, pos, Ex(e)) >= 0
    ensures var q := M(inp, pos, e.base);
            && q >= 0 && KindAt(inp, q) == Dot && KindAt(inp, q + 1) == FloatLiteral && M(inp, pos, Ex(e)) == q + 2
            && var sp := FloatSplit(TokText(inp, q + 1)); if e.two then sp.Two? else sp.One?
  {
    hide MExpr, MType, MPat, MField, MStmt, FloatSplit, TextOf;
    assert MTail(inp, pos, e) == M(inp, pos, Ex(e));
  }
}
