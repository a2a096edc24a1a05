/** What one call of an imperative parse method has to do with the run function it refines. Each
    lemma is one production: outcomes of its parts make the outcome of the whole. */
module Outcomes {
  import opened Tokens
  import opened Trees
  import opened Grammar
  import opened Spelling
  import opened ErrorFree
  import opened Soundness

  // What a call left behind: whether it recorded no diagnostic, where it stopped, what it built.
  datatype Out = Out(ok: bool, end: nat, tree: Tree)
  datatype ListOut = ListOut(ok: bool, end: nat, trees: seq<Tree>)

  // The tokens from `start` to `end` spell `s`, and `t` is the tree they stand for.
  ghost predicate Stands(inp: Input, start: nat, s: Syn, end: nat, t: Tree) {
    M(inp, start, s) == end && t == Ast(inp, start, s)
  }

  /** The call was clean exactly when the run function succeeds, and then it stopped at the same
      token and built the tree of the syntax found. */
  ghost predicate Agrees(inp: Input, pos: nat, o: Out, r: Res) {
    && o.ok == r.Ok?
    && (o.ok ==> o.end == r.end && Stands(inp, pos, r.syn, o.end, o.tree))
  }

  lemma FailAgrees(inp: Input, pos: nat, o: Out, r: Res)
    requires !o.ok && r.Fail?
    ensures Agrees(inp, pos, o, r)
  {
  }

  ghost predicate AgreesItems(inp: Input, pos: nat, o: ListOut, r: ListRes) {
    && o.ok == r.LOk?
    && (o.ok ==> o.end == r.end && MItems(inp, pos, r.items, r.trail) == o.end)
    && (o.ok ==> o.trees == AstItems(inp, pos, r.items))
  }

  // The same for the items behind the first, each with its comma.
  ghost predicate AgreesMore(inp: Input, pos: nat, o: ListOut, r: ListRes) {
    && o.ok == r.LOk?
    && (o.ok ==> o.end == r.end && MMore(inp, pos, r.items, r.trail) == o.end && o.trees == AstMore(inp, pos, r.items))
  }

  // The same for statements or arms, which stand side by side.
  ghost predicate AgreesSeq(inp: Input, pos: nat, o: ListOut, r: ListRes) {
    && o.ok == r.LOk?
    && (o.ok ==> o.end == r.end && MSeq(inp, pos, r.items) == o.end && o.trees == AstSeq(inp, pos, r.items))
  }

  /////////////////////////// one unfolding ///////////////////////////

  lemma StandsEx(inp: Input, pos: nat, e: ExprForm, end: nat, t: Tree)
    requires (if IsTail(e) then MTail(inp, pos, e) else MExpr(inp, pos, e)) == end
    requires t
             == if IsTail(e) then AstTail(inp, pos, EndOf(inp, end - 1), e)
                else AstExpr(inp, pos, EndOf(inp, end - 1), e)
    ensures Stands(inp, pos, Ex(e), end, t)
  {
    hide MType, MPat, MField, MStmt, MExpr, MTail, AstType, AstPat, AstField, AstStmt, AstExpr, AstTail;
  }

  lemma StandsTy(inp: Input, pos: nat, e: TypeForm, end: nat, t: Tree)
    requires MType(inp, pos, e) == end && t == AstType(inp, pos, EndOf(inp, end - 1), e)
    ensures Stands(inp, pos, Ty(e), end, t)
  {
    hide MType, MPat, MField, MStmt, MExpr, MTail, AstType, AstPat, AstField, AstStmt, AstExpr, AstTail;
  }

  lemma StandsPt(inp: Input, pos: nat, e: PatForm, end: nat, t: Tree)
    requires MPat(inp, pos, e) == end && t == AstPat(inp, pos, EndOf(inp, end - 1), e)
    ensures Stands(inp, pos, Pt(e), end, t)
  {
    hide MType, MPat, MField, MStmt, MExpr, MTail, AstType, AstPat, AstField, AstStmt, AstExpr, AstTail;
  }

  lemma StandsFl(inp: Input, pos: nat, e: FieldForm, end: nat, t: Tree)
    requires MField(inp, pos, e) == end && t == AstField(inp, pos, e)
    ensures Stands(inp, pos, Fl(e), end, t)
  {
    hide MType, MPat, MField, MStmt, MExpr, MTail, AstType, AstPat, AstField, AstStmt, AstExpr, AstTail;
  }

  lemma StandsSt(inp: Input, pos: nat, e: StmtForm, end: nat, t: Tree)
    requires MStmt(inp, pos, e) == end && t == AstStmt(inp, pos, EndOf(inp, end - 1), e)
    ensures Stands(inp, pos, St(e), end, t)
  {
    hide MType, MPat, MField, MStmt, MExpr, MTail, AstType, AstPat, AstField, AstStmt, AstExpr, AstTail;
  }

  /////////////////////////// lists ///////////////////////////

  lemma LinkItems(inp: Input, pos: nat, lk: ListKind, sl: Switch, e: Out, m: ListOut)
    requires Agrees(inp, pos, e, RunElem(inp, pos, ClassOf(lk), sl))
    requires e.ok ==> AgreesMore(inp, e.end, m, RunMore(inp, e.end, lk, sl))
    ensures AgreesItems(inp, pos, ListOut(e.ok && m.ok, m.end, [e.tree] + m.trees), RunItems(inp, pos, lk, sl))
  {
    hide M, Ast, RunElem, RunMore, MMore, AstMore;
  }

  lemma {:induction false} ItemCount(inp: Input, pos: nat, l: Syns)
    ensures |AstItems(inp, pos, l)| == Size(l)
  {
    hide M, Ast;
    if l.Cons? { MoreCount(inp, M(inp, pos, l.hd), l.tl); }
  }

  lemma {:induction false} MoreCount(inp: Input, pos: int, l: Syns)
    ensures |AstMore(inp, pos, l)| == Size(l)
    decreases l
  {
    hide M, Ast;
    if l.Cons? { MoreCount(inp, M(inp, pos + 1, l.hd), l.tl); }
  }
}
