/** The precedence of operators, told by levels instead of binding powers, and what it means for which
    of two operators takes the operand between them. */
module Precedence {
  import opened Tokens
  import opened Grammar
  import opened Spelling
  import opened ErrorFree
  import opened Soundness
  import opened Completeness

  /** The levels of the infix operators, the loosest first. */
  const Levels: seq<set<Kind>> := [
    {Eq, PlusEq, MinusEq, StarEq, SlashEq, PercentEq, AmpEq, PipeEq, CaretEq, LessLessEq, GreaterGreaterEq},
    {PipePipe},
    {AmpAmp},
    {EqEq, BangEq, Less, Greater, LessEq, GreaterEq},
    {Pipe},
    {Caret},
    {Amp},
    {LessLess, GreaterGreater},
    {Plus, Minus},
    {Star, Slash, Percent}]

  const PrefixOperators: set<Kind> := {Bang, Minus, Amp, Star}

  predicate OnLevel(k: Kind, i: int) { 0 <= i < |Levels| && k in Levels[i] }

  ghost predicate IsInfix(k: Kind) { exists i :: OnLevel(k, i) }

  ghost predicate Tighter(k: Kind, than: Kind) { exists i, j :: i < j && OnLevel(than, i) && OnLevel(k, j) }

  predicate BothAssign(k: Kind, l: Kind) { OnLevel(k, 0) && OnLevel(l, 0) }

  // Of two operators in a row the second takes the operand between them.
  ghost predicate SecondTakes(op1: Kind, op2: Kind) { Tighter(op2, op1) || BothAssign(op1, op2) }

  /////////////////////////// the levels and the table ///////////////////////////

  // The number of a kind's level, -1 without one.
  function LevelOf(k: Kind): (i: int)
    ensures i >= 0 ==> OnLevel(k, i)
    ensures i < 0 ==> forall j :: !OnLevel(k, j)
    ensures forall j :: OnLevel(k, j) ==> i == j
    ensures -1 <= i < 10
  {
    if k in Levels[0] then 0 else if k in Levels[1] then 1 else if k in Levels[2] then 2 else if k in Levels[3] then 3
    else if k in Levels[4] then 4 else if k in Levels[5] then 5 else if k in Levels[6] then 6
    else if k in Levels[7] then 7 else if k in Levels[8] then 8 else if k in Levels[9] then 9 else -1
  }

  lemma PowerOfLevel(k: Kind)
    ensures InfixBindingPower(k)
            == var i := LevelOf(k); if i < 0 then Power(-1, -1) else if i == 0 then Power(10, 9)
                                    else Power(10 * i + 10, 10 * i + 11)
  {
  }

  lemma LevelsOfTwo(op1: Kind, op2: Kind)
    ensures IsInfix(op1) <==> LevelOf(op1) >= 0
    ensures Tighter(op2, op1) <==> 0 <= LevelOf(op1) < LevelOf(op2)
    ensures BothAssign(op1, op2) <==> LevelOf(op1) == 0 == LevelOf(op2)
  {
    hide LevelOf, OnLevel;
    if LevelOf(op1) >= 0 && LevelOf(op2) >= 0 {
      assert OnLevel(op1, LevelOf(op1)) && OnLevel(op2, LevelOf(op2));
    }
  }

  lemma ComparePowers(op1: Kind, op2: Kind)
    requires IsInfix(op1) && IsInfix(op2)
    ensures LeftPower(op1) >= 0 && LeftPower(op2) >= 0
    ensures LeftPower(op2) < RightPower(op1) <==> !SecondTakes(op1, op2)
    ensures LeftPower(op2) >= RightPower(op1) <==> SecondTakes(op1, op2)
    ensures 0 <= LeftPower(op2) < 110
  {
    hide LevelOf, OnLevel, InfixBindingPower, IsInfix, Tighter, BothAssign;
    PowerOfLevel(op1);
    PowerOfLevel(op2);
    LevelsOfTwo(op1, op2);
    LevelsOfTwo(op2, op1);
  }

  lemma HasPower(l: Syn, k: Kind, r: Syn, sl: Switch)
    requires WF(Ex(EBin(l, k, r)), sl)
    ensures LeftPower(k) >= 0
  {
    hide InfixBindingPower;
    assert WFExpr(EBin(l, k, r), sl);
  }

  /** A kind on no level is never an infix operator, and every kind on a level is one. */
  lemma InfixIff(k: Kind)
    ensures IsInfix(k) <==> exists l, r, sl :: WF(Ex(EBin(l, k, r)), sl)
  {
    hide LevelOf, InfixBindingPower, IsInfix;
    PowerOfLevel(k);
    LevelsOfTwo(k, k);
    var one := Ex(ELit);
    if IsInfix(k) {
      assert WF(one, On) && Follow(one, k, On) && LeftOk(one, RightPower(k));
      assert WF(Ex(EBin(one, k, one)), On);
    }
    if l, r, sl :| WF(Ex(EBin(l, k, r)), sl) { HasPower(l, k, r, sl); }
  }

  /////////////////////////// operands ///////////////////////////

  // An expression with no operator outside brackets.
  predicate IsOperand(s: Syn) {
    && s.Ex? && !s.e.EBin? && !s.e.EUnary? && !s.e.EProj?
    && (IsTail(s.e) ==> IsOperand(Head(s.e)))
  }

  lemma {:induction false} OperandLeftOk(s: Syn, m: int)
    requires IsOperand(s)
    ensures LeftOk(s, m)
    decreases s
  {
    if IsTail(s.e) { OperandLeftOk(Head(s.e), m); }
  }

  lemma InfixKinds(k: Kind)
    requires IsInfix(k)
    ensures !IsPostfix(k) && k != ColonColon && k != LBrace && k != KwElse && k != Eof && k != LParen
    ensures Pull(k) == LeftPower(k)
  {
    hide LevelOf, IsInfix;
    PowerOfLevel(k);
    LevelsOfTwo(k, k);
  }

  // An infix operator may stand behind any operand.
  lemma {:induction false} OperandFollow(s: Syn, k: Kind, sl: Switch)
    requires IsOperand(s) && WF(s, sl) && IsInfix(k)
    ensures Follow(s, k, sl)
    decreases s
  {
    hide IsInfix;
    InfixKinds(k);
    if s.e.EIf? && !s.e.els.Absent? { ElseFollow(s.e.els, k, sl); }
    assert FollowExpr(s.e, k, sl);
  }

  lemma {:induction false} ElseFollow(s: Syn, k: Kind, sl: Switch)
    requires s.Ex? && (s.e.EIf? || s.e.EBlock?) && WF(s, sl) && k != KwElse
    ensures Follow(s, k, sl)
    decreases s
  {
    if s.e.EIf? && !s.e.els.Absent? { ElseFollow(s.e.els, k, sl); }
  }

  /////////////////////////// two operators ///////////////////////////

  // From `pos` on the tokens spell operand, operator, operand, operator, operand, up to `end`, and
  // nothing goes on there.
  ghost predicate TwoOperators(inp: Input, pos: nat, x: Syn, op1: Kind, y: Syn, op2: Kind, z: Syn, end: nat,
                               sl: Switch) {
    && IsOperand(x) && IsOperand(y) && IsOperand(z) && WF(x, sl) && WF(y, sl) && WF(z, sl)
    && M(inp, pos, x) >= 0 && KindAt(inp, M(inp, pos, x)) == op1
    && M(inp, M(inp, pos, x) + 1, y) >= 0 && KindAt(inp, M(inp, M(inp, pos, x) + 1, y)) == op2
    && M(inp, M(inp, M(inp, pos, x) + 1, y) + 1, z) == end
    && Pull(KindAt(inp, end)) < 0 && Follow(z, KindAt(inp, end), sl)
  }

  /** Of two infix operators in a row the second takes the operand between them exactly when it is on a
      higher level, or both assign; otherwise the first does. */
  lemma TwoInARow(inp: Input, pos: nat, x: Syn, op1: Kind, y: Syn, op2: Kind, z: Syn, end: nat, sl: Switch)
    requires IsInfix(op1) && IsInfix(op2) && TwoOperators(inp, pos, x, op1, y, op2, z, end, sl)
    ensures RunExpr(inp, pos, 0, sl) == Ok(if SecondTakes(op1, op2) then Ex(EBin(x, op1, Ex(EBin(y, op2, z))))
                                           else Ex(EBin(Ex(EBin(x, op1, y)), op2, z)), end)
  {
    hide RunExpr, IsInfix, SecondTakes, InfixBindingPower, IsOperand, M, WF, Follow, LeftOk;
    if SecondTakes(op1, op2) {
      RightShape(inp, pos, x, op1, y, op2, z, end, sl);
      CompleteExpr(inp, pos, Ex(EBin(x, op1, Ex(EBin(y, op2, z)))), end, 0, sl);
    } else {
      LeftShape(inp, pos, x, op1, y, op2, z, end, sl);
      CompleteExpr(inp, pos, Ex(EBin(Ex(EBin(x, op1, y)), op2, z)), end, 0, sl);
    }
  }

  // What goes together: an infix form of two expressions.
  lemma Infix(inp: Input, pos: nat, l: Syn, op: Kind, r: Syn, q: nat, end: nat, sl: Switch)
    requires IsInfix(op) && l.Ex? && r.Ex? && WF(l, sl) && WF(r, sl) && Follow(l, op, sl) && LeftOk(r, RightPower(op))
    requires M(inp, pos, l) == q && KindAt(inp, q) == op && M(inp, q + 1, r) == end
    ensures WF(Ex(EBin(l, op, r)), sl) && M(inp, pos, Ex(EBin(l, op, r))) == end
    ensures forall m :: LeftOk(Ex(EBin(l, op, r)), m) <==> LeftOk(l, m) && LeftPower(op) >= m
    ensures forall k :: Follow(Ex(EBin(l, op, r)), k, sl) <==> Pull(k) < RightPower(op) && Follow(r, k, sl)
  {
    hide IsInfix, InfixBindingPower, MExpr, MType, MPat, MField, MStmt, MPath;
    InfixKinds(op);
    ComparePowers(op, op);
    var (a, b) := (M(inp, pos, l), M(inp, q + 1, r));
    assert MTail(inp, pos, EBin(l, op, r)) == end;
  }

  lemma RightShape(inp: Input, pos: nat, x: Syn, op1: Kind, y: Syn, op2: Kind, z: Syn, end: nat, sl: Switch)
    requires IsInfix(op1) && IsInfix(op2) && TwoOperators(inp, pos, x, op1, y, op2, z, end, sl) && SecondTakes(op1, op2)
    ensures DerivesExpr(inp, pos, Ex(EBin(x, op1, Ex(EBin(y, op2, z)))), end, 0, sl)
  {
    hide IsInfix, SecondTakes, InfixBindingPower, M, WF, Follow, LeftOk;
    ComparePowers(op1, op2);
    InfixKinds(op1);
    InfixKinds(op2);
    OperandFollow(x, op1, sl);
    OperandFollow(y, op2, sl);
    OperandLeftOk(z, RightPower(op2));
    OperandLeftOk(x, 0);
    OperandLeftOk(y, RightPower(op1));
    var q := M(inp, pos, x);
    Infix(inp, q + 1, y, op2, z, M(inp, q + 1, y), end, sl);
    Infix(inp, pos, x, op1, Ex(EBin(y, op2, z)), q, end, sl);
    RightPowers(op1);
    RightPowers(op2);
  }

  lemma LeftShape(inp: Input, pos: nat, x: Syn, op1: Kind, y: Syn, op2: Kind, z: Syn, end: nat, sl: Switch)
    requires IsInfix(op1) && IsInfix(op2) && TwoOperators(inp, pos, x, op1, y, op2, z, end, sl)
             && !SecondTakes(op1, op2)
    ensures DerivesExpr(inp, pos, Ex(EBin(Ex(EBin(x, op1, y)), op2, z)), end, 0, sl)
  {
    hide IsInfix, SecondTakes, InfixBindingPower, M, WF, Follow, LeftOk;
    ComparePowers(op1, op2);
    InfixKinds(op1);
    InfixKinds(op2);
    OperandFollow(x, op1, sl);
    OperandFollow(y, op2, sl);
    OperandLeftOk(y, RightPower(op1));
    OperandLeftOk(z, RightPower(op2));
    OperandLeftOk(x, 0);
    ComparePowers(op1, op1);
    var q := M(inp, pos, x);
    var q2 := M(inp, q + 1, y);
    Infix(inp, pos, x, op1, y, q, q2, sl);
    Infix(inp, pos, Ex(EBin(x, op1, y)), op2, z, q2, end, sl);
    RightPowers(op2);
  }

  lemma RightPowers(k: Kind)
    requires IsInfix(k)
    ensures RightPower(k) >= 0
  {
    hide LevelOf, InfixBindingPower, IsInfix;
    PowerOfLevel(k);
    LevelsOfTwo(k, k);
  }

  /////////////////////////// a prefix operator ///////////////////////////

  /** A prefix operator binds tighter than every level: it takes the operand behind it, not the whole
      infix expression. Only `*x = y` is one form of its own, a projection assignment. */
  lemma PrefixFirst(inp: Input, pos: nat, op1: Kind, x: Syn, op2: Kind, y: Syn, end: nat, sl: Switch)
    requires op1 in PrefixOperators && IsInfix(op2) && KindAt(inp, pos) == op1
    requires IsOperand(x) && IsOperand(y) && WF(x, sl) && WF(y, sl)
    requires M(inp, pos + 1, x) >= 0 && KindAt(inp, M(inp, pos + 1, x)) == op2
    requires M(inp, M(inp, pos + 1, x) + 1, y) == end && Pull(KindAt(inp, end)) < 0 && Follow(y, KindAt(inp, end), sl)
    ensures RunExpr(inp, pos, 0, sl) == Ok(if op1 == Star && op2 == Eq then Ex(EProj(x, y))
                                           else Ex(EBin(Ex(EUnary(op1, x)), op2, y)), end)
  {
    hide RunExpr, IsInfix, InfixBindingPower, M, WF, Follow, LeftOk;
    InfixKinds(op2);
    ComparePowers(op2, op2);
    RightPowers(op2);
    OperandFollow(x, op2, sl);
    OperandLeftOk(x, 110);
    OperandLeftOk(y, RightPower(op2));
    var q := M(inp, pos + 1, x);
    Prefixed(inp, pos, op1, x, op2, q, sl);
    if op1 == Star && op2 == Eq {
      Projected(inp, pos, x, y, q, end, sl);
      CompleteExpr(inp, pos, Ex(EProj(x, y)), end, 0, sl);
    } else {
      Infix(inp, pos, Ex(EUnary(op1, x)), op2, y, q, end, sl);
      CompleteExpr(inp, pos, Ex(EBin(Ex(EUnary(op1, x)), op2, y)), end, 0, sl);
    }
  }

  lemma Prefixed(inp: Input, pos: nat, op: Kind, x: Syn, k: Kind, q: nat, sl: Switch)
    requires op in PrefixOperators && KindAt(inp, pos) == op && M(inp, pos + 1, x) == q
    requires x.Ex? && WF(x, sl) && LeftOk(x, 110) && Follow(x, k, sl) && Pull(k) < 110
    ensures WF(Ex(EUnary(op, x)), sl) && M(inp, pos, Ex(EUnary(op, x))) == q && LeftOk(Ex(EUnary(op, x)), 0)
    ensures !(op == Star && k == Eq) ==> Follow(Ex(EUnary(op, x)), k, sl)
  {
    hide MTail, MType, MPat, MField, MStmt, MPath;
    assert MExpr(inp, pos, EUnary(op, x)) == q;
  }

  lemma Projected(inp: Input, pos: nat, x: Syn, y: Syn, q: nat, end: nat, sl: Switch)
    requires KindAt(inp, pos) == Star && M(inp, pos + 1, x) == q && KindAt(inp, q) == Eq && M(inp, q + 1, y) == end
    requires x.Ex? && WF(x, sl) && LeftOk(x, 110) && Follow(x, Eq, sl) && y.Ex? && WF(y, sl)
    requires Pull(KindAt(inp, end)) < 0 && Follow(y, KindAt(inp, end), sl)
    ensures DerivesExpr(inp, pos, Ex(EProj(x, y)), end, 0, sl)
  {
    hide MTail, MType, MPat, MField, MStmt, MPath;
    assert MExpr(inp, pos, EProj(x, y)) == end;
    assert WFExpr(EProj(x, y), sl) && FollowExpr(EProj(x, y), KindAt(inp, end), sl);
  }

  /** Nothing but the four prefix operators is one. */
  lemma PrefixIff(k: Kind)
    ensures k in PrefixOperators <==> exists x, sl :: WF(Ex(EUnary(k, x)), sl)
  {
    hide WF;
    if k in PrefixOperators {
      PrefixForm(k);
      assert WF(Ex(EUnary(k, Ex(ELit))), On);
    }
    if x, sl :| WF(Ex(EUnary(k, x)), sl) { HasPrefix(k, x, sl); }
  }

  lemma PrefixForm(k: Kind)
    requires k in PrefixOperators
    ensures WF(Ex(EUnary(k, Ex(ELit))), On)
  {
    assert WFExpr(EUnary(k, Ex(ELit)), On);
  }

  lemma HasPrefix(k: Kind, x: Syn, sl: Switch)
    requires WF(Ex(EUnary(k, x)), sl)
    ensures k in PrefixOperators
  {
    assert WFExpr(EUnary(k, x), sl);
  }
}
