/** The printer of expressions spends as few parentheses as any well-formed tree. */
module Parentheses {
  import opened Tokens
  import opened Grammar
  import opened Soundness
  import opened Completeness
  import opened Pratt

  /** The parentheses of a printable tree. */
  function Parens(s: Syn): nat
    decreases s
  {
    if !s.Ex? then 0 else
    match s.e
    case EParen(i) => 1 + Parens(i)
    case ETuple(items, _) => AllParens(items)
    case EArray(items, _) => AllParens(items)
    case EUnary(_, a) => Parens(a)
    case EProj(a, r) => Parens(a) + Parens(r)
    case EBin(l, _, r) => Parens(l) + Parens(r)
    case ECall(b, args) => Parens(b) + AllParens(args)
    case EField(b) => Parens(b)
    case ETupleIdx(b) => Parens(b)
    case EIndex(b, items, _) => Parens(b) + AllParens(items)
    case ETry(b) => Parens(b)
    case _ => 0
  }

  function AllParens(l: Syns): nat
    decreases l
  {
    if l.Nil? then 0 else Parens(l.hd) + AllParens(l.tl)
  }

  function Outer(s: Syn): nat { if s.Ex? && s.e.EParen? then 1 else 0 }

  // Well-formed, and an expression of the printer once its parentheses are forgotten.
  ghost predicate Spells(t: Syn, sl: Switch) { t.Ex? && WF(t, sl) && Plain(Strip(t)) }

  // Of a left spine only the operator at the top matters.
  lemma {:induction false} TopDecides(s: Syn, m: int, sl: Switch)
    requires s.Ex? && WF(s, sl)
    ensures LeftOk(s, m) <==> (s.e.EBin? ==> LeftPower(s.e.op) >= m)
    decreases s
  {
    hide LeftPower, RightPower, WF;
    DefWF(s, sl);
    if IsTail(s.e) {
      TopDecides(Head(s.e), m, sl);
      TopBinds(s.e, sl);
    }
  }

  lemma DefFollow(s: Syn, k: Kind, sl: Switch)
    requires s.Ex?
    ensures Follow(s, k, sl) == FollowExpr(s.e, k, sl)
  {
  }

  // The left operand binds at least as tightly as the operator behind it.
  lemma TopBinds(e: ExprForm, sl: Switch)
    requires IsTail(e) && WFExpr(e, sl)
    ensures var l := Head(e); l.Ex? && WF(l, sl) && (l.e.EBin? ==> e.EBin? && LeftPower(l.e.op) >= LeftPower(e.op))
  {
    hide LeftOk, WF, Follow;
    var l, k := Head(e), if e.EBin? then e.op else if e.ECast? then KwAs else PostfixToken(e);
    assert Follow(l, k, sl);
    DefFollow(l, k, sl);
    assert l.e.EBin? ==> Pull(k) < RightPower(l.e.op);
  }

  /** No well-formed tree spells an expression with fewer parentheses than the printer's; one whose
      own outside is a parenthesis spends at least one more. */
  lemma {:induction false} Fewest(t: Syn, sl: Switch)
    requires Spells(t, sl)
    ensures Parens(MinParens(Strip(t))) + Outer(t) <= Parens(t)
    decreases t, 0
  {
    hide WF, Follow, LeftOk, LeftPower, RightPower, MinParens, Strip, Before, After, Target, Plain, Parens;
    Parts(t, sl);
    PartLists(t, sl);
    Costs(t);
    TailCosts(t);
    match t.e
    case EParen(i) => Fewest(i, On);
    case ETuple(items, _) => FewestAll(items);
    case EArray(items, _) => FewestAll(items);
    case EUnary(_, a) => AfterCost(a, 110, sl);
    case EProj(a, r) => TargetCost(a, sl); Fewest(r, sl);
    case EBin(l, op, r) => BeforeCost(l, op, sl); AfterCost(r, RightPower(op), sl);
    case ECall(b, args) => BeforeCost(b, LParen, sl); FewestAll(args);
    case EField(b) => BeforeCost(b, Dot, sl);
    case ETupleIdx(b) => BeforeCost(b, Dot, sl);
    case EIndex(b, items, _) => BeforeCost(b, LSquare, sl); FewestAll(items);
    case ETry(b) => BeforeCost(b, Question, sl);
    case _ =>
  }

  lemma DefWF(t: Syn, sl: Switch)
    requires t.Ex?
    ensures WF(t, sl) == WFExpr(t.e, sl)
  {
  }

  // The printer's tree over a tree of each form, and what both cost.
  lemma Costs(t: Syn)
    requires t.Ex?
    ensures var p := MinParens(Strip(t));
            match t.e
            case EParen(i) => p == MinParens(Strip(i)) && Parens(t) == 1 + Parens(i)
            case ETuple(l, _) =>
              p.Ex? && p.e.ETuple? && Parens(p) == AllParens(AllMin(StripAll(l))) && Parens(t) == AllParens(l)
            case EArray(l, _) =>
              p.Ex? && p.e.EArray? && Parens(p) == AllParens(AllMin(StripAll(l))) && Parens(t) == AllParens(l)
            case EUnary(op, a) =>
              var q := After(MinParens(Strip(a)), 110);
              p == Ex(EUnary(op, q)) && Parens(p) == Parens(q) && Parens(t) == Parens(a)
            case EProj(a, r) =>
              var q, u := Target(MinParens(Strip(a))), MinParens(Strip(r));
              p == Ex(EProj(q, u)) && Parens(p) == Parens(q) + Parens(u) && Parens(t) == Parens(a) + Parens(r)
            case EBin(l, op, r) =>
              var q, u := Before(MinParens(Strip(l)), op), After(MinParens(Strip(r)), RightPower(op));
              p == Ex(EBin(q, op, u)) && Parens(p) == Parens(q) + Parens(u) && Parens(t) == Parens(l) + Parens(r)
            case ECall(_, _) => true
            case EIndex(_, _, _) => true
            case EField(_) => true
            case ETupleIdx(_) => true
            case ETry(_) => true
            case _ => p == t && Parens(p) == 0
  {
    hide Before, After, Target, RightPower;
  }

  // The same for the postfix forms.
  lemma TailCosts(t: Syn)
    requires t.Ex?
    ensures var p := MinParens(Strip(t));
            match t.e
            case ECall(b, l) =>
              && Parens(p) == Parens(Before(MinParens(Strip(b)), LParen)) + AllParens(AllMin(StripAll(l)))
              && Parens(t) == Parens(b) + AllParens(l) && p.Ex? && p.e.ECall?
            case EIndex(b, l, _) =>
              && Parens(p) == Parens(Before(MinParens(Strip(b)), LSquare)) + AllParens(AllMin(StripAll(l)))
              && Parens(t) == Parens(b) + AllParens(l) && p.Ex? && p.e.EIndex?
            case EField(b) =>
              var q := Before(MinParens(Strip(b)), Dot);
              p == Ex(EField(q)) && Parens(p) == Parens(q) && Parens(t) == Parens(b)
            case ETupleIdx(b) =>
              var q := Before(MinParens(Strip(b)), Dot);
              p == Ex(ETupleIdx(q)) && Parens(p) == Parens(q) && Parens(t) == Parens(b)
            case ETry(b) =>
              var q := Before(MinParens(Strip(b)), Question);
              p == Ex(ETry(q)) && Parens(p) == Parens(q) && Parens(t) == Parens(b)
            case _ => true
  {
    hide Before, After, Target, RightPower;
  }

  // What the parts of such a tree are.
  lemma Parts(t: Syn, sl: Switch)
    requires Spells(t, sl)
    ensures t.e.EParen? ==> Spells(t.e.inner, On)
    ensures t.e.EUnary? ==> Spells(t.e.arg, sl) && LeftOk(t.e.arg, 110)
    ensures t.e.EProj? ==> && Spells(t.e.arg, sl) && LeftOk(t.e.arg, 110) && Follow(t.e.arg, Eq, Off)
                           && Spells(t.e.rhs, sl)
    ensures t.e.EBin? ==> && Spells(t.e.left, sl) && Follow(t.e.left, t.e.op, Off) && t.e.op != LBrace
                          && Spells(t.e.right, sl) && LeftOk(t.e.right, RightPower(t.e.op))
    ensures IsTail(t.e) && !t.e.EBin? && !t.e.ECast? && !t.e.EFloatIdx? ==>
              Spells(t.e.base, sl) && Follow(t.e.base, PostfixToken(t.e), Off)
    ensures !t.e.ECast? && !t.e.EFloatIdx?
  {
    hide Follow, LeftOk, LeftPower, RightPower, WF, Plain;
    assert WFExpr(t.e, sl) by { DefWF(t, sl); }
    MinStep(Strip(t));
    if t.e.EBin? { InfixNotBrace(t.e.op); FollowSl(t.e.left, t.e.op, sl); }
    else if t.e.EProj? { FollowSl(t.e.arg, Eq, sl); }
    else if IsTail(t.e) { FollowSl(t.e.base, PostfixToken(t.e), sl); }
  }

  lemma PartLists(t: Syn, sl: Switch)
    requires Spells(t, sl)
    ensures t.e.ECall? ==> AllSpell(t.e.args)
    ensures t.e.ETuple? || t.e.EArray? || t.e.EIndex? ==> AllSpell(t.e.items)
  {
    hide Follow, LeftOk, Plain, WF;
    MinStep(Strip(t));
    DefWF(t, sl);
    ListsFit(t.e, sl);
  }

  lemma ListsFit(e: ExprForm, sl: Switch)
    requires WFExpr(e, sl)
    ensures e.ECall? ==> WFAll(CExpr, e.args, On)
    ensures e.ETuple? || e.EArray? || e.EIndex? ==> WFAll(CExpr, e.items, On)
  {
    hide Follow, LeftOk, WF;
  }

  ghost predicate AllSpell(l: Syns) { WFAll(CExpr, l, On) && AllPlain(StripAll(l)) }

  lemma {:induction false} FewestAll(l: Syns)
    requires AllSpell(l)
    ensures AllParens(AllMin(StripAll(l))) <= AllParens(l)
    decreases l, 0
  {
    hide WF, MinParens, Strip, Plain, Parens;
    if l.Cons? {
      Fewest(l.hd, On);
      FewestAll(l.tl);
    }
  }

  // A right operand costs the printer no more.
  lemma {:induction false} AfterCost(a: Syn, m: int, sl: Switch)
    requires Spells(a, sl) && LeftOk(a, m)
    ensures Parens(After(MinParens(Strip(a)), m)) <= Parens(a)
    decreases a, 1
  {
    hide WF, Follow, LeftOk, MinParens, Strip, Plain;
    Fewest(a, sl);
    if !a.e.EParen? { SameTop(a, m, sl); }
  }

  // Without parentheses around it the tree and the printer's begin with the same operator.
  lemma SameTop(a: Syn, m: int, sl: Switch)
    requires Spells(a, sl) && !a.e.EParen?
    ensures LeftOk(MinParens(Strip(a)), m) == LeftOk(a, m)
  {
    hide WF, Follow, LeftOk, LeftPower, RightPower, Before, After, Target, Plain;
    MinParensOk(Strip(a));
    TopDecides(a, m, sl);
    TopDecides(MinParens(Strip(a)), m, On);
  }

  // Neither does a left operand.
  lemma {:induction false} BeforeCost(a: Syn, k: Kind, sl: Switch)
    requires Spells(a, sl) && Follow(a, k, Off) && k != LBrace
    ensures Parens(Before(MinParens(Strip(a)), k)) <= Parens(a)
    decreases a, 1
  {
    hide WF, Follow, LeftOk, MinParens, Strip, Plain;
    Fewest(a, sl);
    if !a.e.EParen? && !Follow(MinParens(Strip(a)), k, Off) { Deeper(a, k, sl); }
  }

  // Nor the target of an assignment through a projection.
  lemma {:induction false} TargetCost(a: Syn, sl: Switch)
    requires Spells(a, sl) && LeftOk(a, 110) && Follow(a, Eq, Off)
    ensures Parens(Target(MinParens(Strip(a)))) <= Parens(a)
    decreases a, 1
  {
    hide WF, Follow, LeftOk, MinParens, Strip, Plain;
    Fewest(a, sl);
    if !a.e.EParen? {
      SameTop(a, 110, sl);
      if !Follow(MinParens(Strip(a)), Eq, Off) { Deeper(a, Eq, sl); }
    }
  }

  /** Where the printer brackets a left operand because its right spine would take the next token, a
      tree that does not bracket it there has a parenthesis of its own further down that spine. */
  lemma {:induction false} Deeper(t: Syn, k: Kind, sl: Switch)
    requires Spells(t, sl) && !t.e.EParen? && k != LBrace
    requires Follow(t, k, Off) && !Follow(MinParens(Strip(t)), k, Off)
    ensures Parens(MinParens(Strip(t))) < Parens(t)
    decreases t, 0
  {
    hide WF, Follow, LeftOk, LeftPower, RightPower, MinParens, Strip, Before, Plain, Parens;
    Parts(t, sl);
    Costs(t);
    TailCosts(t);
    DefFollow(t, k, Off);
    DefFollow(MinParens(Strip(t)), k, Off);
    match t.e
    case EUnary(_, a) => AfterCost(a, 110, sl); FollowBracket(MinParens(Strip(a)), k); OnSpine(a, k, sl);
    case EProj(a, r) => TargetCost(a, sl); OnSpine(r, k, sl);
    case EBin(l, op, r) => BeforeCost(l, op, sl); FollowBracket(MinParens(Strip(r)), k); OnSpine(r, k, sl);
    case _ =>
  }

  lemma FollowBracket(s: Syn, k: Kind)
    ensures Follow(Bracket(s), k, Off)
  {
  }

  lemma {:induction false} OnSpine(r: Syn, k: Kind, sl: Switch)
    requires Spells(r, sl) && k != LBrace && Follow(r, k, Off) && !Follow(MinParens(Strip(r)), k, Off)
    ensures Parens(MinParens(Strip(r))) < Parens(r)
    decreases r, 1
  {
    hide WF, Follow, MinParens, Strip, Plain, Parens;
    if r.e.EParen? { Fewest(r, sl); } else { Deeper(r, k, sl); }
  }

  /** Where the fewest parentheses go is not determined: `(a + *x) = b` and `a + (*x) = b` spell the
      same expression, each with one, and neither can do without. */
  lemma NotUnique()
    ensures var name := Ex(EName(0));
            var deref := Ex(EUnary(Star, name));
            var outer := Ex(EBin(Bracket(Ex(EBin(name, Plus, deref))), Eq, name));
            var inner := Ex(EBin(Ex(EBin(name, Plus, Bracket(deref))), Eq, name));
            && Spells(outer, Off) && Spells(inner, Off) && Strip(outer) == Strip(inner)
            && Parens(outer) == Parens(inner) == Parens(MinParens(Strip(inner))) == 1
  {
    hide WF, Plain, Strip, Parens, MinParens;
    var name := Ex(EName(0));
    var deref := Ex(EUnary(Star, name));
    var sum := Ex(EBin(name, Plus, deref));
    var outer := Ex(EBin(Bracket(sum), Eq, name));
    var inner := Ex(EBin(Ex(EBin(name, Plus, Bracket(deref))), Eq, name));
    SumPlain(name, deref, sum);
    OneParen(name, deref, sum, outer, inner);
    OuterWF(name, deref, sum, outer);
    InnerWF(name, deref, inner);
  }

  lemma SumPlain(name: Syn, deref: Syn, sum: Syn)
    requires name == Ex(EName(0)) && deref == Ex(EUnary(Star, name)) && sum == Ex(EBin(name, Plus, deref))
    ensures Plain(Ex(EBin(sum, Eq, name)))
    ensures MinParens(Ex(EBin(sum, Eq, name))) == Ex(EBin(Bracket(sum), Eq, name))
  {
    assert MinParens(sum) == sum;
    assert !Follow(sum, Eq, Off);
  }

  lemma OneParen(name: Syn, deref: Syn, sum: Syn, outer: Syn, inner: Syn)
    requires name == Ex(EName(0)) && deref == Ex(EUnary(Star, name)) && sum == Ex(EBin(name, Plus, deref))
    requires outer == Ex(EBin(Bracket(sum), Eq, name))
    requires inner == Ex(EBin(Ex(EBin(name, Plus, Bracket(deref))), Eq, name))
    ensures Strip(outer) == Strip(inner) == Ex(EBin(sum, Eq, name)) && Parens(outer) == Parens(inner) == 1
  {
    hide Strip, Parens;
    StripStep(name);
    StripStep(deref);
    StripStep(sum);
    StripStep(Bracket(sum));
    StripStep(outer);
    StripStep(Bracket(deref));
    StripStep(inner.e.left);
    StripStep(inner);
  }

  lemma StripStep(s: Syn)
    requires s.Ex?
    ensures s.e.EName? ==> Strip(s) == s && Parens(s) == 0
    ensures s.e.EParen? ==> Strip(s) == Strip(s.e.inner) && Parens(s) == 1 + Parens(s.e.inner)
    ensures s.e.EUnary? ==> Strip(s) == Ex(EUnary(s.e.op, Strip(s.e.arg))) && Parens(s) == Parens(s.e.arg)
    ensures s.e.EBin? ==> && Strip(s) == Ex(EBin(Strip(s.e.left), s.e.op, Strip(s.e.right)))
                          && Parens(s) == Parens(s.e.left) + Parens(s.e.right)
  {
  }

  lemma OuterWF(name: Syn, deref: Syn, sum: Syn, outer: Syn)
    requires name == Ex(EName(0)) && deref == Ex(EUnary(Star, name)) && sum == Ex(EBin(name, Plus, deref))
    requires outer == Ex(EBin(Bracket(sum), Eq, name))
    ensures WF(outer, Off)
  {
    assert WF(deref, On);
    assert WF(sum, On);
    assert WF(Bracket(sum), Off);
  }

  lemma InnerWF(name: Syn, deref: Syn, inner: Syn)
    requires name == Ex(EName(0)) && deref == Ex(EUnary(Star, name))
    requires inner == Ex(EBin(Ex(EBin(name, Plus, Bracket(deref))), Eq, name))
    ensures WF(inner, Off)
  {
    assert WF(deref, On);
    assert WF(Bracket(deref), Off) && Follow(Bracket(deref), Eq, Off);
  }
}
