/** The parser on any tokens, as functions: what a call that begins at a position leaves behind, with
    diagnostics or without. Where a production fails, what is skipped and what is built is said here. */
module Recovery {
  import opened Tokens
  import opened Trees
  import opened Grammar
  import opened Spelling
  import opened ErrorFree
  import opened Outcomes
  import opened Pool
  import opened DeclGrammar
  import opened DeclRuns
  import opened Declarations
  import opened Productions

  /////////////////////////// where recovery stops ///////////////////////////

  // The tokens before which recovery stops: items, statements, and the end of a block.
  predicate IsSyncStart(k: Kind) {
    k == RBrace || k == KwFn || k == KwStruct || k == KwEnum || k == KwUnion || k == KwMod || k == KwUse || k == KwConst
    || k == KwTrait || k == KwImpl || k == KwUnsafe || k == KwBreak || k == KwContinue || k == KwLet || k == KwIf
    || k == KwWhile || k == KwFor || k == KwMatch || k == KwRet
  }

  // Where recovery may stop: at the end, behind a semicolon, or before one of those tokens.
  predicate IsSyncPoint(inp: Input, i: nat) {
    KindAt(inp, i) == Eof || KindAt(inp, i - 1) == Semi || IsSyncStart(KindAt(inp, i))
  }

  /** Recovery skips to the first such point and no further. */
  function SyncEnd(inp: Input, pos: nat): (r: nat)
    ensures pos <= r && IsSyncPoint(inp, r) && forall i :: pos <= i < r ==> !IsSyncPoint(inp, i)
    ensures pos <= |inp.toks| ==> r <= |inp.toks|
    decreases |inp.toks| - pos
  {
    if IsSyncPoint(inp, pos) then pos else SyncEnd(inp, pos + 1)
  }

  // Recovery takes one token at least, if there is one.
  function SyncFrom(inp: Input, pos: nat): (r: nat)
    ensures pos <= |inp.toks| ==> pos <= r <= |inp.toks| && (KindAt(inp, pos) != Eof ==> pos < r)
  {
    SyncEnd(inp, if KindAt(inp, pos) == Eof then pos else pos + 1)
  }

  // Tokens that a failing expression leaves in the stream.
  predicate IsSync(k: Kind) { k == Semi || k == RBrace || k == RParen || k == RSquare || k == Comma }

  /** The first of some kinds from `pos` on, or the end of the file. */
  function FirstOf(inp: Input, pos: nat, kinds: set<Kind>): (r: nat)
    requires pos <= |inp.toks|
    ensures pos <= r <= |inp.toks| && (KindAt(inp, r) in kinds || KindAt(inp, r) == Eof)
    ensures forall i :: pos <= i < r ==> KindAt(inp, i) !in kinds && KindAt(inp, i) != Eof
    decreases |inp.toks| - pos
  {
    if KindAt(inp, pos) in kinds || KindAt(inp, pos) == Eof then pos else FirstOf(inp, pos + 1, kinds)
  }

  /** The first token from `pos` on that is no path separator. */
  function PastSeparators(inp: Input, pos: nat): (r: nat)
    requires pos <= |inp.toks|
    ensures pos <= r <= |inp.toks| && KindAt(inp, r) != ColonColon
    ensures forall i :: pos <= i < r ==> KindAt(inp, i) == ColonColon
    decreases |inp.toks| - pos
  {
    if KindAt(inp, pos) == ColonColon then PastSeparators(inp, pos + 1) else pos
  }

  /////////////////////////// pieces of outcomes ///////////////////////////

  // Behind a wanted token, or where it is missing.
  function Past(inp: Input, pos: nat, k: Kind): (r: nat)
    requires k != Eof
    ensures pos <= r <= pos + 1 && (pos <= |inp.toks| ==> r <= |inp.toks|)
  {
    if KindAt(inp, pos) == k then pos + 1 else pos
  }

  function Next(inp: Input, pos: nat): nat { if pos < |inp.toks| then pos + 1 else pos }

  // The range of the token before `pos`; at the very beginning that of the first token.
  function PrevSpan(inp: Input, pos: nat): Span {
    if pos > 0 then TokenAt(inp, pos - 1).span else if |inp.toks| == 0 then Span(0, 0) else inp.toks[0].span
  }

  function PrevEnd(inp: Input, pos: nat): nat { PrevSpan(inp, pos).end }

  // A failure: an error node over the token at `at`, and the parser at `end`.
  function Wrong(inp: Input, at: nat, end: nat): Out { Out(false, end, Leaf(Error, TokenAt(inp, at).span, Zero)) }

  predicate IsErrorTree(t: Tree) { t.Tree? && t.kind == Error }

  // One outcome behind another, and lists of them.
  function AndThen(x: Out, y: Out): Out { Out(x.ok && y.ok, y.end, y.tree) }

  function Onto(x: ListOut, y: ListOut): ListOut { ListOut(x.ok && y.ok, y.end, x.trees + y.trees) }

  function None(pos: nat): ListOut { ListOut(true, pos, []) }

  // A node that a closing token ends, read or reported behind `end`.
  function Closing(inp: Input, ok: bool, end: nat, k: Kind, t: Tree): Out
    requires k != Eof
  {
    Out(ok && KindAt(inp, end) == k, Past(inp, end, k), t)
  }

  lemma OntoOnto(x: ListOut, y: ListOut, z: ListOut)
    ensures Onto(Onto(x, y), z) == Onto(x, Onto(y, z))
  {
    assert (x.trees + y.trees) + z.trees == x.trees + (y.trees + z.trees);
  }

  // A loop that has `l` behind it reads one more.
  lemma OneMore(l: ListOut, x: Out, rest: ListOut)
    ensures Onto(l, Onto(OneOut(x), rest)) == Onto(ListOut(l.ok && x.ok, x.end, l.trees + [x.tree]), rest)
  {
    OntoOnto(l, OneOut(x), rest);
  }

  // A loop that has `l` behind it stops at `end`.
  lemma NoMore(l: ListOut, end: nat)
    ensures Onto(l, None(end)) == ListOut(l.ok, end, l.trees)
  {
    assert l.trees + [] == l.trees;
  }

  lemma FromNone(pos: nat, l: ListOut)
    ensures Onto(None(pos), l) == l
  {
    assert [] + l.trees == l.trees;
  }

  /////////////////////////// paths ///////////////////////////

  datatype PathOut = PathOut(ok: bool, end: nat)

  // `::` name, any number of times; each further `::` in a row and each missing name is reported.
  function TakeSegs(inp: Input, pos: nat): (r: PathOut)
    requires pos <= |inp.toks|
    ensures pos <= r.end <= |inp.toks|
    decreases |inp.toks| - pos
  {
    if KindAt(inp, pos) != ColonColon then PathOut(true, pos) else
    var q := PastSeparators(inp, pos + 1);
    var more := TakeSegs(inp, Past(inp, q, Identifier));
    PathOut(q == pos + 1 && KindAt(inp, q) == Identifier && more.ok, more.end)
  }

  // While segments are read from `p0` on: clean so far or not, and now at `pos`.
  ghost predicate SegsTaken(inp: Input, p0: nat, ok: bool, pos: nat) {
    p0 <= |inp.toks| && pos <= |inp.toks|
    && TakeSegs(inp, p0) == PathOut(ok && TakeSegs(inp, pos).ok, TakeSegs(inp, pos).end)
  }

  lemma TakenStart(inp: Input, p0: nat)
    requires p0 <= |inp.toks|
    ensures SegsTaken(inp, p0, true, p0)
  {
    hide TakeSegs;
  }

  lemma TakenStep(inp: Input, p0: nat, ok: bool, p: nat, clean: bool, z: nat)
    requires SegsTaken(inp, p0, ok, p) && KindAt(inp, p) == ColonColon
    requires var q := PastSeparators(inp, p + 1);
             z == Past(inp, q, Identifier) && clean == (q == p + 1 && KindAt(inp, q) == Identifier)
    ensures SegsTaken(inp, p0, ok && clean, z)
  {
  }

  lemma TakenExit(inp: Input, p0: nat, ok: bool, pos: nat)
    requires SegsTaken(inp, p0, ok, pos) && KindAt(inp, pos) != ColonColon
    ensures TakeSegs(inp, p0) == PathOut(ok, pos)
  {
  }

  // The range of a path whose first token is at `pos`.
  function PathRange(inp: Input, pos: nat, end: nat): Span { Span(StartOf(inp, pos), EndOf(inp, end - 1)) }

  /////////////////////////// comma lists ///////////////////////////

  // What a comma-separated list holds.
  datatype Elem = AType | APat | AFieldPat | AFieldInit | AConst | AField | AVariant

  function CloseOf(e: Elem): Kind {
    match e
    case AType => RParen
    case APat => RParen
    case AFieldPat => RBrace
    case AFieldInit => RBrace
    case AConst => RSquare
    case AField => RBrace
    case AVariant => RBrace
  }

  function TakeComma(inp: Input, pos: nat, e: Elem, sl: Switch): (r: ListOut)
    requires pos <= |inp.toks|
    ensures pos <= r.end <= |inp.toks|
    decreases |inp.toks| - pos, 8
  {
    if KindAt(inp, pos) == CloseOf(e) || KindAt(inp, pos) == Eof then None(pos) else
    var x := TakeElem(inp, pos, e, sl);
    Onto(OneOut(x), TakeMore(inp, x.end, e, sl))
  }

  lemma CommaTaken(inp: Input, pos: nat, e: Elem, sl: Switch)
    requires pos <= |inp.toks|
    ensures TakeComma(inp, pos, e, sl)
            == if KindAt(inp, pos) == CloseOf(e) || KindAt(inp, pos) == Eof then None(pos)
               else
                 var x := TakeElem(inp, pos, e, sl);
                 var l := TakeMore(inp, x.end, e, sl);
                 ListOut(x.ok && l.ok, l.end, [x.tree] + l.trees)
  {
    hide TakeElem, TakeMore;
  }

  function TakeMore(inp: Input, pos: nat, e: Elem, sl: Switch): (r: ListOut)
    requires pos <= |inp.toks|
    ensures pos <= r.end <= |inp.toks|
    decreases |inp.toks| - pos, 7
  {
    if KindAt(inp, pos) != Comma then None(pos)
    else if KindAt(inp, pos + 1) == CloseOf(e) then None(pos + 1)
    else
      var x := TakeElem(inp, pos + 1, e, sl);
      Onto(OneOut(x), TakeMore(inp, x.end, e, sl))
  }

  // A loop that has `l` behind it.
  ghost predicate MoreTaken(inp: Input, p0: nat, e: Elem, sl: Switch, l: ListOut) {
    p0 <= |inp.toks| && l.end <= |inp.toks| && TakeMore(inp, p0, e, sl) == Onto(l, TakeMore(inp, l.end, e, sl))
  }

  lemma MoreTakenStart(inp: Input, p0: nat, e: Elem, sl: Switch)
    requires p0 <= |inp.toks|
    ensures MoreTaken(inp, p0, e, sl, None(p0))
  {
    hide TakeMore;
    FromNone(p0, TakeMore(inp, p0, e, sl));
  }

  lemma MoreTakenStep(inp: Input, p0: nat, e: Elem, sl: Switch, l: ListOut, x: Out)
    requires MoreTaken(inp, p0, e, sl, l) && KindAt(inp, l.end) == Comma && KindAt(inp, l.end + 1) != CloseOf(e)
    requires x == TakeElem(inp, l.end + 1, e, sl)
    ensures MoreTaken(inp, p0, e, sl, ListOut(l.ok && x.ok, x.end, l.trees + [x.tree]))
  {
    hide TakeElem;
    OneMore(l, x, TakeMore(inp, x.end, e, sl));
  }

  lemma MoreTakenExit(inp: Input, p0: nat, e: Elem, sl: Switch, l: ListOut)
    requires MoreTaken(inp, p0, e, sl, l)
    ensures KindAt(inp, l.end) != Comma ==> TakeMore(inp, p0, e, sl) == l
    ensures KindAt(inp, l.end) == Comma && KindAt(inp, l.end + 1) == CloseOf(e) ==>
            TakeMore(inp, p0, e, sl) == ListOut(l.ok, l.end + 1, l.trees)
  {
    hide TakeElem;
    NoMore(l, l.end);
    NoMore(l, l.end + 1);
  }

  // One element; if it fails, the tokens up to the next comma or the closing token are skipped.
  function TakeElem(inp: Input, pos: nat, e: Elem, sl: Switch): (r: Out)
    requires pos <= |inp.toks|
    ensures pos <= r.end <= |inp.toks|
    decreases |inp.toks| - pos, 6
  {
    var x := TakeOne(inp, pos, e, sl);
    if x.ok then x else Out(false, FirstOf(inp, x.end, {Comma, CloseOf(e)}), x.tree)
  }

  function TakeOne(inp: Input, pos: nat, e: Elem, sl: Switch): (r: Out)
    requires pos <= |inp.toks|
    ensures pos <= r.end <= |inp.toks|
    decreases |inp.toks| - pos, 5
  {
    match e
    case AType => TakeType(inp, pos, sl)
    case APat => TakePat(inp, pos, sl)
    case AFieldPat => TakeFieldPat(inp, pos, sl)
    case AFieldInit => TakeFieldInit(inp, pos, sl)
    case AConst => TakeExpr(inp, pos, 0, sl)
    case AField => TakeField(inp, pos, sl)
    case AVariant => TakeVariant(inp, pos, sl)
  }

  function TakeFieldPat(inp: Input, pos: nat, sl: Switch): (r: Out)
    requires pos <= |inp.toks|
    ensures pos <= r.end <= |inp.toks|
    decreases |inp.toks| - pos, 0
  {
    var name := Name(TokText(inp, pos));
    if KindAt(inp, pos) != Identifier then Wrong(inp, pos, pos)
    else if KindAt(inp, pos + 1) == Colon then
      var x := TakePat(inp, pos + 2, sl);
      Out(x.ok, x.end, Node(FieldPat, StartOf(inp, pos), SpanOf(x.tree).end, name, [x.tree]))
    else Out(true, pos + 1, Leaf(FieldPat, TokenAt(inp, pos).span, name))
  }

  function TakeFieldInit(inp: Input, pos: nat, sl: Switch): (r: Out)
    requires pos <= |inp.toks|
    ensures pos <= r.end <= |inp.toks|
    decreases |inp.toks| - pos, 0
  {
    var name, span := Name(TokText(inp, pos)), TokenAt(inp, pos).span;
    if KindAt(inp, pos) != Identifier then Wrong(inp, pos, pos)
    else if KindAt(inp, pos + 1) == Colon then
      var x := TakeExpr(inp, pos + 2, 0, sl);
      Out(x.ok, x.end, Node(FieldInit, span.start, SpanOf(x.tree).end, name, [x.tree]))
    else Out(true, pos + 1, Tree(FieldInit, span, name, 0, [Leaf(IdentExpr, span, name)]))
  }

  // The expressions behind the first of a bracketed list.
  function TakeMoreExprs(inp: Input, pos: nat, lk: ListKind): (r: ListOut)
    requires pos <= |inp.toks|
    ensures pos <= r.end <= |inp.toks|
    decreases |inp.toks| - pos, 4
  {
    if KindAt(inp, pos) != Comma then None(pos)
    else if IsStop(lk, KindAt(inp, pos + 1)) then None(pos + 1)
    else
      var x := TakeExpr(inp, pos + 1, 0, On);
      Onto(OneOut(x), TakeMoreExprs(inp, x.end, lk))
  }

  // A loop that has `l` behind it.
  ghost predicate ExprsTaken(inp: Input, p0: nat, lk: ListKind, l: ListOut) {
    p0 <= |inp.toks| && l.end <= |inp.toks| && TakeMoreExprs(inp, p0, lk) == Onto(l, TakeMoreExprs(inp, l.end, lk))
  }

  lemma ExprsTakenStart(inp: Input, p0: nat, lk: ListKind)
    requires p0 <= |inp.toks|
    ensures ExprsTaken(inp, p0, lk, None(p0))
  {
    hide TakeMoreExprs;
    FromNone(p0, TakeMoreExprs(inp, p0, lk));
  }

  lemma ExprsTakenStep(inp: Input, p0: nat, lk: ListKind, l: ListOut, x: Out)
    requires ExprsTaken(inp, p0, lk, l) && KindAt(inp, l.end) == Comma && !IsStop(lk, KindAt(inp, l.end + 1))
    requires x == TakeExpr(inp, l.end + 1, 0, On)
    ensures ExprsTaken(inp, p0, lk, ListOut(l.ok && x.ok, x.end, l.trees + [x.tree]))
  {
    hide TakeExpr, IsStop;
    OneMore(l, x, TakeMoreExprs(inp, x.end, lk));
  }

  lemma ExprsTakenExit(inp: Input, p0: nat, lk: ListKind, l: ListOut)
    requires ExprsTaken(inp, p0, lk, l)
    ensures KindAt(inp, l.end) != Comma ==> TakeMoreExprs(inp, p0, lk) == l
    ensures KindAt(inp, l.end) == Comma && IsStop(lk, KindAt(inp, l.end + 1)) ==>
            TakeMoreExprs(inp, p0, lk) == ListOut(l.ok, l.end + 1, l.trees)
  {
    hide TakeExpr, IsStop;
    NoMore(l, l.end);
    NoMore(l, l.end + 1);
  }

  function TakeExprItems(inp: Input, pos: nat, lk: ListKind): (r: ListOut)
    requires pos <= |inp.toks|
    ensures pos <= r.end <= |inp.toks| && |r.trees| >= 1
    ensures !IsSync(KindAt(inp, pos)) && pos < |inp.toks| ==> pos < r.end
    decreases |inp.toks| - pos, 5
  {
    var x := TakeExpr(inp, pos, 0, On);
    Onto(OneOut(x), TakeMoreExprs(inp, x.end, lk))
  }

  /////////////////////////// expressions ///////////////////////////

  function TakeExpr(inp: Input, pos: nat, m: int, sl: Switch): (r: Out)
    requires pos <= |inp.toks| && m >= 0
    ensures pos <= r.end <= |inp.toks|
    ensures !IsSync(KindAt(inp, pos)) && pos < |inp.toks| ==> pos < r.end
    decreases |inp.toks| - pos, 3
  {
    var x := TakePrefix(inp, pos, sl);
    AndThen(x, TakeOps(inp, x.end, x.tree, m, sl))
  }

  // What continues the expression `t`. A right operand that fails altogether takes its place.
  function TakeOps(inp: Input, pos: nat, t: Tree, m: int, sl: Switch): (r: Out)
    requires pos <= |inp.toks| && m >= 0
    ensures pos <= r.end <= |inp.toks|
    decreases |inp.toks| - pos, 2
  {
    var p := TakePostfix(inp, pos, t, sl);
    var k := KindAt(inp, p.end);
    if LeftPower(k) < m then p else
    var q := AndThen(p, TakeExpr(inp, p.end + 1, RightPower(k), sl));
    if IsErrorTree(q.tree) then q
    else AndThen(q, TakeOps(inp, q.end, Infix(p.tree, k, q.tree), m, sl))
  }

  // One turn of the loop.
  lemma OpsTurn(inp: Input, pos: nat, t: Tree, m: int, sl: Switch)
    requires pos <= |inp.toks| && m >= 0
    ensures var p := TakePostfix(inp, pos, t, sl);
            var k := KindAt(inp, p.end);
            && (LeftPower(k) < m ==> TakeOps(inp, pos, t, m, sl) == p)
            && (LeftPower(k) >= m ==>
                var q := AndThen(p, TakeExpr(inp, p.end + 1, RightPower(k), sl));
                TakeOps(inp, pos, t, m, sl)
                == if IsErrorTree(q.tree) then q
                   else AndThen(q, TakeOps(inp, q.end, Infix(p.tree, k, q.tree), m, sl)))
  {
    hide TakePostfix, TakeExpr, InfixBindingPower;
    OperatorThere(KindAt(inp, TakePostfix(inp, pos, t, sl).end));
  }

  // The loop of an expression that began at `start` and has `b` behind it.
  ghost predicate OpsTaken(inp: Input, start: nat, m: int, sl: Switch, b: Out) {
    && start <= |inp.toks| && b.end <= |inp.toks| && m >= 0
    && TakeExpr(inp, start, m, sl) == AndThen(b, TakeOps(inp, b.end, b.tree, m, sl))
  }

  lemma OpsTakenStart(inp: Input, start: nat, m: int, sl: Switch, b: Out)
    requires start <= |inp.toks| && m >= 0 && b == TakePrefix(inp, start, sl)
    ensures OpsTaken(inp, start, m, sl, b)
  {
    hide TakePrefix, TakeOps;
  }

  lemma OpsTakenStep(inp: Input, start: nat, m: int, sl: Switch, b: Out, x: Out, q: Out, b1: Out)
    requires OpsTaken(inp, start, m, sl, b) && x == TakePostfix(inp, b.end, b.tree, sl)
    requires var k := KindAt(inp, x.end);
             && LeftPower(k) >= m && x.end < |inp.toks| && RightPower(k) >= 0
             && q == TakeExpr(inp, x.end + 1, RightPower(k), sl)
             && b1 == Out(b.ok && x.ok && q.ok, q.end, if IsErrorTree(q.tree) then q.tree else Infix(x.tree, k, q.tree))
    ensures if IsErrorTree(q.tree) then TakeExpr(inp, start, m, sl) == b1 else OpsTaken(inp, start, m, sl, b1)
  {
    hide TakePostfix, TakeExpr, TakeOps, InfixBindingPower;
    OpsTurn(inp, b.end, b.tree, m, sl);
  }

  lemma OpsTakenExit(inp: Input, start: nat, m: int, sl: Switch, b: Out, x: Out)
    requires OpsTaken(inp, start, m, sl, b) && x == TakePostfix(inp, b.end, b.tree, sl)
    requires LeftPower(KindAt(inp, x.end)) < m
    ensures TakeExpr(inp, start, m, sl) == AndThen(b, x)
  {
    hide TakePostfix, TakeExpr, TakeOps, InfixBindingPower;
    OpsTurn(inp, b.end, b.tree, m, sl);
  }

  lemma OperatorThere(k: Kind)
    ensures LeftPower(k) >= 0 ==> k != Eof && RightPower(k) >= 0
  {
  }

  function Infix(l: Tree, k: Kind, r: Tree): Tree {
    Node(BinaryExpr, SpanOf(l).start, SpanOf(r).end, Op(k), [l, r])
  }

  function TakePrefix(inp: Input, pos: nat, sl: Switch): (r: Out)
    requires pos <= |inp.toks|
    ensures pos <= r.end <= |inp.toks|
    ensures !IsSync(KindAt(inp, pos)) && pos < |inp.toks| ==> pos < r.end
    decreases |inp.toks| - pos, 2
  {
    var k := KindAt(inp, pos);
    if IsLiteral(k) then
      Out(true, pos + 1, Leaf(LitExpr, TokenAt(inp, pos).span, NameRegime(TokText(inp, pos), NoRegime)))
    else if k == Identifier then TakeName(inp, pos, sl)
    else if k == LParen then TakeParen(inp, pos)
    else if k == LSquare then TakeArray(inp, pos)
    else if k == KwIf then TakeIf(inp, pos, sl)
    else if k == KwWhile then TakeWhile(inp, pos, sl)
    else if k == KwMatch then TakeMatch(inp, pos, sl)
    else if k == KwUnsafe then TakeUnsafe(inp, pos, sl)
    else if k == LBrace then TakeBlock(inp, pos, sl)
    else if k == KwTensor then TakeTensor(inp, pos, sl)
    else if IsPrefixOp(k) then TakeUnary(inp, pos, sl)
    else Wrong(inp, pos, if IsSync(k) then pos else Next(inp, pos))
  }

  function TakeName(inp: Input, pos: nat, sl: Switch): (r: Out)
    requires pos <= |inp.toks| && KindAt(inp, pos) == Identifier
    ensures pos < r.end <= |inp.toks|
    decreases |inp.toks| - pos, 1
  {
    var s := TakeSegs(inp, pos + 1);
    var path := PathRange(inp, pos, s.end);
    var name := Name(TextOf(inp.src, path));
    if sl.On? && KindAt(inp, s.end) == LBrace then
      var l := TakeComma(inp, s.end + 1, AFieldInit, On);
      Closing(inp, s.ok && l.ok, l.end, RBrace, Node(StructLitExpr, path.start, EndOf(inp, l.end), name, l.trees))
    else Out(s.ok, s.end, Leaf(if s.end > pos + 1 then PathExpr else IdentExpr, path, name))
  }

  function TakeParen(inp: Input, pos: nat): (r: Out)
    requires pos <= |inp.toks| && KindAt(inp, pos) == LParen
    ensures pos < r.end <= |inp.toks|
    decreases |inp.toks| - pos, 1
  {
    var a := StartOf(inp, pos);
    if KindAt(inp, pos + 1) == RParen then Out(true, pos + 2, Leaf(TupleExpr, Span(a, EndOf(inp, pos + 1)), Zero)) else
    var x := TakeExpr(inp, pos + 1, 0, On);
    if KindAt(inp, x.end) == Comma then
      var l := TakeMoreExprs(inp, x.end, LTuple);
      Closing(inp, x.ok && l.ok, l.end, RParen, Node(TupleExpr, a, EndOf(inp, l.end), Zero, [x.tree] + l.trees))
    else Closing(inp, x.ok, x.end, RParen, x.tree)
  }

  function TakeArray(inp: Input, pos: nat): (r: Out)
    requires pos <= |inp.toks| && KindAt(inp, pos) == LSquare
    ensures pos < r.end <= |inp.toks|
    decreases |inp.toks| - pos, 1
  {
    var a := StartOf(inp, pos);
    if KindAt(inp, pos + 1) == RSquare then
      Out(true, pos + 2, Leaf(ArrayLitExpr, Span(a, EndOf(inp, pos + 1)), Zero))
    else
      var x := TakeExpr(inp, pos + 1, 0, On);
      if KindAt(inp, x.end) == Semi then
        var n := TakeExpr(inp, x.end + 1, 0, On);
        Closing(inp, x.ok && n.ok, n.end, RSquare, Node(ArrayRepeatExpr, a, EndOf(inp, n.end), Zero, [x.tree, n.tree]))
      else
        var l := TakeMoreExprs(inp, x.end, LArray);
        Closing(inp, x.ok && l.ok, l.end, RSquare, Node(ArrayLitExpr, a, EndOf(inp, l.end), Zero, [x.tree] + l.trees))
  }

  function TakeUnary(inp: Input, pos: nat, sl: Switch): (r: Out)
    requires pos <= |inp.toks| && IsPrefixOp(KindAt(inp, pos))
    ensures pos < r.end <= |inp.toks|
    decreases |inp.toks| - pos, 1
  {
    var k, a := KindAt(inp, pos), StartOf(inp, pos);
    var x := TakeExpr(inp, pos + 1, PrefixBindingPower(k), sl);
    if k == Star && KindAt(inp, x.end) == Eq then
      var y := TakeExpr(inp, x.end + 1, 0, sl);
      Out(x.ok && y.ok, y.end, Node(ProjAssignExpr, a, SpanOf(y.tree).end, Zero, [x.tree, y.tree]))
    else Out(x.ok, x.end, Node(UnaryExpr, a, SpanOf(x.tree).end, Op(k), [x.tree]))
  }

  // The number of values and the test for missing dimensions live in sixteen bits.
  function TakeTensor(inp: Input, pos: nat, sl: Switch): (r: Out)
    requires pos <= |inp.toks| && KindAt(inp, pos) == KwTensor
    ensures pos < r.end <= |inp.toks|
    decreases |inp.toks| - pos, 1
  {
    var b := Past(inp, pos + 1, LSquare);
    var vs := TakeExprItems(inp, b, LTensorVals);
    var ds := TakeComma(inp, Past(inp, vs.end, Semi), AConst, sl);
    var ok := KindAt(inp, pos + 1) == LSquare && vs.ok && KindAt(inp, vs.end) == Semi && ds.ok;
    Closing(inp, ok && |ds.trees| % 0x1_0000 != 0, ds.end, RSquare,
            Node(TensorLitExpr, StartOf(inp, pos), EndOf(inp, ds.end), Count(|vs.trees| % 0x1_0000), vs.trees
                 + ds.trees))
  }

  /////////////////////////// postfix operators ///////////////////////////

  function TakePostfix(inp: Input, pos: nat, t: Tree, sl: Switch): (r: Out)
    requires pos <= |inp.toks|
    ensures pos <= r.end <= |inp.toks|
    decreases |inp.toks| - pos, 1
  {
    if !IsPostfix(KindAt(inp, pos)) then Out(true, pos, t) else
    var x := TakePostfixOp(inp, pos, t, sl);
    AndThen(x, TakePostfix(inp, x.end, x.tree, sl))
  }

  // The loop over postfix operators behind `t`, with `b` behind it.
  ghost predicate PostfixTaken(inp: Input, p0: nat, t: Tree, sl: Switch, b: Out) {
    && p0 <= |inp.toks| && b.end <= |inp.toks|
    && TakePostfix(inp, p0, t, sl) == AndThen(b, TakePostfix(inp, b.end, b.tree, sl))
  }

  lemma PostfixTakenStart(inp: Input, p0: nat, t: Tree, sl: Switch)
    requires p0 <= |inp.toks|
    ensures PostfixTaken(inp, p0, t, sl, Out(true, p0, t))
  {
    hide TakePostfix;
  }

  lemma PostfixTakenStep(inp: Input, p0: nat, t: Tree, sl: Switch, b: Out, x: Out)
    requires PostfixTaken(inp, p0, t, sl, b) && IsPostfix(KindAt(inp, b.end))
    requires x == TakePostfixOp(inp, b.end, b.tree, sl)
    ensures PostfixTaken(inp, p0, t, sl, AndThen(b, x))
  {
    hide TakePostfixOp;
  }

  lemma PostfixTakenExit(inp: Input, p0: nat, t: Tree, sl: Switch, b: Out)
    requires PostfixTaken(inp, p0, t, sl, b) && !IsPostfix(KindAt(inp, b.end))
    ensures TakePostfix(inp, p0, t, sl) == b
  {
    hide TakePostfixOp;
  }

  function TakePostfixOp(inp: Input, pos: nat, t: Tree, sl: Switch): (r: Out)
    requires pos <= |inp.toks| && IsPostfix(KindAt(inp, pos))
    ensures pos < r.end <= |inp.toks|
    decreases |inp.toks| - pos, 0
  {
    var k := KindAt(inp, pos);
    if k == LParen then TakeCall(inp, pos, t)
    else if k == Dot then TakeDot(inp, pos, t)
    else if k == LSquare then TakeIndex(inp, pos, t)
    else if k == Question then Out(true, pos + 1, Node(PropagateExpr, SpanOf(t).start, EndOf(inp, pos), Zero, [t]))
    else
      var y := TakeType(inp, pos + 1, sl);
      Out(y.ok, y.end, Node(CastExpr, SpanOf(t).start, SpanOf(y.tree).end, Zero, [t, y.tree]))
  }

  function TakeArgs(inp: Input, pos: nat): (r: Out)
    requires pos < |inp.toks|
    ensures pos < r.end <= |inp.toks|
    decreases |inp.toks| - pos - 1, 6
  {
    var l := if KindAt(inp, pos + 1) == RParen then None(pos + 1) else TakeExprItems(inp, pos + 1, LArgs);
    Closing(inp, l.ok, l.end, RParen, Node(ArgList, StartOf(inp, pos), EndOf(inp, l.end), Zero, l.trees))
  }

  function TakeCall(inp: Input, pos: nat, t: Tree): (r: Out)
    requires pos <= |inp.toks| && KindAt(inp, pos) == LParen
    ensures pos < r.end <= |inp.toks|
    decreases |inp.toks| - pos - 1, 7
  {
    var x := TakeArgs(inp, pos);
    Out(x.ok, x.end, Node(CallExpr, SpanOf(t).start, SpanOf(x.tree).end, Zero, [t, x.tree]))
  }

  function TakeIndex(inp: Input, pos: nat, t: Tree): (r: Out)
    requires pos <= |inp.toks| && KindAt(inp, pos) == LSquare
    ensures pos < r.end <= |inp.toks|
    decreases |inp.toks| - pos - 1, 7
  {
    var l := TakeExprItems(inp, pos + 1, LIndex);
    Closing(inp, l.ok, l.end, RSquare,
            Node(if |l.trees| > 1 then TensorIndexExpr else IndexExpr, SpanOf(t).start, EndOf(inp, l.end), Zero,
                 [t] + l.trees))
  }

  // Behind the dot at `pos`: an index, a float token that is one or two of them, or a name.
  function TakeDot(inp: Input, pos: nat, t: Tree): (r: Out)
    requires pos <= |inp.toks| && KindAt(inp, pos) == Dot
    ensures pos < r.end <= |inp.toks|
  {
    var a, k, text, z := SpanOf(t).start, KindAt(inp, pos + 1), TokText(inp, pos + 1), EndOf(inp, pos + 1);
    if k == IntegerLiteral then Out(true, pos + 2, Node(TupleIndexExpr, a, z, Name(text), [t]))
    else if k == FloatLiteral && !FloatSplit(text).NoSplit? then
      var split := FloatSplit(text);
      var inner := Node(TupleIndexExpr, a, z, Name(split.whole), [t]);
      Out(true, pos + 2, if split.Two? then Node(TupleIndexExpr, a, z, Name(split.frac), [inner]) else inner)
    else
      var q := Past(inp, pos + 1, Identifier);
      Out(k == Identifier, q, Node(FieldExpr, a, PrevEnd(inp, q), NameRegime(text, NoRegime), [t]))
  }

  /////////////////////////// blocks and control flow ///////////////////////////

  function TakeStmts(inp: Input, pos: nat, sl: Switch): (r: ListOut)
    requires pos <= |inp.toks|
    ensures pos <= r.end <= |inp.toks|
    decreases |inp.toks| - pos, 5
  {
    if KindAt(inp, pos) == RBrace || KindAt(inp, pos) == Eof then None(pos) else
    var x := TakeStmt(inp, pos, sl);
    Onto(OneOut(x), TakeStmts(inp, x.end, sl))
  }

  // A loop that has `l` behind it.
  ghost predicate StmtsTaken(inp: Input, p0: nat, sl: Switch, l: ListOut) {
    p0 <= |inp.toks| && l.end <= |inp.toks| && TakeStmts(inp, p0, sl) == Onto(l, TakeStmts(inp, l.end, sl))
  }

  lemma StmtsTakenStart(inp: Input, p0: nat, sl: Switch)
    requires p0 <= |inp.toks|
    ensures StmtsTaken(inp, p0, sl, None(p0))
  {
    hide TakeStmts;
    FromNone(p0, TakeStmts(inp, p0, sl));
  }

  lemma StmtsTakenStep(inp: Input, p0: nat, sl: Switch, l: ListOut, x: Out)
    requires StmtsTaken(inp, p0, sl, l) && KindAt(inp, l.end) != RBrace && KindAt(inp, l.end) != Eof
    requires x == TakeStmt(inp, l.end, sl)
    ensures StmtsTaken(inp, p0, sl, ListOut(l.ok && x.ok, x.end, l.trees + [x.tree]))
  {
    hide TakeStmt;
    OneMore(l, x, TakeStmts(inp, x.end, sl));
  }

  lemma StmtsTakenExit(inp: Input, p0: nat, sl: Switch, l: ListOut)
    requires StmtsTaken(inp, p0, sl, l)
    ensures KindAt(inp, l.end) == RBrace || KindAt(inp, l.end) == Eof ==> TakeStmts(inp, p0, sl) == l
  {
    hide TakeStmt;
    NoMore(l, l.end);
  }

  function TakeBlock(inp: Input, pos: nat, sl: Switch): (r: Out)
    requires pos <= |inp.toks|
    ensures pos <= r.end <= |inp.toks| && (KindAt(inp, pos) == LBrace ==> pos < r.end)
    decreases |inp.toks| - pos, if KindAt(inp, pos) == LBrace then 1 else 6
  {
    var l := TakeStmts(inp, Past(inp, pos, LBrace), sl);
    Closing(inp, KindAt(inp, pos) == LBrace && l.ok, l.end, RBrace,
            Node(BlockExpr, StartOf(inp, pos), EndOf(inp, l.end), Zero, l.trees))
  }

  function TakeUnsafe(inp: Input, pos: nat, sl: Switch): (r: Out)
    requires pos <= |inp.toks| && KindAt(inp, pos) == KwUnsafe
    ensures pos < r.end <= |inp.toks|
    decreases |inp.toks| - pos, 1
  {
    var l := TakeStmts(inp, Past(inp, pos + 1, LBrace), sl);
    Closing(inp, KindAt(inp, pos + 1) == LBrace && l.ok, l.end, RBrace,
            Node(UnsafeBlock, StartOf(inp, pos), EndOf(inp, l.end), Zero, l.trees))
  }

  function TakeWhile(inp: Input, pos: nat, sl: Switch): (r: Out)
    requires pos <= |inp.toks| && KindAt(inp, pos) == KwWhile
    ensures pos < r.end <= |inp.toks|
    decreases |inp.toks| - pos, 1
  {
    var x := TakeExpr(inp, pos + 1, 0, Off);
    var y := TakeBlock(inp, x.end, sl);
    Out(x.ok && y.ok, y.end, Node(WhileStmt, StartOf(inp, pos), PrevEnd(inp, y.end), Zero, [x.tree, y.tree]))
  }

  function TakeIf(inp: Input, pos: nat, sl: Switch): (r: Out)
    requires pos <= |inp.toks| && KindAt(inp, pos) == KwIf
    ensures pos < r.end <= |inp.toks|
    decreases |inp.toks| - pos, 1
  {
    var x := TakeExpr(inp, pos + 1, 0, Off);
    TakeBranches(inp, x.end, StartOf(inp, pos), x, sl)
  }

  // The block behind the condition `x`, and the other branch.
  function TakeBranches(inp: Input, pos: nat, start: nat, x: Out, sl: Switch): (r: Out)
    requires pos <= |inp.toks|
    ensures pos <= r.end <= |inp.toks|
    decreases |inp.toks| - pos, 8
  {
    var y := TakeBlock(inp, pos, sl);
    if KindAt(inp, y.end) != KwElse then
      Out(x.ok && y.ok, y.end, Node(IfExpr, start, PrevEnd(inp, y.end), Zero, [x.tree, y.tree]))
    else
      var z := if KindAt(inp, y.end + 1) == KwIf then TakeIf(inp, y.end + 1, sl) else TakeBlock(inp, y.end + 1, sl);
      Out(x.ok && y.ok && z.ok, z.end, Node(IfExpr, start, PrevEnd(inp, z.end), Zero, [x.tree, y.tree] + [z.tree]))
  }

  function TakeMatch(inp: Input, pos: nat, sl: Switch): (r: Out)
    requires pos <= |inp.toks| && KindAt(inp, pos) == KwMatch
    ensures pos < r.end <= |inp.toks|
    decreases |inp.toks| - pos, 1
  {
    var x := TakeExpr(inp, pos + 1, 0, Off);
    var l := TakeArms(inp, Past(inp, x.end, LBrace), sl);
    Closing(inp, x.ok && KindAt(inp, x.end) == LBrace && l.ok, l.end, RBrace,
            Node(MatchExpr, StartOf(inp, pos), EndOf(inp, l.end), Zero, [x.tree] + l.trees))
  }

  function TakeArms(inp: Input, pos: nat, sl: Switch): (r: ListOut)
    requires pos <= |inp.toks|
    ensures pos <= r.end <= |inp.toks|
    decreases |inp.toks| - pos, 5
  {
    if KindAt(inp, pos) == RBrace || KindAt(inp, pos) == Eof then None(pos) else
    var x := TakeArm(inp, pos, sl);
    Onto(OneOut(x), TakeArms(inp, x.end, sl))
  }

  // A loop that has `l` behind it.
  ghost predicate ArmsTaken(inp: Input, p0: nat, sl: Switch, l: ListOut) {
    p0 <= |inp.toks| && l.end <= |inp.toks| && TakeArms(inp, p0, sl) == Onto(l, TakeArms(inp, l.end, sl))
  }

  lemma ArmsTakenStart(inp: Input, p0: nat, sl: Switch)
    requires p0 <= |inp.toks|
    ensures ArmsTaken(inp, p0, sl, None(p0))
  {
    hide TakeArms;
    FromNone(p0, TakeArms(inp, p0, sl));
  }

  lemma ArmsTakenStep(inp: Input, p0: nat, sl: Switch, l: ListOut, x: Out)
    requires ArmsTaken(inp, p0, sl, l) && KindAt(inp, l.end) != RBrace && KindAt(inp, l.end) != Eof
    requires x == TakeArm(inp, l.end, sl)
    ensures ArmsTaken(inp, p0, sl, ListOut(l.ok && x.ok, x.end, l.trees + [x.tree]))
  {
    hide TakeArm;
    OneMore(l, x, TakeArms(inp, x.end, sl));
  }

  lemma ArmsTakenExit(inp: Input, p0: nat, sl: Switch, l: ListOut)
    requires ArmsTaken(inp, p0, sl, l)
    ensures KindAt(inp, l.end) == RBrace || KindAt(inp, l.end) == Eof ==> TakeArms(inp, p0, sl) == l
  {
    hide TakeArm;
    NoMore(l, l.end);
  }

  function TakeArm(inp: Input, pos: nat, sl: Switch): (r: Out)
    requires pos < |inp.toks|
    ensures pos < r.end <= |inp.toks|
    decreases |inp.toks| - pos, 4
  {
    var p := TakePat(inp, pos, sl);
    var v := TakeExpr(inp, Past(inp, p.end, FatArrow), 0, sl);
    var z := if KindAt(inp, v.end) == Comma || KindAt(inp, v.end) == Semi then v.end + 1 else v.end;
    Out(p.ok && KindAt(inp, p.end) == FatArrow && v.ok, z,
        Node(MatchArm, SpanOf(p.tree).start, SpanOf(v.tree).end, Zero, [p.tree, v.tree]))
  }

  /////////////////////////// statements ///////////////////////////

  function TakeStmt(inp: Input, pos: nat, sl: Switch): (r: Out)
    requires pos <= |inp.toks|
    ensures pos <= r.end <= |inp.toks| && (KindAt(inp, pos) != Eof ==> pos < r.end)
    decreases |inp.toks| - pos, 4
  {
    var k := KindAt(inp, pos);
    if k == KwLet then TakeLet(inp, pos, sl)
    else if k == KwFor then TakeFor(inp, pos, sl)
    else if k == KwRet then TakeRet(inp, pos, sl)
    else if k == KwBreak || k == KwContinue then
      Closing(inp, true, pos + 1, Semi,
              Leaf(if k == KwBreak then BreakStmt else ContinueStmt, TokenAt(inp, pos).span, Zero))
    else if k == KwIf then TakeIf(inp, pos, sl)
    else if k == KwWhile then TakeWhile(inp, pos, sl)
    else if k == LBrace then TakeBlock(inp, pos, sl)
    else if k == KwUnsafe then TakeUnsafe(inp, pos, sl)
    else if IsExprStmtStart(k) then
      var x := TakeExpr(inp, pos, 0, sl);
      if IsErrorTree(x.tree) then Out(false, SyncFrom(inp, x.end), x.tree) else Closing(inp, x.ok, x.end, Semi, x.tree)
    else Wrong(inp, pos, SyncFrom(inp, pos))
  }

  // A statement that opens with an expression; an expression that fails altogether is skipped.
  lemma ExprStmtTaken(inp: Input, pos: nat, sl: Switch)
    requires pos <= |inp.toks| && IsExprStmtStart(KindAt(inp, pos))
    ensures var x := TakeExpr(inp, pos, 0, sl);
            TakeStmt(inp, pos, sl)
            == if IsErrorTree(x.tree) then Out(false, SyncFrom(inp, x.end), x.tree)
               else Out(x.ok && KindAt(inp, x.end) == Semi, Past(inp, x.end, Semi), x.tree)
  {
    hide TakeExpr, SyncFrom;
  }

  function TakeRet(inp: Input, pos: nat, sl: Switch): (r: Out)
    requires pos <= |inp.toks| && KindAt(inp, pos) == KwRet
    ensures pos < r.end <= |inp.toks|
    decreases |inp.toks| - pos, 3
  {
    var x := TakeExpr(inp, pos + 1, 0, sl);
    Closing(inp, x.ok, x.end, Semi, Node(RetStmt, StartOf(inp, pos), EndOf(inp, x.end), Zero, [x.tree]))
  }

  // The regime and the name that the keyword at `pos` introduces.
  function BinderAt(inp: Input, pos: nat): Payload {
    NameRegime(TokText(inp, NameAt(inp, pos)), RegimeOf(KindAt(inp, pos + 1)))
  }

  function TakeFor(inp: Input, pos: nat, sl: Switch): (r: Out)
    requires pos <= |inp.toks| && KindAt(inp, pos) == KwFor
    ensures pos < r.end <= |inp.toks|
    decreases |inp.toks| - pos, 3
  {
    var n := NameAt(inp, pos);
    var q := Past(inp, n, Identifier);
    var x := TakeExpr(inp, Past(inp, q, KwIn), 0, Off);
    var y := TakeBlock(inp, x.end, sl);
    Out(KindAt(inp, n) == Identifier && KindAt(inp, q) == KwIn && x.ok && y.ok, y.end,
        Node(ForStmt, StartOf(inp, pos), SpanOf(y.tree).end, BinderAt(inp, pos), [x.tree, y.tree]))
  }

  // `: type` or `= value`, if it is there.
  function TakeOptType(inp: Input, pos: nat, sl: Switch): (r: ListOut)
    requires pos <= |inp.toks|
    ensures pos <= r.end <= |inp.toks|
    decreases |inp.toks| - pos, 2
  {
    if KindAt(inp, pos) == Colon then OneOut(TakeType(inp, pos + 1, sl)) else None(pos)
  }

  function TakeOptInit(inp: Input, pos: nat, sl: Switch): (r: ListOut)
    requires pos <= |inp.toks|
    ensures pos <= r.end <= |inp.toks|
    decreases |inp.toks| - pos, 3
  {
    if KindAt(inp, pos) == Eq then OneOut(TakeExpr(inp, pos + 1, 0, sl)) else None(pos)
  }

  predicate LastIsError(ts: seq<Tree>) { ts != [] && IsErrorTree(ts[|ts| - 1]) }

  /** The end of a `let`: behind a failed part the rest is skipped up to a semicolon, which is taken, or
      a closing brace. */
  function LetEnd(inp: Input, pos: nat, failed: bool): (r: nat)
    requires pos <= |inp.toks|
    ensures pos <= r <= |inp.toks|
  {
    Past(inp, if failed then FirstOf(inp, pos, {Semi, RBrace}) else pos, Semi)
  }

  function TakeLet(inp: Input, pos: nat, sl: Switch): (r: Out)
    requires pos <= |inp.toks| && KindAt(inp, pos) == KwLet
    ensures pos < r.end <= |inp.toks|
    decreases |inp.toks| - pos, 3
  {
    var n := NameAt(inp, pos);
    var ty := TakeOptType(inp, Past(inp, n, Identifier), sl);
    var init := TakeOptInit(inp, ty.end, sl);
    var kids := ty.trees + init.trees;
    var z := LetEnd(inp, init.end, LastIsError(kids));
    Out(KindAt(inp, n) == Identifier && ty.ok && init.ok && (LastIsError(kids) || KindAt(inp, init.end) == Semi), z,
        Node(LetStmt, StartOf(inp, pos), PrevEnd(inp, z), BinderAt(inp, pos), kids))
  }

  /////////////////////////// types ///////////////////////////

  predicate StartsType(k: Kind) { k == LParen || k == LSquare || k == KwTensor || k == Identifier || k == KwSelf }

  function TakeType(inp: Input, pos: nat, sl: Switch): (r: Out)
    requires pos <= |inp.toks|
    ensures pos <= r.end <= |inp.toks| && (pos < r.end <==> StartsType(KindAt(inp, pos)))
    decreases |inp.toks| - pos, 1
  {
    var k := KindAt(inp, pos);
    if k == LParen then
      var l := TakeComma(inp, pos + 1, AType, sl);
      Closing(inp, l.ok, l.end, RParen, Node(TupleType, StartOf(inp, pos), EndOf(inp, l.end), Zero, l.trees))
    else if k == LSquare then TakeArrayType(inp, pos, sl)
    else if k == KwTensor then TakeTensorType(inp, pos, sl)
    else if k == Identifier || k == KwSelf then
      var s := TakeSegs(inp, pos + 1);
      var path := PathRange(inp, pos, s.end);
      Out(s.ok, s.end, Leaf(NamedType, path, Name(TextOf(inp.src, path))))
    else Wrong(inp, pos, pos)
  }

  function TakeArrayType(inp: Input, pos: nat, sl: Switch): (r: Out)
    requires pos <= |inp.toks| && KindAt(inp, pos) == LSquare
    ensures pos < r.end <= |inp.toks|
    decreases |inp.toks| - pos, 0
  {
    var t := TakeType(inp, pos + 1, sl);
    var n := TakeExpr(inp, Past(inp, t.end, Semi), 0, sl);
    Closing(inp, t.ok && KindAt(inp, t.end) == Semi && n.ok, n.end, RSquare,
            Node(ArrayType, StartOf(inp, pos), EndOf(inp, n.end), Zero, [t.tree, n.tree]))
  }

  function TakeTensorType(inp: Input, pos: nat, sl: Switch): (r: Out)
    requires pos <= |inp.toks| && KindAt(inp, pos) == KwTensor
    ensures pos < r.end <= |inp.toks|
    decreases |inp.toks| - pos, 0
  {
    var t := TakeType(inp, Past(inp, pos + 1, LSquare), sl);
    var ds := TakeComma(inp, Past(inp, t.end, Semi), AConst, sl);
    var ok := KindAt(inp, pos + 1) == LSquare && t.ok && KindAt(inp, t.end) == Semi && ds.ok && ds.trees != [];
    Closing(inp, ok, ds.end, RSquare,
            Node(TensorType, StartOf(inp, pos), EndOf(inp, ds.end), Zero, [t.tree] + ds.trees))
  }

  /////////////////////////// patterns ///////////////////////////

  function TakePat(inp: Input, pos: nat, sl: Switch): (r: Out)
    requires pos <= |inp.toks|
    ensures pos <= r.end <= |inp.toks| && (pos < |inp.toks| ==> pos < r.end)
    decreases |inp.toks| - pos, 1
  {
    var k, span, text := KindAt(inp, pos), TokenAt(inp, pos).span, TokText(inp, pos);
    if k == Identifier && text != "_" then TakePathPat(inp, pos, sl)
    else if k == LParen then TakeTuplePat(inp, pos, span.start, Zero, sl)
    else if k == Identifier then Out(true, pos + 1, Leaf(WildcardPat, span, Zero))
    else if IsLiteral(k) then Out(true, pos + 1, Leaf(LiteralPat, span, Name(text)))
    else Wrong(inp, pos, Next(inp, pos))
  }

  function TakePathPat(inp: Input, pos: nat, sl: Switch): (r: Out)
    requires pos <= |inp.toks| && KindAt(inp, pos) == Identifier
    ensures pos < r.end <= |inp.toks|
    decreases |inp.toks| - pos, 0
  {
    var s := TakeSegs(inp, pos + 1);
    var path := PathRange(inp, pos, s.end);
    var text := TextOf(inp.src, path);
    if KindAt(inp, s.end) == LParen
        then AndThen(Out(s.ok, 0, NullTree), TakeTuplePat(inp, s.end, path.start, Name(text), sl))
    else if KindAt(inp, s.end) == LBrace then
      var l := TakeComma(inp, s.end + 1, AFieldPat, sl);
      Closing(inp, s.ok && l.ok, l.end, RBrace, Node(StructPat, path.start, EndOf(inp, l.end), Name(text), l.trees))
    else Out(s.ok, s.end, Leaf(IdentPat, path, NameRegime(text, NoRegime)))
  }

  // The parenthesis at `pos` stands alone or behind a path.
  function TakeTuplePat(inp: Input, pos: nat, start: nat, p: Payload, sl: Switch): (r: Out)
    requires pos <= |inp.toks| && KindAt(inp, pos) == LParen
    ensures pos < r.end <= |inp.toks|
    decreases |inp.toks| - pos, 0
  {
    var l := TakeComma(inp, pos + 1, APat, sl);
    Closing(inp, l.ok, l.end, RParen, Node(TuplePat, start, EndOf(inp, l.end), p, l.trees))
  }

  /////////////////////////// fields, variants, parameters ///////////////////////////

  // Without a colon the field fails, but a type behind its name is still read.
  function TakeField(inp: Input, pos: nat, sl: Switch): (r: Out)
    requires pos <= |inp.toks|
    ensures pos <= r.end <= |inp.toks|
    decreases |inp.toks| - pos, 3
  {
    var a, n := StartOf(inp, pos), AfterRegime(inp, pos);
    if KindAt(inp, n) != Identifier then Out(false, n, Leaf(Error, Span(a, EndOf(inp, n)), Zero))
    else if KindAt(inp, n + 1) != Colon && KindAt(inp, n + 1) != Identifier then
      Out(false, n + 1, Leaf(Error, Span(a, EndOf(inp, n)), Zero))
    else
      var t := TakeType(inp, Past(inp, n + 1, Colon), sl);
      Out(KindAt(inp, n + 1) == Colon && t.ok, t.end,
          Node(StructField, a, PrevEnd(inp, t.end), NameOf(inp, pos, n > pos), [t.tree]))
  }

  function TakeVariant(inp: Input, pos: nat, sl: Switch): (r: Out)
    requires pos <= |inp.toks|
    ensures pos <= r.end <= |inp.toks|
    decreases |inp.toks| - pos, 0
  {
    var a, p := StartOf(inp, pos), NameRegime(TokText(inp, pos), NoRegime);
    if KindAt(inp, pos) != Identifier then Wrong(inp, pos, pos)
    else if KindAt(inp, pos + 1) == LParen then
      var l := TakeComma(inp, pos + 2, AType, sl);
      Closing(inp, l.ok, l.end, RParen, Node(EnumVariantTuple, a, EndOf(inp, l.end), p, l.trees))
    else if KindAt(inp, pos + 1) == LBrace then
      var l := TakeComma(inp, pos + 2, AField, sl);
      Closing(inp, l.ok, l.end, RBrace, Node(EnumVariantStruct, a, EndOf(inp, l.end), p, l.trees))
    else if KindAt(inp, pos + 1) == Eq then
      var x := TakeExpr(inp, pos + 2, 0, sl);
      Out(x.ok, x.end, Node(EnumVariantUnit, a, PrevEnd(inp, x.end), p, [x.tree]))
    else Out(true, pos + 1, Leaf(EnumVariantUnit, Span(a, EndOf(inp, pos)), p))
  }

  function TakeGeneric(inp: Input, pos: nat, sl: Switch): (r: Out)
    requires pos <= |inp.toks|
    ensures pos <= r.end <= |inp.toks|
    decreases |inp.toks| - pos, 3
  {
    var a, p := StartOf(inp, pos), Name(TokText(inp, pos));
    if KindAt(inp, pos) != Identifier then Wrong(inp, pos, pos)
    else if KindAt(inp, pos + 1) == Colon then
      var t := TakeType(inp, pos + 2, sl);
      Out(t.ok, t.end, Node(GenericParam, a, PrevEnd(inp, t.end), p, [t.tree]))
    else Out(true, pos + 1, Node(GenericParam, a, EndOf(inp, pos), p, [NullTree]))
  }

  // A missing name or colon is reported, and the type is read all the same.
  function TakeParam(inp: Input, pos: nat, sl: Switch): (r: Out)
    requires pos <= |inp.toks|
    ensures pos <= r.end <= |inp.toks|
    decreases |inp.toks| - pos, 3
  {
    var a, n := StartOf(inp, pos), AfterRegime(inp, pos);
    var q := Past(inp, n, Identifier);
    var p, named, k := NameOf(inp, pos, n > pos), KindAt(inp, n) == Identifier, KindAt(inp, q);
    if TokText(inp, n) == "self" && (k == RParen || k == Comma) then
      Out(named, q, Node(Param, a, PrevEnd(inp, q), p, [Leaf(NamedType, PrevSpan(inp, q), Name("Self"))]))
    else
      var t := TakeType(inp, Past(inp, q, Colon), sl);
      Out(named && k == Colon && t.ok, t.end, Node(Param, a, PrevEnd(inp, t.end), p, [t.tree]))
  }

  function TakeItem(inp: Input, pos: nat, e: DeclItem, sl: Switch): (r: Out)
    requires pos <= |inp.toks|
    ensures pos <= r.end <= |inp.toks|
    decreases |inp.toks| - pos, 5
  {
    if e.DGeneric? then TakeGeneric(inp, pos, sl) else TakeParam(inp, pos, sl)
  }

  // Generic parameters and parameters have no recovery of their own.
  function TakeListed(inp: Input, pos: nat, e: DeclItem, sl: Switch): (r: ListOut)
    requires pos <= |inp.toks|
    ensures pos <= r.end <= |inp.toks|
    decreases |inp.toks| - pos, 7
  {
    if KindAt(inp, pos) == Closer(e) then None(pos) else
    var x := TakeItem(inp, pos, e, sl);
    Onto(OneOut(x), TakeListedMore(inp, x.end, e, sl))
  }

  function TakeListedMore(inp: Input, pos: nat, e: DeclItem, sl: Switch): (r: ListOut)
    requires pos <= |inp.toks|
    ensures pos <= r.end <= |inp.toks|
    decreases |inp.toks| - pos, 6
  {
    if KindAt(inp, pos) != Comma then None(pos)
    else if e.DGeneric? && KindAt(inp, pos + 1) == Greater then None(pos + 1)
    else
      var x := TakeItem(inp, pos + 1, e, sl);
      Onto(OneOut(x), TakeListedMore(inp, x.end, e, sl))
  }

  // A loop that has `l` behind it.
  ghost predicate ListedTaken(inp: Input, p0: nat, e: DeclItem, sl: Switch, l: ListOut) {
    p0 <= |inp.toks| && l.end <= |inp.toks|
        && TakeListedMore(inp, p0, e, sl) == Onto(l, TakeListedMore(inp, l.end, e, sl))
  }

  lemma ListedTakenStart(inp: Input, p0: nat, e: DeclItem, sl: Switch)
    requires p0 <= |inp.toks|
    ensures ListedTaken(inp, p0, e, sl, None(p0))
  {
    hide TakeListedMore;
    FromNone(p0, TakeListedMore(inp, p0, e, sl));
  }

  lemma ListedTakenStep(inp: Input, p0: nat, e: DeclItem, sl: Switch, l: ListOut, x: Out)
    requires ListedTaken(inp, p0, e, sl, l) && KindAt(inp, l.end) == Comma
             && (!e.DGeneric? || KindAt(inp, l.end + 1) != Greater)
    requires x == TakeItem(inp, l.end + 1, e, sl)
    ensures ListedTaken(inp, p0, e, sl, ListOut(l.ok && x.ok, x.end, l.trees + [x.tree]))
  {
    hide TakeItem;
    OneMore(l, x, TakeListedMore(inp, x.end, e, sl));
  }

  lemma ListedTakenExit(inp: Input, p0: nat, e: DeclItem, sl: Switch, l: ListOut)
    requires ListedTaken(inp, p0, e, sl, l)
    ensures KindAt(inp, l.end) != Comma ==> TakeListedMore(inp, p0, e, sl) == l
    ensures KindAt(inp, l.end) == Comma && e.DGeneric?
            && KindAt(inp, l.end + 1) == Greater ==>
               TakeListedMore(inp, p0, e, sl) == ListOut(l.ok, l.end + 1, l.trees)
  {
    hide TakeItem;
    NoMore(l, l.end);
    NoMore(l, l.end + 1);
  }

  function TakeGens(inp: Input, pos: nat, sl: Switch): (r: ListOut)
    requires pos <= |inp.toks|
    ensures pos <= r.end <= |inp.toks|
    decreases |inp.toks| - pos, 8
  {
    if KindAt(inp, pos) != Less then None(pos) else
    var l := TakeListed(inp, pos + 1, DGeneric, sl);
    OneOut(Closing(inp, l.ok, l.end, Greater,
                   Node(GenericParamList, StartOf(inp, pos), EndOf(inp, l.end), Zero, l.trees)))
  }

  function TakeParams(inp: Input, pos: nat, sl: Switch): (r: Out)
    requires pos <= |inp.toks|
    ensures pos <= r.end <= |inp.toks|
    decreases |inp.toks| - pos, 8
  {
    var l := TakeListed(inp, Past(inp, pos, LParen), DParam, sl);
    Closing(inp, KindAt(inp, pos) == LParen && l.ok, l.end, RParen,
            Node(ParamList, StartOf(inp, pos), EndOf(inp, l.end), Zero, l.trees))
  }

  /////////////////////////// functions and constants ///////////////////////////

  // An arrow in place of the colon is reported, and the type read.
  function TakeReturn(inp: Input, pos: nat, sl: Switch): (r: ListOut)
    requires pos <= |inp.toks|
    ensures pos <= r.end <= |inp.toks|
    decreases |inp.toks| - pos, 9
  {
    var k := KindAt(inp, pos);
    if k != Colon && k != Arrow then None(pos) else
    var t := TakeType(inp, pos + 1, sl);
    ListOut(k == Colon && t.ok, t.end, [t.tree])
  }

  function TakeSignature(inp: Input, pos: nat, sl: Switch): (r: ListOut)
    requires pos <= |inp.toks|
    ensures pos <= r.end <= |inp.toks|
    decreases |inp.toks| - pos, 10
  {
    var x := TakeParams(inp, pos, sl);
    Onto(OneOut(x), TakeReturn(inp, x.end, sl))
  }

  function TakeBody(inp: Input, pos: nat, body: Switch, sl: Switch): (r: Out)
    requires pos <= |inp.toks|
    ensures pos <= r.end <= |inp.toks|
    decreases |inp.toks| - pos, 8
  {
    if body.On? then TakeBlock(inp, pos, sl) else Closing(inp, true, pos, Semi, NullTree)
  }

  function TakeFn(inp: Input, pos: nat, body: Switch, flags: nat, docs: seq<Tree>, sl: Switch): (r: Out)
    requires pos <= |inp.toks|
    ensures pos <= r.end <= |inp.toks|
    ensures if KindAt(inp, pos) == KwFn || KindAt(inp, pos) == KwUnsafe then pos < r.end else !r.ok
    decreases |inp.toks| - pos, 11
  {
    var f := DeclRuns.FnAt(inp, pos);
    var k := Past(inp, f, KwFn);
    var n := AfterRegime(inp, k);
    var g := TakeGens(inp, Past(inp, n, Identifier), sl);
    var s := TakeSignature(inp, g.end, sl);
    var b := TakeBody(inp, s.end, body, sl);
    Out(KindAt(inp, f) == KwFn && KindAt(inp, n) == Identifier && g.ok && s.ok && b.ok, b.end,
        Tree(FnDecl, Span(StartOf(inp, pos), PrevEnd(inp, b.end)), NameOf(inp, k, n > k),
             if KindAt(inp, pos) == KwUnsafe then WithUnsafe(flags) else flags,
             docs + g.trees + s.trees + [b.tree]))
  }

  function TakeConst(inp: Input, pos: nat, flags: nat, docs: seq<Tree>, sl: Switch): (r: Out)
    requires pos <= |inp.toks|
    ensures pos <= r.end <= |inp.toks|
    ensures KindAt(inp, pos) == KwConst || KindAt(inp, pos) == KwUnsafe ==> pos < r.end
    decreases |inp.toks| - pos, 9
  {
    var c := Past(inp, pos, KwConst);
    var n := Past(inp, c, Identifier);
    var t := TakeType(inp, Past(inp, n, Colon), sl);
    var v := TakeExpr(inp, Past(inp, t.end, Eq), 0, sl);
    var ok := KindAt(inp, pos) == KwConst && KindAt(inp, c) == Identifier && KindAt(inp, n) == Colon && t.ok;
    var z := Past(inp, v.end, Semi);
    Closing(inp, ok && KindAt(inp, t.end) == Eq && v.ok, v.end, Semi,
            Tree(ConstDecl, Span(StartOf(inp, pos), PrevEnd(inp, z)), Name(TokText(inp, c)), flags,
                 docs + [t.tree, v.tree]))
  }

  /////////////////////////// declarations with braces ///////////////////////////

  // The closing brace of a declaration that opens at `pos`, behind the inner nodes.
  function TakeBraces(inp: Input, pos: nat, kind: NodeKind, p: Payload, flags: nat, before: seq<Tree>,
                      l: ListOut): Out {
    Closing(inp, l.ok, l.end, RBrace,
            Tree(kind, Span(StartOf(inp, pos), EndOf(inp, l.end)), p, flags, before + l.trees))
  }

  // The same when the opening brace may have been missing.
  lemma OpenedBraces(inp: Input, pos: nat, kind: NodeKind, p: Payload, flags: nat, before: seq<Tree>, found: bool,
                     l: ListOut)
    ensures TakeBraces(inp, pos, kind, p, flags, before, ListOut(found && l.ok, l.end, l.trees))
            == AndThen(Out(found, 0, NullTree), TakeBraces(inp, pos, kind, p, flags, before, l))
  {
  }

  // What stands behind an opening brace at `q`, which is read or reported.
  function TakeInner(inp: Input, q: nat, i: Inner, sl: Switch): (r: ListOut)
    requires q <= |inp.toks|
    ensures q <= r.end <= |inp.toks|
    decreases |inp.toks| - q, 14
  {
    var b := Past(inp, q, LBrace);
    var l := match i
      case Fields => TakeComma(inp, b, AField, sl)
      case Variants => TakeComma(inp, b, AVariant, sl)
      case Signatures => TakeMethods(inp, b, Off, sl)
      case Methods => TakeMethods(inp, b, On, sl);
    ListOut(KindAt(inp, q) == LBrace && l.ok, l.end, l.trees)
  }

  // A keyword, a name, generic parameters, and members or methods in braces.
  function TakeNamed(inp: Input, pos: nat, kind: NodeKind, i: Inner, flags: nat, docs: seq<Tree>, sl: Switch): (r: Out)
    requires pos < |inp.toks|
    ensures pos < r.end <= |inp.toks|
    decreases |inp.toks| - pos, 15
  {
    var g := TakeGens(inp, Past(inp, pos + 1, Identifier), sl);
    var l := TakeInner(inp, g.end, i, sl);
    AndThen(Out(KindAt(inp, pos + 1) == Identifier && g.ok, 0, NullTree),
            TakeBraces(inp, pos, kind, Name(TokText(inp, pos + 1)), flags, docs + g.trees, l))
  }

  // The trait, or null, and the type.
  function TakeImplTypes(inp: Input, pos: nat, sl: Switch): (r: ListOut)
    requires pos <= |inp.toks|
    ensures pos <= r.end <= |inp.toks|
    decreases |inp.toks| - pos, 2
  {
    var x := TakeType(inp, pos, sl);
    if KindAt(inp, x.end) != KwFor then ListOut(x.ok, x.end, [NullTree, x.tree]) else
    var y := TakeType(inp, x.end + 1, sl);
    ListOut(x.ok && y.ok, y.end, [x.tree, y.tree])
  }

  function TakeImpl(inp: Input, pos: nat, flags: nat, docs: seq<Tree>, sl: Switch): (r: Out)
    requires pos < |inp.toks|
    ensures pos < r.end <= |inp.toks|
    decreases |inp.toks| - pos, 15
  {
    var g := TakeGens(inp, pos + 1, sl);
    var t := TakeImplTypes(inp, g.end, sl);
    var l := TakeInner(inp, t.end, Methods, sl);
    AndThen(Out(g.ok && t.ok, 0, NullTree), TakeBraces(inp, pos, ImplDecl, Zero, flags, docs + g.trees + t.trees, l))
  }

  // Behind a method that fails, everything is skipped up to the next one or the closing brace.
  function TakeMethod(inp: Input, pos: nat, body: Switch, sl: Switch): (r: Out)
    requires pos <= |inp.toks| && KindAt(inp, pos) != RBrace && KindAt(inp, pos) != Eof
    ensures pos < r.end <= |inp.toks|
    decreases |inp.toks| - pos, 12
  {
    DocsEnd(inp, pos, DocCommentTok);
    var x := TakeFn(inp, DocEnd(inp, pos, DocCommentTok), body, 0, DocTrees(inp, pos, DocCommentTok, DocComment), sl);
    if x.ok then x else Out(false, FirstOf(inp, x.end, {RBrace, KwFn, KwUnsafe}), x.tree)
  }

  function TakeMethods(inp: Input, pos: nat, body: Switch, sl: Switch): (r: ListOut)
    requires pos <= |inp.toks|
    ensures pos <= r.end <= |inp.toks|
    decreases |inp.toks| - pos, 13
  {
    if KindAt(inp, pos) == RBrace || KindAt(inp, pos) == Eof then None(pos) else
    var x := TakeMethod(inp, pos, body, sl);
    Onto(OneOut(x), TakeMethods(inp, x.end, body, sl))
  }

  // A loop that has `l` behind it.
  ghost predicate MethodsTaken(inp: Input, p0: nat, body: Switch, sl: Switch, l: ListOut) {
    p0 <= |inp.toks| && l.end <= |inp.toks|
        && TakeMethods(inp, p0, body, sl) == Onto(l, TakeMethods(inp, l.end, body, sl))
  }

  lemma MethodsTakenStart(inp: Input, p0: nat, body: Switch, sl: Switch)
    requires p0 <= |inp.toks|
    ensures MethodsTaken(inp, p0, body, sl, None(p0))
  {
    hide TakeMethods;
    FromNone(p0, TakeMethods(inp, p0, body, sl));
  }

  lemma MethodsTakenStep(inp: Input, p0: nat, body: Switch, sl: Switch, l: ListOut, x: Out)
    requires MethodsTaken(inp, p0, body, sl, l) && KindAt(inp, l.end) != RBrace && KindAt(inp, l.end) != Eof
    requires x == TakeMethod(inp, l.end, body, sl)
    ensures MethodsTaken(inp, p0, body, sl, ListOut(l.ok && x.ok, x.end, l.trees + [x.tree]))
  {
    hide TakeMethod;
    OneMore(l, x, TakeMethods(inp, x.end, body, sl));
  }

  lemma MethodsTakenExit(inp: Input, p0: nat, body: Switch, sl: Switch, l: ListOut)
    requires MethodsTaken(inp, p0, body, sl, l)
    ensures KindAt(inp, l.end) == RBrace || KindAt(inp, l.end) == Eof ==> TakeMethods(inp, p0, body, sl) == l
  {
    hide TakeMethod;
    NoMore(l, l.end);
  }

  lemma {:induction false} DocsEnd(inp: Input, pos: nat, k: Kind)
    requires pos <= |inp.toks| && k != Eof
    ensures DocEnd(inp, pos, k) <= |inp.toks| && KindAt(inp, DocEnd(inp, pos, k)) != k
    ensures KindAt(inp, pos) != k ==> DocEnd(inp, pos, k) == pos
    ensures KindAt(inp, pos) == k ==> pos < DocEnd(inp, pos, k)
    decreases |inp.toks| - pos
  {
    if KindAt(inp, pos) == k { DocsEnd(inp, pos + 1, k); }
  }

  /////////////////////////// modules and imports ///////////////////////////

  function TakeMod(inp: Input, pos: nat, flags: nat, docs: seq<Tree>, sl: Switch): (r: Out)
    requires pos < |inp.toks|
    ensures pos < r.end <= |inp.toks|
    decreases |inp.toks| - pos, 15
  {
    var named, name, q := KindAt(inp, pos + 1)
        == Identifier, Name(TokText(inp, pos + 1)), Past(inp, pos + 1, Identifier);
    if KindAt(inp, q) == LBrace then
      AndThen(Out(named, 0, NullTree),
              TakeBraces(inp, pos, ModDecl, name, flags, docs, TakeDecls(inp, q + 1, On, sl)))
    else if KindAt(inp, q) == Semi then
      Out(named, q + 1, Tree(ModDeclFile, Span(StartOf(inp, pos), EndOf(inp, q)), name, flags, docs))
    else Wrong(inp, q, q)
  }

  // `::` name, as far as names go.
  function PastUseNames(inp: Input, pos: nat): (r: nat)
    requires pos <= |inp.toks|
    ensures pos <= r <= |inp.toks|
    decreases |inp.toks| - pos
  {
    if KindAt(inp, pos) == ColonColon && KindAt(inp, pos + 1) == Identifier then PastUseNames(inp, pos + 2) else pos
  }

  // The tokens of a `use` path: whether they are as they should be, and where its text and they end.
  datatype UseOut = UseOut(ok: bool, last: nat, end: nat)

  function TakeUseTail(inp: Input, q: nat): (r: UseOut)
    requires q <= |inp.toks|
    ensures q <= r.end <= |inp.toks|
  {
    if KindAt(inp, q) == ColonColon then
      var star := KindAt(inp, q + 1) == Star;
      UseOut(star, if star then q + 2 else q, if star then q + 2 else q + 1)
    else if KindAt(inp, q) == KwAs then
      var z := Past(inp, q + 1, Identifier);
      UseOut(KindAt(inp, q + 1) == Identifier, z, z)
    else UseOut(true, q, q)
  }

  // Without a first name the text begins at the keyword.
  function TakeUse(inp: Input, pos: nat, flags: nat, docs: seq<Tree>): (r: Out)
    requires pos < |inp.toks|
    ensures pos < r.end <= |inp.toks|
  {
    var p := Past(inp, pos + 1, Identifier);
    var t := TakeUseTail(inp, PastUseNames(inp, p));
    var end := PrevEnd(inp, t.last);
    Closing(inp, KindAt(inp, pos + 1) == Identifier && t.ok, t.end, Semi,
            Tree(UseDecl, Span(StartOf(inp, pos), end), Name(TextOf(inp.src, Span(PrevSpan(inp, p).start, end))), flags,
                 docs))
  }

  /////////////////////////// declarations and files ///////////////////////////

  function TakePlain(inp: Input, pos: nat, flags: nat, docs: seq<Tree>, sl: Switch): (r: Out)
    requires pos <= |inp.toks|
    ensures pos <= r.end <= |inp.toks| && (KindAt(inp, pos) != Eof ==> pos < r.end)
    decreases |inp.toks| - pos, 16
  {
    var k := KindAt(inp, pos);
    if k == KwUnsafe || k == KwConst then TakeConst(inp, pos, flags, docs, sl)
    else if k == KwMod then TakeMod(inp, pos, flags, docs, sl)
    else if k == KwStruct then TakeNamed(inp, pos, StructDecl, Fields, flags, docs, sl)
    else if k == KwEnum then TakeNamed(inp, pos, EnumDecl, Variants, flags, docs, sl)
    else if k == KwUnion then TakeNamed(inp, pos, UnionDecl, Fields, flags, docs, sl)
    else if k == KwUse then TakeUse(inp, pos, flags, docs)
    else if k == KwTrait then TakeNamed(inp, pos, TraitDecl, Signatures, flags, docs, sl)
    else if k == KwImpl then TakeImpl(inp, pos, flags, docs, sl)
    else Wrong(inp, pos, SyncFrom(inp, pos))
  }

  function TakeDecl(inp: Input, pos: nat, sl: Switch): (r: Out)
    requires pos <= |inp.toks|
    ensures pos <= r.end <= |inp.toks| && (KindAt(inp, pos) != Eof ==> pos < r.end)
    decreases |inp.toks| - pos, 17
  {
    DocsEnd(inp, pos, DocCommentTok);
    var q, docs := DocEnd(inp, pos, DocCommentTok), DocTrees(inp, pos, DocCommentTok, DocComment);
    var p := Past(inp, q, KwPub);
    var flags := if KindAt(inp, q) == KwPub then PubFlag else 0;
    if KindAt(inp, p) == KwFn then TakeFn(inp, p, On, flags, docs, sl)
    else if KindAt(inp, p) == KwUnsafe && KindAt(inp, p + 1) == KwFn then
      TakeFn(inp, p + 1, On, WithUnsafe(flags), docs, sl)
    else TakePlain(inp, p, flags, docs, sl)
  }

  // The form of a declaration behind its documentation and visibility, which end at `p`.
  lemma DeclTaken(inp: Input, pos: nat, sl: Switch, q: nat, p: nat, docs: seq<Tree>, flags: nat)
    requires pos <= |inp.toks| && q == DocEnd(inp, pos, DocCommentTok) && p == Past(inp, q, KwPub)
    requires docs == DocTrees(inp, pos, DocCommentTok, DocComment)
    requires flags == if KindAt(inp, q) == KwPub then PubFlag else 0
    ensures p <= |inp.toks|
    ensures TakeDecl(inp, pos, sl)
            == if KindAt(inp, p) == KwFn then TakeFn(inp, p, On, flags, docs, sl)
               else if KindAt(inp, p) == KwUnsafe && KindAt(inp, p + 1) == KwFn
                    then TakeFn(inp, p + 1, On, WithUnsafe(flags), docs, sl)
               else TakePlain(inp, p, flags, docs, sl)
  {
    hide TakeFn, TakePlain, DocEnd, DocTrees, WithUnsafe;
    DocsEnd(inp, pos, DocCommentTok);
  }

  function TakeDecls(inp: Input, pos: nat, inner: Switch, sl: Switch): (r: ListOut)
    requires pos <= |inp.toks|
    ensures pos <= r.end <= |inp.toks|
    decreases |inp.toks| - pos, 18
  {
    if KindAt(inp, pos) == Eof || (inner.On? && KindAt(inp, pos) == RBrace) then None(pos) else
    var x := TakeDecl(inp, pos, sl);
    Onto(OneOut(x), TakeDecls(inp, x.end, inner, sl))
  }

  // A loop that has `l` behind it.
  ghost predicate DeclsTaken(inp: Input, p0: nat, inner: Switch, sl: Switch, l: ListOut) {
    p0 <= |inp.toks| && l.end <= |inp.toks|
        && TakeDecls(inp, p0, inner, sl) == Onto(l, TakeDecls(inp, l.end, inner, sl))
  }

  lemma DeclsTakenStart(inp: Input, p0: nat, inner: Switch, sl: Switch)
    requires p0 <= |inp.toks|
    ensures DeclsTaken(inp, p0, inner, sl, None(p0))
  {
    hide TakeDecls;
    FromNone(p0, TakeDecls(inp, p0, inner, sl));
  }

  lemma DeclsTakenStep(inp: Input, p0: nat, inner: Switch, sl: Switch, l: ListOut, x: Out)
    requires DeclsTaken(inp, p0, inner, sl, l) && KindAt(inp, l.end) != Eof
             && (inner.On? ==> KindAt(inp, l.end) != RBrace)
    requires x == TakeDecl(inp, l.end, sl)
    ensures DeclsTaken(inp, p0, inner, sl, ListOut(l.ok && x.ok, x.end, l.trees + [x.tree]))
  {
    hide TakeDecl;
    OneMore(l, x, TakeDecls(inp, x.end, inner, sl));
  }

  lemma DeclsTakenExit(inp: Input, p0: nat, inner: Switch, sl: Switch, l: ListOut)
    requires DeclsTaken(inp, p0, inner, sl, l)
    ensures KindAt(inp, l.end) == Eof || (inner.On? && KindAt(inp, l.end) == RBrace) ==>
            TakeDecls(inp, p0, inner, sl) == l
  {
    hide TakeDecl;
    NoMore(l, l.end);
  }

  function TakeFile(inp: Input, sl: Switch): (r: Out) {
    DocsEnd(inp, 0, FileDocCommentTok);
    var l := TakeDecls(inp, DocEnd(inp, 0, FileDocCommentTok), Off, sl);
    Out(l.ok, l.end, Node(SourceFile, StartOf(inp, 0), PrevEnd(inp, l.end), Zero,
                          DocTrees(inp, 0, FileDocCommentTok, FileDocComment) + l.trees))
  }
}
