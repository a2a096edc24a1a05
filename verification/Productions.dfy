/** One lemma per production: when the parts of a production agree with their run functions, so does
    the node built from them. */
module Productions {
  import opened Tokens
  import opened Trees
  import opened Grammar
  import opened Spelling
  import opened ErrorFree
  import opened Outcomes
  import Soundness

  // The outcome of reading the path segments from `pos`: how many, and where they end.
  ghost predicate SegsRead(inp: Input, pos: nat, ok: bool, n: nat, end: nat) {
    && ok == RunSegs(inp, pos).Segs?
    && (ok ==> RunSegs(inp, pos) == Segs(n, end) && MSegs(inp, pos, n) == end)
  }

  function PathText(inp: Input, pos: nat, end: nat): Payload {
    Name(TextOf(inp.src, Span(StartOf(inp, pos), EndOf(inp, end - 1))))
  }

  /////////////////////////// types ///////////////////////////

  lemma LinkNamedType(inp: Input, pos: nat, sl: Switch, ok: bool, n: nat, end: nat, t: Tree)
    requires KindAt(inp, pos) == Identifier || KindAt(inp, pos) == KwSelf
    requires SegsRead(inp, pos + 1, ok, n, end)
    requires ok ==> t == Leaf(NamedType, Span(StartOf(inp, pos), EndOf(inp, end - 1)), PathText(inp, pos, end))
    ensures Agrees(inp, pos, Out(ok, end, t), RunType(inp, pos, sl))
  {
    hide M, Ast, RunSegs;
    if ok { StandsTy(inp, pos, TNamed(n), end, t); }
  }

  lemma LinkTupleType(inp: Input, pos: nat, sl: Switch, l: ListOut, ok: bool, end: nat, t: Tree)
    requires KindAt(inp, pos) == LParen && AgreesItems(inp, pos + 1, l, RunComma(inp, pos + 1, LTypes, sl))
    requires ok == (l.ok && KindAt(inp, l.end) == RParen)
    requires ok ==> end == l.end + 1 && t == Node(TupleType, StartOf(inp, pos), EndOf(inp, l.end), Zero, l.trees)
    ensures Agrees(inp, pos, Out(ok, end, t), RunType(inp, pos, sl))
  {
    hide M, Ast, RunComma, MItems, AstItems;
    var r := RunComma(inp, pos + 1, LTypes, sl);
    if ok { StandsTy(inp, pos, TTuple(r.items, r.trail), end, t); }
  }

  lemma LinkArrayType(inp: Input, pos: nat, sl: Switch, e: Out, n: Out, ok: bool, end: nat, t: Tree)
    requires KindAt(inp, pos) == LSquare && Agrees(inp, pos + 1, e, RunType(inp, pos + 1, sl))
    requires e.ok && KindAt(inp, e.end) == Semi ==> Agrees(inp, e.end + 1, n, RunExpr(inp, e.end + 1, 0, sl))
    requires ok == (e.ok && KindAt(inp, e.end) == Semi && n.ok && KindAt(inp, n.end) == RSquare)
    requires ok ==>
             end == n.end + 1 && t == Node(ArrayType, StartOf(inp, pos), EndOf(inp, n.end), Zero, [e.tree, n.tree])
    ensures Agrees(inp, pos, Out(ok, end, t), RunArrayType(inp, pos, sl))
  {
    hide M, Ast, RunType, RunExpr;
    if ok {
      StandsTy(inp, pos, TArray(RunType(inp, pos + 1, sl).syn, RunExpr(inp, e.end + 1, 0, sl).syn), end, t);
    }
  }

  lemma LinkTensorType(inp: Input, pos: nat, sl: Switch, e: Out, d: ListOut, ok: bool, end: nat, t: Tree)
    requires KindAt(inp, pos) == KwTensor
    requires KindAt(inp, pos + 1) == LSquare ==> Agrees(inp, pos + 2, e, RunType(inp, pos + 2, sl))
    requires KindAt(inp, pos + 1) == LSquare && e.ok && KindAt(inp, e.end) == Semi
             ==> AgreesItems(inp, e.end + 1, d, RunComma(inp, e.end + 1, LDims, sl))
    requires ok == (KindAt(inp, pos + 1) == LSquare && e.ok && KindAt(inp, e.end) == Semi
                    && d.ok && d.trees != [] && KindAt(inp, d.end) == RSquare)
    requires ok ==>
             end == d.end + 1 && t == Node(TensorType, StartOf(inp, pos), EndOf(inp, d.end), Zero, [e.tree] + d.trees)
    ensures Agrees(inp, pos, Out(ok, end, t), RunTensorType(inp, pos, sl))
  {
    hide M, Ast, RunType, RunComma, MItems, AstItems;
    if KindAt(inp, pos + 1) == LSquare && e.ok && KindAt(inp, e.end) == Semi && d.ok {
      var r := RunComma(inp, e.end + 1, LDims, sl);
      ItemCount(inp, e.end + 1, r.items);
      if ok { StandsTy(inp, pos, TTensor(RunType(inp, pos + 2, sl).syn, r.items, r.trail), end, t); }
    }
  }

  // Which production a type opens with.
  lemma TypeCases(inp: Input, pos: nat, sl: Switch)
    ensures var k := KindAt(inp, pos);
            && (k == LSquare ==> RunType(inp, pos, sl) == RunArrayType(inp, pos, sl))
            && (k == KwTensor ==> RunType(inp, pos, sl) == RunTensorType(inp, pos, sl))
            && (k != LParen && k != LSquare && k != KwTensor && k != Identifier && k != KwSelf ==>
                RunType(inp, pos, sl).Fail?)
  {
    hide RunArrayType, RunTensorType, RunComma, RunSegs;
  }

  /////////////////////////// patterns ///////////////////////////

  lemma LinkLeafPat(inp: Input, pos: nat, sl: Switch)
    ensures var k := KindAt(inp, pos);
            && (k == Identifier && TokText(inp, pos) == "_" ==>
                Agrees(inp, pos, Out(true, pos + 1, Leaf(WildcardPat, TokenAt(inp, pos).span, Zero)),
                       RunPat(inp, pos, sl)))
            && (IsLiteral(k) ==>
                Agrees(inp, pos, Out(true, pos + 1, Leaf(LiteralPat, TokenAt(inp, pos).span, Name(TokText(inp, pos)))),
                       RunPat(inp, pos, sl)))
            && (k != Identifier && k != LParen && !IsLiteral(k) ==> RunPat(inp, pos, sl).Fail?)
            && (k == Identifier && TokText(inp, pos) != "_" ==> RunPat(inp, pos, sl) == RunPathPat(inp, pos, sl))
            && (k == LParen ==> RunPat(inp, pos, sl) == RunTuplePat(inp, pos, Off, 0, sl))
  {
    hide RunPathPat, RunTuplePat;
  }

  lemma LinkPathPat(inp: Input, pos: nat, sl: Switch, ok: bool, n: nat, q: nat, o: Out)
    requires KindAt(inp, pos) == Identifier && TokText(inp, pos) != "_" && SegsRead(inp, pos + 1, ok, n, q)
    requires o.ok ==> ok
    requires ok && KindAt(inp, q) == LParen ==> o.ok == RunTuplePat(inp, q, On, n, sl).Ok?
    requires ok && KindAt(inp, q) == LParen && o.ok ==>
             o.end == RunTuplePat(inp, q, On, n, sl).end
               && Stands(inp, pos, RunTuplePat(inp, q, On, n, sl).syn, o.end, o.tree)
    requires ok && KindAt(inp, q) == LBrace ==> Agrees(inp, pos, o, RunPathPat(inp, pos, sl))
    requires ok && KindAt(inp, q) != LParen && KindAt(inp, q) != LBrace ==>
             o.ok && o.end == q
             && o.tree
                == Leaf(IdentPat, Span(StartOf(inp, pos), EndOf(inp, q - 1)),
                        NameRegime(PathText(inp, pos, q).text, NoRegime))
    ensures Agrees(inp, pos, o, RunPathPat(inp, pos, sl))
  {
    hide M, Ast, RunSegs, RunTuplePat, TokText;
    if ok && KindAt(inp, q) != LParen && KindAt(inp, q) != LBrace { StandsPt(inp, pos, PName(n), q, o.tree); }
  }

  lemma LinkTuplePat(inp: Input, start: nat, pos: nat, named: Switch, n: nat, sl: Switch, l: ListOut, ok: bool,
                     end: nat, t: Tree)
    requires KindAt(inp, pos) == LParen
    requires if named.On? then KindAt(inp, start) == Identifier && TokText(inp, start) != "_"
      && MSegs(inp, start + 1, n) == pos
             else start == pos && n == 0
    requires AgreesItems(inp, pos + 1, l, RunComma(inp, pos + 1, LPats, sl))
    requires ok == (l.ok && KindAt(inp, l.end) == RParen)
    requires ok ==> end == l.end + 1
                    && t
                       == Node(TuplePat, StartOf(inp, start), EndOf(inp, l.end),
                               if named.On? then PathText(inp, start, pos) else Zero, l.trees)
    ensures ok == RunTuplePat(inp, pos, named, n, sl).Ok?
    ensures ok ==>
            end == RunTuplePat(inp, pos, named, n, sl).end
            && Stands(inp, start, RunTuplePat(inp, pos, named, n, sl).syn, end, t)
  {
    hide M, Ast, RunComma, MItems, AstItems, TokText;
    var r := RunComma(inp, pos + 1, LPats, sl);
    if ok { StandsPt(inp, start, PTuple(named, n, r.items, r.trail), end, t); }
  }

  lemma LinkStructPat(inp: Input, start: nat, n: nat, pos: nat, sl: Switch, l: ListOut, ok: bool, end: nat, t: Tree)
    requires KindAt(inp, start) == Identifier && TokText(inp, start) != "_"
    requires SegsRead(inp, start + 1, true, n, pos) && KindAt(inp, pos) == LBrace
    requires AgreesItems(inp, pos + 1, l, RunComma(inp, pos + 1, LFieldPats, sl))
    requires ok == (l.ok && KindAt(inp, l.end) == RBrace)
    requires ok ==>
             end == l.end + 1
             && t == Node(StructPat, StartOf(inp, start), EndOf(inp, l.end), PathText(inp, start, pos), l.trees)
    ensures Agrees(inp, start, Out(ok, end, t), RunPathPat(inp, start, sl))
  {
    hide M, Ast, RunComma, MItems, AstItems, TokText, RunSegs;
    var r := RunComma(inp, pos + 1, LFieldPats, sl);
    if ok { StandsPt(inp, start, PStruct(n, r.items, r.trail), end, t); }
  }

  /////////////////////////// fields ///////////////////////////

  lemma LinkFieldPat(inp: Input, pos: nat, sl: Switch, v: Out, o: Out)
    requires KindAt(inp, pos) == Identifier
    requires KindAt(inp, pos + 1) == Colon ==>
             Agrees(inp, pos + 2, v, RunPat(inp, pos + 2, sl)) && o.ok == v.ok && o.end == v.end
    requires KindAt(inp, pos + 1) == Colon && v.ok ==>
             o.tree == Node(FieldPat, StartOf(inp, pos), SpanOf(v.tree).end, Name(TokText(inp, pos)), [v.tree])
    requires KindAt(inp, pos + 1) != Colon ==>
             o == Out(true, pos + 1, Leaf(FieldPat, TokenAt(inp, pos).span, Name(TokText(inp, pos))))
    ensures Agrees(inp, pos, o, RunField(inp, pos, On, sl))
  {
    hide M, Ast, RunPat, RunExpr, TokText;
    if KindAt(inp, pos + 1) != Colon { StandsFl(inp, pos, PFieldShort, pos + 1, o.tree); }
    else if v.ok { StandsFl(inp, pos, PField(RunPat(inp, pos + 2, sl).syn), o.end, o.tree); }
  }

  lemma LinkFieldInit(inp: Input, pos: nat, sl: Switch, v: Out, o: Out)
    requires KindAt(inp, pos) == Identifier
    requires KindAt(inp, pos + 1) == Colon ==>
             Agrees(inp, pos + 2, v, RunExpr(inp, pos + 2, 0, sl)) && o.ok == v.ok && o.end == v.end
    requires KindAt(inp, pos + 1) == Colon && v.ok ==>
             o.tree == Node(FieldInit, StartOf(inp, pos), SpanOf(v.tree).end, Name(TokText(inp, pos)), [v.tree])
    requires KindAt(inp, pos + 1) != Colon ==> var name := Name(TokText(inp, pos)); var sp := TokenAt(inp, pos).span;
             o == Out(true, pos + 1, Tree(FieldInit, sp, name, 0, [Leaf(IdentExpr, sp, name)]))
    ensures Agrees(inp, pos, o, RunField(inp, pos, Off, sl))
  {
    hide M, Ast, RunPat, RunExpr, TokText;
    if KindAt(inp, pos + 1) != Colon { StandsFl(inp, pos, FShort, pos + 1, o.tree); }
    else if v.ok { StandsFl(inp, pos, FInit(RunExpr(inp, pos + 2, 0, sl).syn), o.end, o.tree); }
  }

  // An element that opens wrongly fails.
  lemma FieldFails(inp: Input, pos: nat, pat: Switch, sl: Switch)
    requires KindAt(inp, pos) != Identifier
    ensures RunField(inp, pos, pat, sl).Fail?
  {
  }

  /////////////////////////// primary expressions ///////////////////////////

  lemma LinkLiteral(inp: Input, pos: nat, sl: Switch)
    requires IsLiteral(KindAt(inp, pos))
    ensures Agrees(inp, pos,
                   Out(true, pos + 1, Leaf(LitExpr, TokenAt(inp, pos).span, NameRegime(TokText(inp, pos), NoRegime))),
                   RunPrefix(inp, pos, sl))
  {
    hide TokText;
    StandsEx(inp, pos, ELit, pos + 1, Leaf(LitExpr, TokenAt(inp, pos).span, NameRegime(TokText(inp, pos), NoRegime)));
  }

  lemma LinkName(inp: Input, pos: nat, sl: Switch, ok: bool, n: nat, end: nat, t: Tree)
    requires KindAt(inp, pos) == Identifier && SegsRead(inp, pos + 1, ok, n, end)
    requires ok ==> !(sl.On? && KindAt(inp, end) == LBrace)
    requires ok ==>
             t
             == Leaf(if n > 0 then PathExpr else IdentExpr, Span(StartOf(inp, pos), EndOf(inp, end - 1)),
                     PathText(inp, pos, end))
    ensures Agrees(inp, pos, Out(ok, end, t), RunNameExpr(inp, pos, sl))
  {
    hide M, Ast, RunSegs;
    if ok { StandsEx(inp, pos, EName(n), end, t); }
  }

  lemma LinkStructLit(inp: Input, start: nat, n: nat, pos: nat, l: ListOut, ok: bool, end: nat, t: Tree)
    requires KindAt(inp, start) == Identifier && SegsRead(inp, start + 1, true, n, pos) && KindAt(inp, pos) == LBrace
    requires AgreesItems(inp, pos + 1, l, RunComma(inp, pos + 1, LFieldInits, On))
    requires ok == (l.ok && KindAt(inp, l.end) == RBrace)
    requires ok ==>
             end == l.end + 1
             && t == Node(StructLitExpr, StartOf(inp, start), EndOf(inp, l.end), PathText(inp, start, pos), l.trees)
    ensures Agrees(inp, start, Out(ok, end, t), RunNameExpr(inp, start, On))
  {
    hide M, Ast, RunComma, MItems, AstItems, RunSegs;
    var r := RunComma(inp, pos + 1, LFieldInits, On);
    if ok { StandsEx(inp, start, EStruct(n, r.items, r.trail), end, t); }
  }

  // `first` is what stands behind the parenthesis, `more` what follows it up to the closing one.
  lemma LinkParen(inp: Input, pos: nat, first: Out, more: ListOut, o: Out)
    requires KindAt(inp, pos) == LParen
    requires KindAt(inp, pos + 1) == RParen ==>
             o == Out(true, pos + 2, Node(TupleExpr, StartOf(inp, pos), EndOf(inp, pos + 1), Zero, []))
    requires KindAt(inp, pos + 1) != RParen ==> Agrees(inp, pos + 1, first, RunExpr(inp, pos + 1, 0, On))
    requires KindAt(inp, pos + 1) != RParen && !first.ok ==> !o.ok
    requires KindAt(inp, pos + 1) != RParen && first.ok && KindAt(inp, first.end) != Comma ==>
             o.ok == (KindAt(inp, first.end) == RParen) && (o.ok ==> o.end == first.end + 1 && o.tree == first.tree)
    requires KindAt(inp, pos + 1) != RParen && first.ok && KindAt(inp, first.end) == Comma ==>
             AgreesMore(inp, first.end, more, RunMore(inp, first.end, LTuple, On))
    requires KindAt(inp, pos + 1) != RParen && first.ok && KindAt(inp, first.end) == Comma ==>
             o.ok == (more.ok && KindAt(inp, more.end) == RParen)
    requires KindAt(inp, pos + 1) != RParen && first.ok && KindAt(inp, first.end) == Comma && o.ok ==>
             o.end == more.end + 1
             && o.tree == Node(TupleExpr, StartOf(inp, pos), EndOf(inp, more.end), Zero, [first.tree] + more.trees)
    ensures Agrees(inp, pos, o, RunParen(inp, pos))
  {
    hide M, Ast, RunExpr, RunTuple;
    if KindAt(inp, pos + 1) == RParen {
      StandsEx(inp, pos, ETuple(Nil, Off), pos + 2, o.tree);
    } else if first.ok {
      var e := RunExpr(inp, pos + 1, 0, On);
      if KindAt(inp, first.end) == Comma { LinkTuple(inp, pos, first, more, o); }
      else if o.ok { StandsEx(inp, pos, EParen(e.syn), o.end, o.tree); }
    }
  }

  lemma LinkTuple(inp: Input, pos: nat, first: Out, more: ListOut, o: Out)
    requires KindAt(inp, pos) == LParen && first.ok
    requires Agrees(inp, pos + 1, first, RunExpr(inp, pos + 1, 0, On))
    requires AgreesMore(inp, first.end, more, RunMore(inp, first.end, LTuple, On))
    requires o.ok == (more.ok && KindAt(inp, more.end) == RParen)
    requires o.ok ==> o.end == more.end + 1
                      && o.tree
                         == Node(TupleExpr, StartOf(inp, pos), EndOf(inp, more.end), Zero, [first.tree] + more.trees)
    ensures Agrees(inp, pos, o, RunTuple(inp, first.end, RunExpr(inp, pos + 1, 0, On).syn))
  {
    hide M, Ast, RunExpr, RunMore, MMore, AstMore;
    var e := RunExpr(inp, pos + 1, 0, On);
    var r := RunMore(inp, first.end, LTuple, On);
    if o.ok {
      ItemsCons(inp, pos + 1, e.syn, r.items, r.trail);
      StandsEx(inp, pos, ETuple(Cons(e.syn, r.items), r.trail), o.end, o.tree);
    }
  }

  lemma ItemsCons(inp: Input, pos: nat, h: Syn, t: Syns, trail: Switch)
    ensures MItems(inp, pos, Cons(h, t), trail) == MMore(inp, M(inp, pos, h), t, trail)
    ensures AstItems(inp, pos, Cons(h, t)) == [Ast(inp, pos, h)] + AstMore(inp, M(inp, pos, h), t)
  {
    hide M, Ast, MMore, AstMore;
  }

  lemma LinkArrayEmpty(inp: Input, pos: nat)
    requires KindAt(inp, pos) == LSquare && KindAt(inp, pos + 1) == RSquare
    ensures Agrees(inp, pos, Out(true, pos + 2, Node(ArrayLitExpr, StartOf(inp, pos), EndOf(inp, pos + 1), Zero, [])),
                   RunArray(inp, pos))
  {
    hide M, Ast;
    StandsEx(inp, pos, EArray(Nil, Off), pos + 2, Node(ArrayLitExpr, StartOf(inp, pos), EndOf(inp, pos + 1), Zero, []));
  }

  lemma LinkArrayRepeat(inp: Input, pos: nat, first: Out, n: Out, o: Out)
    requires KindAt(inp, pos) == LSquare && KindAt(inp, pos + 1) != RSquare
    requires Agrees(inp, pos + 1, first, RunExpr(inp, pos + 1, 0, On))
    requires first.ok ==>
             KindAt(inp, first.end) == Semi && Agrees(inp, first.end + 1, n, RunExpr(inp, first.end + 1, 0, On))
    requires o.ok == (first.ok && n.ok && KindAt(inp, n.end) == RSquare)
    requires o.ok ==> o.end == n.end + 1
                      && o.tree
                         == Node(ArrayRepeatExpr, StartOf(inp, pos), EndOf(inp, n.end), Zero, [first.tree, n.tree])
    ensures Agrees(inp, pos, o, RunArray(inp, pos))
  {
    hide M, Ast, RunExpr;
    if o.ok {
      StandsEx(inp, pos, ERepeat(RunExpr(inp, pos + 1, 0, On).syn, RunExpr(inp, first.end + 1, 0, On).syn), o.end,
               o.tree);
    }
  }

  lemma LinkArrayList(inp: Input, pos: nat, first: Out, more: ListOut, o: Out)
    requires KindAt(inp, pos) == LSquare && KindAt(inp, pos + 1) != RSquare
    requires Agrees(inp, pos + 1, first, RunExpr(inp, pos + 1, 0, On))
    requires first.ok ==>
             KindAt(inp, first.end) != Semi && AgreesMore(inp, first.end, more, RunMore(inp, first.end, LArray, On))
    requires o.ok == (first.ok && more.ok && KindAt(inp, more.end) == RSquare)
    requires o.ok ==> o.end == more.end + 1
                      && o.tree
                         == Node(ArrayLitExpr, StartOf(inp, pos), EndOf(inp, more.end), Zero, [first.tree] + more.trees)
    ensures Agrees(inp, pos, o, RunArray(inp, pos))
  {
    hide M, Ast, RunExpr, RunMore, MMore, AstMore;
    if o.ok {
      var r := RunMore(inp, first.end, LArray, On);
      ItemsCons(inp, pos + 1, RunExpr(inp, pos + 1, 0, On).syn, r.items, r.trail);
      StandsEx(inp, pos, EArray(Cons(RunExpr(inp, pos + 1, 0, On).syn, r.items), r.trail), o.end, o.tree);
    }
  }

  lemma LinkTensor(inp: Input, pos: nat, sl: Switch, vs: ListOut, ds: ListOut, o: Out)
    requires KindAt(inp, pos) == KwTensor
    requires KindAt(inp, pos + 1) == LSquare ==> AgreesItems(inp, pos + 2, vs, RunItems(inp, pos + 2, LTensorVals, On))
    requires KindAt(inp, pos + 1) == LSquare && vs.ok && KindAt(inp, vs.end) == Semi
             ==> AgreesItems(inp, vs.end + 1, ds, RunComma(inp, vs.end + 1, LDims, sl))
    requires o.ok == (KindAt(inp, pos + 1) == LSquare && vs.ok && KindAt(inp, vs.end) == Semi
                      && ds.ok && |ds.trees| % 0x1_0000 != 0 && KindAt(inp, ds.end) == RSquare)
    requires o.ok ==> o.end == ds.end + 1
                      && o.tree
                         == Node(TensorLitExpr, StartOf(inp, pos), EndOf(inp, ds.end), Count(|vs.trees| % 0x1_0000),
                                 vs.trees + ds.trees)
    ensures Agrees(inp, pos, o, RunTensor(inp, pos, sl))
  {
    hide M, Ast, RunItems, RunComma, MItems, AstItems, Size;
    if KindAt(inp, pos + 1) == LSquare && vs.ok && KindAt(inp, vs.end) == Semi && ds.ok {
      var (v, d) := (RunItems(inp, pos + 2, LTensorVals, On), RunComma(inp, vs.end + 1, LDims, sl));
      ItemCount(inp, pos + 2, v.items);
      ItemCount(inp, vs.end + 1, d.items);
      if o.ok { StandsEx(inp, pos, ETensor(v.items, v.trail, d.items, d.trail), o.end, o.tree); }
    }
  }

  lemma LinkUnary(inp: Input, pos: nat, sl: Switch, a: Out, o: Out)
    requires IsPrefixOp(KindAt(inp, pos))
    requires Agrees(inp, pos + 1, a, RunExpr(inp, pos + 1, PrefixBindingPower(KindAt(inp, pos)), sl))
    requires a.ok ==> !(KindAt(inp, pos) == Star && KindAt(inp, a.end) == Eq)
    requires o.ok == a.ok
    requires o.ok ==> o.end == a.end
                      && o.tree
                         == Node(UnaryExpr, StartOf(inp, pos), SpanOf(a.tree).end, Op(KindAt(inp, pos)), [a.tree])
    ensures Agrees(inp, pos, o, RunUnary(inp, pos, sl))
  {
    hide M, Ast, RunExpr;
    var k := KindAt(inp, pos);
    if o.ok { StandsEx(inp, pos, EUnary(k, RunExpr(inp, pos + 1, PrefixBindingPower(k), sl).syn), o.end, o.tree); }
  }

  lemma LinkProj(inp: Input, pos: nat, sl: Switch, a: Out, b: Out, o: Out)
    requires KindAt(inp, pos) == Star && Agrees(inp, pos + 1, a, RunExpr(inp, pos + 1, PrefixBindingPower(Star), sl))
    requires a.ok ==> KindAt(inp, a.end) == Eq && Agrees(inp, a.end + 1, b, RunExpr(inp, a.end + 1, 0, sl))
    requires o.ok == (a.ok && b.ok)
    requires o.ok ==> o.end == b.end
                      && o.tree == Node(ProjAssignExpr, StartOf(inp, pos), SpanOf(b.tree).end, Zero, [a.tree, b.tree])
    ensures Agrees(inp, pos, o, RunUnary(inp, pos, sl))
  {
    hide M, Ast, RunExpr;
    if o.ok {
      StandsEx(inp, pos, EProj(RunExpr(inp, pos + 1, 110, sl).syn, RunExpr(inp, a.end + 1, 0, sl).syn), o.end, o.tree);
    }
  }

  // Which production a prefix expression opens with.
  lemma PrefixCases(inp: Input, pos: nat, sl: Switch)
    ensures var k := KindAt(inp, pos); var r := RunPrefix(inp, pos, sl);
            && (k == Identifier ==> r == RunNameExpr(inp, pos, sl))
            && (k == LParen ==> r == RunParen(inp, pos))
            && (k == LSquare ==> r == RunArray(inp, pos))
            && (k == KwIf ==> r == RunIf(inp, pos, sl))
            && (k == KwWhile ==> r == RunWhile(inp, pos, sl))
            && (k == KwMatch ==> r == RunMatch(inp, pos, sl))
            && (k == KwUnsafe ==> r == RunUnsafe(inp, pos, sl))
            && (k == LBrace ==> r == RunBlock(inp, pos, sl))
            && (k == KwTensor ==> r == RunTensor(inp, pos, sl))
            && (IsPrefixOp(k) ==> r == RunUnary(inp, pos, sl))
            && (!StartsExpr(k) ==> r.Fail?)
  {
    hide RunNameExpr, RunParen, RunArray, RunIf, RunWhile, RunMatch, RunUnsafe, RunBlock, RunTensor, RunUnary;
  }

  predicate StartsExpr(k: Kind) {
    IsLiteral(k) || k == Identifier || k == LParen || k == LSquare || k == KwIf || k == KwWhile || k == KwMatch
    || k == KwUnsafe || k == LBrace || k == KwTensor || IsPrefixOp(k)
  }

  /////////////////////////// postfix and infix ///////////////////////////

  // The outcome of continuing the expression `lhs`, which began at `start`, from `pos` on.
  ghost predicate Continues(inp: Input, start: nat, o: Out, r: Res) {
    && o.ok == r.Ok?
    && (o.ok ==> o.end == r.end && Stands(inp, start, r.syn, o.end, o.tree))
  }

  lemma LinkCall(inp: Input, start: nat, lhs: Syn, b: Out, args: ListOut, at: Tree, o: Out)
    requires b.ok && Stands(inp, start, lhs, b.end, b.tree) && KindAt(inp, b.end) == LParen
    requires AgreesItems(inp, b.end + 1, args, RunArgs(inp, b.end + 1))
    requires o.ok == (args.ok && KindAt(inp, args.end) == RParen)
    requires o.ok ==> at == Node(ArgList, StartOf(inp, b.end), EndOf(inp, args.end), Zero, args.trees)
    requires o.ok ==>
             o.end == args.end + 1
             && o.tree == Node(CallExpr, SpanOf(b.tree).start, EndOf(inp, args.end), Zero, [b.tree, at])
    ensures Continues(inp, start, o, RunCall(inp, b.end + 1, lhs))
  {
    hide M, Ast, RunArgs, MItems, AstItems;
    var r := RunArgs(inp, b.end + 1);
    if o.ok {
      ArgsNoTrail(inp, b.end + 1);
      StandsEx(inp, start, ECall(lhs, r.items), o.end, o.tree);
    }
  }

  lemma ArgsNoTrail(inp: Input, pos: nat)
    ensures var r := RunArgs(inp, pos); r.LOk? ==> r.trail == Off
  {
    if KindAt(inp, pos) != RParen {
      var e := RunElem(inp, pos, CExpr, On);
      if e.Ok? { MoreNoTrail(inp, e.end); }
    }
  }

  lemma {:induction false} MoreNoTrail(inp: Input, pos: nat)
    ensures var r := RunMore(inp, pos, LArgs, On); r.LOk? ==> r.trail == Off
    decreases |inp.toks| - pos
  {
    hide RunElem;
    if KindAt(inp, pos) == Comma {
      var e := RunElem(inp, pos + 1, CExpr, On);
      if e.Ok? { MoreNoTrail(inp, e.end); }
    }
  }

  lemma LinkArgs(inp: Input, pos: nat, l: ListOut)
    requires KindAt(inp, pos) == RParen ==> l == ListOut(true, pos, [])
    requires KindAt(inp, pos) != RParen ==> AgreesItems(inp, pos, l, RunItems(inp, pos, LArgs, On))
    ensures AgreesItems(inp, pos, l, RunArgs(inp, pos))
  {
    hide M, Ast, RunItems;
  }

  lemma LinkIndex(inp: Input, start: nat, lhs: Syn, b: Out, l: ListOut, o: Out)
    requires b.ok && Stands(inp, start, lhs, b.end, b.tree) && KindAt(inp, b.end) == LSquare
    requires AgreesItems(inp, b.end + 1, l, RunItems(inp, b.end + 1, LIndex, On))
    requires o.ok == (l.ok && KindAt(inp, l.end) == RSquare)
    requires o.ok ==> o.end == l.end + 1
                      && o.tree
                         == Node(if |l.trees| > 1 then TensorIndexExpr else IndexExpr, SpanOf(b.tree).start,
                                 EndOf(inp, l.end), Zero, [b.tree] + l.trees)
    ensures Continues(inp, start, o, RunIndex(inp, b.end + 1, lhs))
  {
    hide M, Ast, RunItems, MItems, AstItems, Size;
    var r := RunItems(inp, b.end + 1, LIndex, On);
    if o.ok {
      ItemCount(inp, b.end + 1, r.items);
      StandsEx(inp, start, EIndex(lhs, r.items, r.trail), o.end, o.tree);
    }
  }

  lemma LinkCast(inp: Input, start: nat, sl: Switch, lhs: Syn, b: Out, ty: Out, o: Out)
    requires b.ok && Stands(inp, start, lhs, b.end, b.tree) && KindAt(inp, b.end) == KwAs
    requires Agrees(inp, b.end + 1, ty, RunType(inp, b.end + 1, sl)) && o.ok == ty.ok
    requires o.ok ==>
             o.end == ty.end
             && o.tree == Node(CastExpr, SpanOf(b.tree).start, SpanOf(ty.tree).end, Zero, [b.tree, ty.tree])
    ensures Continues(inp, start, o, RunCast(inp, b.end + 1, sl, lhs))
  {
    hide M, Ast, RunType;
    if o.ok { StandsEx(inp, start, ECast(lhs, RunType(inp, b.end + 1, sl).syn), o.end, o.tree); }
  }

  lemma LinkTry(inp: Input, start: nat, lhs: Syn, b: Out, t: Tree)
    requires b.ok && Stands(inp, start, lhs, b.end, b.tree) && KindAt(inp, b.end) == Question
    requires t == Node(PropagateExpr, SpanOf(b.tree).start, EndOf(inp, b.end), Zero, [b.tree])
    ensures Stands(inp, start, Ex(ETry(lhs)), b.end + 1, t)
  {
    hide M, Ast;
    StandsEx(inp, start, ETry(lhs), b.end + 1, t);
  }

  lemma LinkField(inp: Input, start: nat, lhs: Syn, b: Out, o: Out)
    requires b.ok && Stands(inp, start, lhs, b.end, b.tree) && KindAt(inp, b.end) == Dot
    requires KindAt(inp, b.end + 1) == Identifier && o.ok && o.end == b.end + 2
    requires o.tree
             == Node(FieldExpr, SpanOf(b.tree).start, EndOf(inp, b.end + 1),
                     NameRegime(TokText(inp, b.end + 1), NoRegime), [b.tree])
    ensures Continues(inp, start, o, RunDot(inp, b.end + 1, lhs))
  {
    hide M, Ast, TokText;
    StandsEx(inp, start, EField(lhs), o.end, o.tree);
  }

  lemma LinkTupleIndex(inp: Input, start: nat, lhs: Syn, b: Out, o: Out)
    requires b.ok && Stands(inp, start, lhs, b.end, b.tree) && KindAt(inp, b.end) == Dot
    requires KindAt(inp, b.end + 1) == IntegerLiteral && o.ok && o.end == b.end + 2
    requires o.tree
             == Node(TupleIndexExpr, SpanOf(b.tree).start, EndOf(inp, b.end + 1), Name(TokText(inp, b.end + 1)),
                     [b.tree])
    ensures Continues(inp, start, o, RunDot(inp, b.end + 1, lhs))
  {
    hide M, Ast, TokText;
    StandsEx(inp, start, ETupleIdx(lhs), o.end, o.tree);
  }

  lemma LinkFloatIndex(inp: Input, start: nat, lhs: Syn, b: Out, o: Out, inner: Tree)
    requires b.ok && Stands(inp, start, lhs, b.end, b.tree) && KindAt(inp, b.end) == Dot
    requires KindAt(inp, b.end + 1) == FloatLiteral && o.ok && o.end == b.end + 2
    requires !FloatSplit(TokText(inp, b.end + 1)).NoSplit?
    requires var sp := FloatSplit(TokText(inp, b.end + 1));
             var (a, z) := (SpanOf(b.tree).start, EndOf(inp, b.end + 1));
             && inner == Node(TupleIndexExpr, a, z, Name(sp.whole), [b.tree])
             && o.tree == (if sp.Two? then Node(TupleIndexExpr, a, z, Name(sp.frac), [inner]) else inner)
    ensures Continues(inp, start, o, RunDot(inp, b.end + 1, lhs))
  {
    hide M, Ast, TokText, FloatSplit;
    var sp := FloatSplit(TokText(inp, b.end + 1));
    StandsEx(inp, start, EFloatIdx(lhs, sp.Two?), o.end, o.tree);
  }

  lemma DotFails(inp: Input, pos: nat, lhs: Syn)
    requires KindAt(inp, pos) != Identifier && KindAt(inp, pos) != IntegerLiteral
    requires KindAt(inp, pos) == FloatLiteral ==> FloatSplit(TokText(inp, pos)).NoSplit?
    ensures RunDot(inp, pos, lhs).Fail?
  {
    hide TokText, FloatSplit;
  }

  // While postfix operators are read behind `lhs`: the expression so far is `cur`.
  ghost predicate PostfixSoFar(inp: Input, start: nat, p0: nat, sl: Switch, lhs: Syn, cur: Syn, o: Out) {
    && (o.ok ==> Stands(inp, start, cur, o.end, o.tree))
    && (o.ok ==> RunPostfix(inp, p0, sl, lhs) == RunPostfix(inp, o.end, sl, cur))
    && (!o.ok ==> RunPostfix(inp, p0, sl, lhs).Fail?)
  }

  lemma PostfixStep(inp: Input, start: nat, p0: nat, sl: Switch, lhs: Syn, cur: Syn, b: Out, o: Out) returns (cur1: Syn)
    requires PostfixSoFar(inp, start, p0, sl, lhs, cur, b)
    requires b.ok ==> IsPostfix(KindAt(inp, b.end)) && Continues(inp, start, o, RunPostfix1(inp, b.end, sl, cur))
    requires !b.ok ==> !o.ok
    ensures PostfixSoFar(inp, start, p0, sl, lhs, cur1, o)
  {
    hide M, Ast, RunPostfix1, IsPostfix;
    cur1 := if o.ok then RunPostfix1(inp, b.end, sl, cur).syn else cur;
  }

  // One turn of the loop.
  lemma LoopStep(inp: Input, pos: nat, m: int, sl: Switch, cur: Syn)
    ensures var p := RunPostfix(inp, pos, sl, cur);
            p.Fail? ==> RunLoop(inp, pos, m, sl, cur).Fail?
    ensures var p := RunPostfix(inp, pos, sl, cur);
            p.Ok? && (LeftPower(KindAt(inp, p.end)) < m || KindAt(inp, p.end) == Eof) ==>
              RunLoop(inp, pos, m, sl, cur) == p
    ensures var p := RunPostfix(inp, pos, sl, cur);
            p.Ok? && LeftPower(KindAt(inp, p.end)) >= m && KindAt(inp, p.end) != Eof ==>
            (var k := KindAt(inp, p.end);
             var r := RunExpr(inp, p.end + 1, RightPower(k), sl);
             RunLoop(inp, pos, m, sl, cur)
               == if r.Fail? then Fail else RunLoop(inp, r.end, m, sl, Ex(EBin(p.syn, k, r.syn))))
  {
    hide RunPostfix, RunExpr, LeftPower, RightPower;
    var p := RunPostfix(inp, pos, sl, cur);
    if p.Ok? {
      assert RunLoop(inp, pos, m, sl, cur) == RunInfix(inp, p.end, m, sl, p.syn);
    }
  }

  /////////////////////////// control flow ///////////////////////////

  lemma LinkBlock(inp: Input, pos: nat, sl: Switch, l: ListOut, o: Out)
    requires KindAt(inp, pos) == LBrace ==> AgreesSeq(inp, pos + 1, l, RunStmts(inp, pos + 1, sl))
    requires o.ok == (KindAt(inp, pos) == LBrace && l.ok && KindAt(inp, l.end) == RBrace)
    requires o.ok ==>
             o.end == l.end + 1 && o.tree == Node(BlockExpr, StartOf(inp, pos), EndOf(inp, l.end), Zero, l.trees)
    ensures Agrees(inp, pos, o, RunBlock(inp, pos, sl))
  {
    hide M, Ast, RunStmts, MSeq, AstSeq;
    if o.ok { StandsEx(inp, pos, EBlock(RunStmts(inp, pos + 1, sl).items), o.end, o.tree); }
  }

  lemma LinkUnsafe(inp: Input, pos: nat, sl: Switch, l: ListOut, o: Out)
    requires KindAt(inp, pos) == KwUnsafe
    requires KindAt(inp, pos + 1) == LBrace ==> AgreesSeq(inp, pos + 2, l, RunStmts(inp, pos + 2, sl))
    requires o.ok == (KindAt(inp, pos + 1) == LBrace && l.ok && KindAt(inp, l.end) == RBrace)
    requires o.ok ==>
             o.end == l.end + 1 && o.tree == Node(UnsafeBlock, StartOf(inp, pos), EndOf(inp, l.end), Zero, l.trees)
    ensures Agrees(inp, pos, o, RunUnsafe(inp, pos, sl))
  {
    hide M, Ast, RunStmts, MSeq, AstSeq;
    if o.ok { StandsEx(inp, pos, EUnsafe(RunStmts(inp, pos + 2, sl).items), o.end, o.tree); }
  }

  lemma LinkWhile(inp: Input, pos: nat, sl: Switch, c: Out, b: Out, o: Out)
    requires KindAt(inp, pos) == KwWhile && Agrees(inp, pos + 1, c, RunExpr(inp, pos + 1, 0, Off))
    requires c.ok ==> Agrees(inp, c.end, b, RunBlock(inp, c.end, sl))
    requires o.ok == (c.ok && b.ok)
    requires o.ok ==>
             o.end == b.end
             && o.tree == Node(WhileStmt, StartOf(inp, pos), EndOf(inp, b.end - 1), Zero, [c.tree, b.tree])
    ensures Agrees(inp, pos, o, RunWhile(inp, pos, sl))
  {
    hide M, Ast, RunExpr, RunBlock;
    if o.ok {
      StandsEx(inp, pos, EWhile(RunExpr(inp, pos + 1, 0, Off).syn, RunBlock(inp, c.end, sl).syn), o.end, o.tree);
    }
  }

  // `e` is the outcome of what follows `else`, when there is one.
  lemma LinkIf(inp: Input, pos: nat, sl: Switch, c: Out, t: Out, e: Out, o: Out)
    requires KindAt(inp, pos) == KwIf && Agrees(inp, pos + 1, c, RunExpr(inp, pos + 1, 0, Off))
    requires c.ok ==> Agrees(inp, c.end, t, RunBlock(inp, c.end, sl))
    requires c.ok && t.ok && KindAt(inp, t.end) == KwElse ==> Agrees(inp, t.end + 1, e, RunElse(inp, t.end + 1, sl))
    requires o.ok == (c.ok && t.ok && (KindAt(inp, t.end) == KwElse ==> e.ok))
    requires o.ok && KindAt(inp, t.end) != KwElse ==>
             o.end == t.end && o.tree == Node(IfExpr, StartOf(inp, pos), EndOf(inp, t.end - 1), Zero, [c.tree, t.tree])
    requires o.ok && KindAt(inp, t.end) == KwElse ==>
             o.end == e.end && o.tree == Node(IfExpr, StartOf(inp, pos), EndOf(inp, e.end - 1), Zero,
                                              [c.tree, t.tree] + [e.tree])
    ensures Agrees(inp, pos, o, RunIf(inp, pos, sl))
  {
    hide M, Ast, RunExpr, RunBlock, RunElse;
    if o.ok {
      var els := if KindAt(inp, t.end) == KwElse then RunElse(inp, t.end + 1, sl).syn else Absent;
      ElsePresent(inp, t.end + 1, sl);
      StandsEx(inp, pos, EIf(RunExpr(inp, pos + 1, 0, Off).syn, RunBlock(inp, c.end, sl).syn, els), o.end, o.tree);
    }
  }

  lemma ElsePresent(inp: Input, pos: nat, sl: Switch)
    ensures var r := RunElse(inp, pos, sl); r.Ok? ==> !r.syn.Absent?
    ensures RunElse(inp, pos, sl) == if KindAt(inp, pos) == KwIf then RunIf(inp, pos, sl) else RunBlock(inp, pos, sl)
  {
    hide RunIf, RunBlock, M, WF, Follow;
    Soundness.SoundElse(inp, pos, sl);
  }

  lemma LinkMatch(inp: Input, pos: nat, sl: Switch, c: Out, l: ListOut, o: Out)
    requires KindAt(inp, pos) == KwMatch && Agrees(inp, pos + 1, c, RunExpr(inp, pos + 1, 0, Off))
    requires c.ok && KindAt(inp, c.end) == LBrace ==> AgreesSeq(inp, c.end + 1, l, RunArms(inp, c.end + 1, sl))
    requires o.ok == (c.ok && KindAt(inp, c.end) == LBrace && l.ok && KindAt(inp, l.end) == RBrace)
    requires o.ok ==>
             o.end == l.end + 1
             && o.tree == Node(MatchExpr, StartOf(inp, pos), EndOf(inp, l.end), Zero, [c.tree] + l.trees)
    ensures Agrees(inp, pos, o, RunMatch(inp, pos, sl))
  {
    hide M, Ast, RunExpr, RunArms, MSeq, AstSeq;
    if o.ok {
      StandsEx(inp, pos, EMatch(RunExpr(inp, pos + 1, 0, Off).syn, RunArms(inp, c.end + 1, sl).items), o.end, o.tree);
    }
  }

  lemma LinkArm(inp: Input, pos: nat, sl: Switch, p: Out, v: Out, o: Out)
    requires Agrees(inp, pos, p, RunPat(inp, pos, sl))
    requires p.ok && KindAt(inp, p.end) == FatArrow ==> Agrees(inp, p.end + 1, v, RunExpr(inp, p.end + 1, 0, sl))
    requires o.ok == (p.ok && KindAt(inp, p.end) == FatArrow && v.ok)
    requires o.ok ==> o.end == (if KindAt(inp, v.end) == Comma || KindAt(inp, v.end) == Semi then v.end + 1 else v.end)
    requires o.ok ==> o.tree == Node(MatchArm, SpanOf(p.tree).start, SpanOf(v.tree).end, Zero, [p.tree, v.tree])
    ensures Agrees(inp, pos, o, RunArm(inp, pos, sl))
  {
    hide M, Ast, RunExpr, RunPat;
    if o.ok {
      var (a, b) := (RunPat(inp, pos, sl).syn, RunExpr(inp, p.end + 1, 0, sl).syn);
      StandsAr(inp, pos, a, b, KindAt(inp, v.end) == Comma || KindAt(inp, v.end) == Semi, o.end, o.tree);
    }
  }

  lemma StandsAr(inp: Input, pos: nat, p: Syn, v: Syn, sep: bool, end: nat, t: Tree)
    requires M(inp, pos, p) >= 0 && KindAt(inp, M(inp, pos, p)) == FatArrow
    requires var q := M(inp, M(inp, pos, p) + 1, v);
             && q > pos && sep == (KindAt(inp, q) == Comma || KindAt(inp, q) == Semi)
             && end == (if sep then q + 1 else q)
    requires t == Node(MatchArm, SpanOf(Ast(inp, pos, p)).start, SpanOf(Ast(inp, M(inp, pos, p) + 1, v)).end, Zero,
                       [Ast(inp, pos, p), Ast(inp, M(inp, pos, p) + 1, v)])
    ensures Stands(inp, pos, Ar(p, v, sep), end, t)
  {
    hide M, AstType, AstPat, AstField, AstTail, AstExpr, AstStmt, WF;
    Soundness.DefAr(inp, pos, p, v, sep, Off);
  }

  /////////////////////////// statements ///////////////////////////

  // A statement that is an expression of its own, and one that a semicolon ends.
  lemma LinkItem(inp: Input, pos: nat, o: Out, r: Res)
    requires Agrees(inp, pos, o, r) && (r.Ok? ==> !r.syn.Absent?)
    ensures Agrees(inp, pos, o, AsItem(r))
  {
    hide M, Ast;
    if o.ok { StandsSt(inp, pos, SItem(r.syn), o.end, o.tree); }
  }

  lemma ItemsPresent(inp: Input, pos: nat, sl: Switch)
    ensures KindAt(inp, pos) == KwIf && RunIf(inp, pos, sl).Ok? ==> RunIf(inp, pos, sl).syn.Ex?
    ensures KindAt(inp, pos) == KwWhile && RunWhile(inp, pos, sl).Ok? ==> RunWhile(inp, pos, sl).syn.Ex?
    ensures RunBlock(inp, pos, sl).Ok? ==> RunBlock(inp, pos, sl).syn.Ex?
    ensures KindAt(inp, pos) == KwUnsafe && RunUnsafe(inp, pos, sl).Ok? ==> RunUnsafe(inp, pos, sl).syn.Ex?
  {
    hide M, WF, Follow, RunIf, RunWhile, RunBlock, RunUnsafe;
    if KindAt(inp, pos) == KwIf { Soundness.SoundIf(inp, pos, sl); }
    if KindAt(inp, pos) == KwWhile { Soundness.SoundWhile(inp, pos, sl); }
    if KindAt(inp, pos) == KwUnsafe { Soundness.SoundUnsafe(inp, pos, sl); }
    Soundness.SoundBlock(inp, pos, sl);
  }

  lemma StmtCases(inp: Input, pos: nat, sl: Switch)
    ensures var k := KindAt(inp, pos); var r := RunStmt(inp, pos, sl);
            && (k == KwLet ==> r == RunLet(inp, pos, sl))
            && (k == KwIf ==> r == AsItem(RunIf(inp, pos, sl)))
            && (k == KwFor ==> r == RunFor(inp, pos, sl))
            && (k == KwWhile ==> r == AsItem(RunWhile(inp, pos, sl)))
            && (k == LBrace ==> r == AsItem(RunBlock(inp, pos, sl)))
            && (k == KwRet ==> r == RunRet(inp, pos, sl))
            && (k == KwUnsafe ==> r == AsItem(RunUnsafe(inp, pos, sl)))
            && (!StartsStmt(k) && !IsExprStmtStart(k) ==> r.Fail?)
  {
    hide RunLet, RunIf, RunFor, RunWhile, RunBlock, RunRet, RunUnsafe, RunExpr;
  }

  predicate StartsStmt(k: Kind) {
    k == KwLet || k == KwIf || k == KwFor || k == KwWhile || k == LBrace || k == KwRet || k == KwBreak
    || k == KwContinue || k == KwUnsafe
  }

  lemma LinkExprStmt(inp: Input, pos: nat, sl: Switch, e: Out, o: Out)
    requires IsExprStmtStart(KindAt(inp, pos)) && Agrees(inp, pos, e, RunExpr(inp, pos, 0, sl))
    requires o.ok == (e.ok && KindAt(inp, e.end) == Semi)
    requires o.ok ==> o.end == e.end + 1 && o.tree == e.tree
    ensures Agrees(inp, pos, o, RunStmt(inp, pos, sl))
  {
    hide M, Ast, RunExpr;
    if o.ok { StandsSt(inp, pos, SExpr(RunExpr(inp, pos, 0, sl).syn), o.end, o.tree); }
  }

  lemma LinkBreak(inp: Input, pos: nat, sl: Switch, o: Out)
    requires KindAt(inp, pos) == KwBreak || KindAt(inp, pos) == KwContinue
    requires o.ok == (KindAt(inp, pos + 1) == Semi)
    requires o.ok ==> o.end == pos + 2
                      && o.tree
                         == Leaf(if KindAt(inp, pos) == KwBreak then BreakStmt else ContinueStmt,
                                 TokenAt(inp, pos).span, Zero)
    ensures Agrees(inp, pos, o, RunStmt(inp, pos, sl))
  {
    hide M, Ast;
    if o.ok { StandsSt(inp, pos, if KindAt(inp, pos) == KwBreak then SBreak else SContinue, o.end, o.tree); }
  }

  lemma LinkRet(inp: Input, pos: nat, sl: Switch, e: Out, o: Out)
    requires KindAt(inp, pos) == KwRet && Agrees(inp, pos + 1, e, RunExpr(inp, pos + 1, 0, sl))
    requires o.ok == (e.ok && KindAt(inp, e.end) == Semi)
    requires o.ok ==>
             o.end == e.end + 1 && o.tree == Node(RetStmt, StartOf(inp, pos), EndOf(inp, e.end), Zero, [e.tree])
    ensures Agrees(inp, pos, o, RunRet(inp, pos, sl))
  {
    hide M, Ast, RunExpr;
    if o.ok { StandsSt(inp, pos, SRet(RunExpr(inp, pos + 1, 0, sl).syn), o.end, o.tree); }
  }

  // The name of a `let` or `for` stands behind its keyword and an optional regime.
  function NameAt(inp: Input, pos: nat): nat { if IsRegime(KindAt(inp, pos + 1)) then pos + 2 else pos + 1 }

  lemma LinkFor(inp: Input, pos: nat, sl: Switch, it: Out, b: Out, o: Out)
    requires KindAt(inp, pos) == KwFor
    requires var n := NameAt(inp, pos);
             KindAt(inp, n) == Identifier && KindAt(inp, n + 1) == KwIn ==>
               Agrees(inp, n + 2, it, RunExpr(inp, n + 2, 0, Off))
    requires var n := NameAt(inp, pos);
             KindAt(inp, n) == Identifier && KindAt(inp, n + 1) == KwIn && it.ok ==>
               Agrees(inp, it.end, b, RunBlock(inp, it.end, sl))
    requires var n := NameAt(inp, pos);
             o.ok == (KindAt(inp, n) == Identifier && KindAt(inp, n + 1) == KwIn && it.ok && b.ok)
    requires o.ok ==> o.end == b.end
    requires o.ok ==> o.tree == Node(ForStmt, StartOf(inp, pos), SpanOf(b.tree).end,
                                     NameRegime(TokText(inp, NameAt(inp, pos)), RegimeOf(KindAt(inp, pos + 1))),
                                       [it.tree, b.tree])
    ensures Agrees(inp, pos, o, RunFor(inp, pos, sl))
  {
    hide M, Ast, RunExpr, RunBlock, TokText, RegimeOf;
    var n := NameAt(inp, pos);
    if o.ok {
      StandsSt(inp, pos,
               SFor(IsRegime(KindAt(inp, pos + 1)), RunExpr(inp, n + 2, 0, Off).syn, RunBlock(inp, it.end, sl).syn),
               o.end, o.tree);
    }
  }

  // The optional type and the optional initialiser of a `let`: an absent one leaves no child.
  ghost predicate AgreesOpt(inp: Input, pos: nat, o: ListOut, r: Res, intro: Kind) {
    && o.ok == r.Ok?
    && (o.ok ==> o.end == r.end && if KindAt(inp, pos) == intro
                 then !r.syn.Absent? && M(inp, pos + 1, r.syn) == o.end && o.trees == [Ast(inp, pos + 1, r.syn)]
                 else r.syn.Absent? && o.end == pos && o.trees == [])
  }

  lemma LinkOptType(inp: Input, pos: nat, sl: Switch, e: Out, o: ListOut)
    requires KindAt(inp, pos) == Colon ==>
             Agrees(inp, pos + 1, e, RunType(inp, pos + 1, sl)) && o == ListOut(e.ok, e.end, [e.tree])
    requires KindAt(inp, pos) != Colon ==> o == ListOut(true, pos, [])
    ensures AgreesOpt(inp, pos, o, RunOptType(inp, pos, sl), Colon)
  {
    hide M, Ast, RunType;
    TypePresent(inp, pos + 1, sl);
  }

  lemma TypePresent(inp: Input, pos: nat, sl: Switch)
    ensures var r := RunType(inp, pos, sl); r.Ok? ==> r.syn.Ty?
  {
    hide RunComma, RunSegs, RunExpr;
  }

  lemma LinkOptInit(inp: Input, pos: nat, sl: Switch, e: Out, o: ListOut)
    requires KindAt(inp, pos) == Eq ==>
             Agrees(inp, pos + 1, e, RunExpr(inp, pos + 1, 0, sl)) && o == ListOut(e.ok, e.end, [e.tree])
    requires KindAt(inp, pos) != Eq ==> o == ListOut(true, pos, [])
    ensures AgreesOpt(inp, pos, o, RunOptInit(inp, pos, sl), Eq)
  {
    hide M, Ast, RunExpr;
    Soundness.SoundExpr(inp, pos + 1, 0, sl);
  }

  lemma LinkLet(inp: Input, pos: nat, sl: Switch, ty: ListOut, init: ListOut, o: Out)
    requires KindAt(inp, pos) == KwLet
    requires var n := NameAt(inp, pos); KindAt(inp, n) == Identifier ==>
      AgreesOpt(inp, n + 1, ty, RunOptType(inp, n + 1, sl), Colon)
    requires KindAt(inp, NameAt(inp, pos)) == Identifier && ty.ok ==>
             AgreesOpt(inp, ty.end, init, RunOptInit(inp, ty.end, sl), Eq)
    requires o.ok == (KindAt(inp, NameAt(inp, pos)) == Identifier && ty.ok && init.ok && KindAt(inp, init.end) == Semi)
    requires o.ok ==> o.end == init.end + 1
    requires o.ok ==> o.tree == Node(LetStmt, StartOf(inp, pos), EndOf(inp, init.end),
                                     NameRegime(TokText(inp, NameAt(inp, pos)), RegimeOf(KindAt(inp, pos + 1))),
                                       ty.trees + init.trees)
    ensures Agrees(inp, pos, o, RunLet(inp, pos, sl))
  {
    hide M, Ast, RunOptType, RunOptInit, TokText, RegimeOf;
    var n := NameAt(inp, pos);
    if o.ok {
      var (t, i) := (RunOptType(inp, n + 1, sl).syn, RunOptInit(inp, ty.end, sl).syn);
      StandsSt(inp, pos, SLet(IsRegime(KindAt(inp, pos + 1)), t, i), o.end, o.tree);
    }
  }
}
