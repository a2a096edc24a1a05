/** Declarations as trees: what tree, ending where, the tokens from a position on stand for when the
    parser reads them cleanly. The parser's own methods are proved to compute exactly this. */
module Declarations {
  import opened Tokens
  import opened Trees
  import opened Grammar
  import opened Spelling
  import opened ErrorFree
  import opened Soundness
  import opened Outcomes
  import opened Pool
  import opened DeclGrammar
  import opened DeclRuns

  datatype Read = NoRead | Read(end: nat, tree: Tree)
  datatype Reads = NoReads | Reads(end: nat, trees: seq<Tree>)

  // A call was clean exactly when something can be read, and then it read that.
  ghost predicate Says(o: Out, r: Read) {
    o.ok == r.Read? && (o.ok ==> o.end == r.end && o.tree == r.tree)
  }

  ghost predicate SaysAll(o: ListOut, r: Reads) {
    o.ok == r.Reads? && (o.ok ==> o.end == r.end && o.trees == r.trees)
  }

  lemma FailSays(o: Out, r: Read)
    requires !o.ok && r.NoRead?
    ensures Says(o, r)
  {
  }

  function OneOut(o: Out): ListOut { ListOut(o.ok, o.end, [o.tree]) }

  function Before(ts: seq<Tree>, r: Reads): Reads { if r.NoReads? then NoReads else Reads(r.end, ts + r.trees) }

  /////////////////////////// types, values, blocks ///////////////////////////

  function ReadSyn(inp: Input, pos: nat, r: Res): Read {
    match r
    case Fail => NoRead
    case Ok(s, q) => Read(q, Ast(inp, pos, s))
  }

  function ReadBody(inp: Input, pos: nat, body: Switch, sl: Switch): Read {
    match RunBody(inp, pos, body, sl)
    case Stuck => NoRead
    case Done(b, z) => Read(z, Ast(inp, pos, b))
  }

  lemma AgreesSays(inp: Input, pos: nat, o: Out, r: Res)
    requires Agrees(inp, pos, o, r)
    ensures Says(o, ReadSyn(inp, pos, r))
  {
    hide M, Ast;
  }

  /////////////////////////// parts ///////////////////////////

  function ReadPart(inp: Input, pos: nat, r: Run<Part>): Read {
    match r
    case Stuck => NoRead
    case Done(p, z) => Read(z, AstPart(inp, pos, p))
  }

  function ReadField(inp: Input, pos: nat, sl: Switch): Read { ReadPart(inp, pos, RunMember(inp, pos, sl)) }

  function ReadParam(inp: Input, pos: nat, sl: Switch): Read { ReadPart(inp, pos, RunParam(inp, pos, sl)) }

  function ReadGeneric(inp: Input, pos: nat, sl: Switch): Read { ReadPart(inp, pos, RunGeneric(inp, pos, sl)) }

  function ReadVariant(inp: Input, pos: nat, sl: Switch): Read { ReadPart(inp, pos, RunVariant(inp, pos, sl)) }

  function ReadOne(inp: Input, pos: nat, e: DeclItem, sl: Switch): Read { ReadPart(inp, pos, RunPart(inp, pos, e, sl)) }

  lemma NoField(inp: Input, pos: nat, sl: Switch)
    requires KindAt(inp, AfterRegime(inp, pos)) != Identifier || KindAt(inp, AfterRegime(inp, pos) + 1) != Colon
    ensures ReadField(inp, pos, sl).NoRead?
  {
    hide RunType;
  }

  lemma NoVariant(inp: Input, pos: nat, sl: Switch)
    requires KindAt(inp, pos) != Identifier
    ensures ReadVariant(inp, pos, sl).NoRead? && ReadGeneric(inp, pos, sl).NoRead?
  {
    hide RunParts, RunComma, RunExpr, RunType;
  }

  lemma NothingAtEof(inp: Input, pos: nat, e: DeclItem, sl: Switch)
    ensures KindAt(inp, pos) == Eof ==> ReadOne(inp, pos, e, sl).NoRead?
  {
    hide RunParts, RunComma, RunExpr, RunType;
    if KindAt(inp, pos) == Eof {
      assert AfterRegime(inp, pos) == pos;
      match e
      case DField =>
      case DVariant => NoVariant(inp, pos, sl);
      case DGeneric =>
      case DParam =>
    }
  }

  lemma OneIs(inp: Input, pos: nat, sl: Switch)
    ensures ReadOne(inp, pos, DField, sl) == ReadField(inp, pos, sl)
    ensures ReadOne(inp, pos, DVariant, sl) == ReadVariant(inp, pos, sl)
    ensures ReadOne(inp, pos, DGeneric, sl) == ReadGeneric(inp, pos, sl)
    ensures ReadOne(inp, pos, DParam, sl) == ReadParam(inp, pos, sl)
  {
    hide RunMember, RunVariant, RunGeneric, RunParam;
  }

  lemma LinkMember(inp: Input, pos: nat, sl: Switch, ty: Out, o: Out)
    requires KindAt(inp, AfterRegime(inp, pos)) == Identifier && KindAt(inp, AfterRegime(inp, pos) + 1) == Colon
    requires Agrees(inp, AfterRegime(inp, pos) + 2, ty, RunType(inp, AfterRegime(inp, pos) + 2, sl)) && o.ok == ty.ok
    requires o.ok ==> o.end == ty.end && o.tree == Node(StructField, StartOf(inp, pos), EndOf(inp, o.end - 1),
                        NameRegime(TokText(inp, AfterRegime(inp, pos)), RegimeOf(KindAt(inp, pos))), [ty.tree])
    ensures Says(o, ReadField(inp, pos, sl))
  {
    hide Agrees, M, Ast, TextOf, RunType, MPart;
    AgreesSays(inp, AfterRegime(inp, pos) + 2, ty, RunType(inp, AfterRegime(inp, pos) + 2, sl));
    SoundMember(inp, pos, sl);
  }

  lemma LinkParam(inp: Input, pos: nat, sl: Switch, ty: Out, o: Out)
    requires var n := AfterRegime(inp, pos);
             && (KindAt(inp, n) == Identifier ==> !IsSelfParam(inp, n))
             && (KindAt(inp, n) == Identifier && KindAt(inp, n + 1) == Colon ==>
                 Agrees(inp, n + 2, ty, RunType(inp, n + 2, sl)))
             && o.ok == (KindAt(inp, n) == Identifier && KindAt(inp, n + 1) == Colon && ty.ok)
             && (o.ok ==> o.end == ty.end && o.tree == Node(Param, StartOf(inp, pos), EndOf(inp, o.end - 1),
                            NameRegime(TokText(inp, n), RegimeOf(KindAt(inp, pos))), [ty.tree]))
    ensures Says(o, ReadParam(inp, pos, sl))
  {
    hide Agrees, M, Ast, TextOf, RunType, MPart;
    var n := AfterRegime(inp, pos);
    if KindAt(inp, n) == Identifier && KindAt(inp, n + 1) == Colon {
      AgreesSays(inp, n + 2, ty, RunType(inp, n + 2, sl));
    }
    SoundParam(inp, pos, sl);
  }

  lemma LinkSelfParam(inp: Input, pos: nat, sl: Switch, o: Out)
    requires var n := AfterRegime(inp, pos);
             && (KindAt(inp, n) == Identifier ==> IsSelfParam(inp, n)) && o.ok == (KindAt(inp, n) == Identifier)
             && (o.ok ==> o.end == n + 1 && o.tree == Node(Param, StartOf(inp, pos), EndOf(inp, n),
                            NameRegime(TokText(inp, n), RegimeOf(KindAt(inp, pos))),
                              [Leaf(NamedType, TokenAt(inp, n).span, Name("Self"))]))
    ensures Says(o, ReadParam(inp, pos, sl))
  {
    hide TextOf, RunType, MPart;
    SoundParam(inp, pos, sl);
  }

  lemma LinkGeneric(inp: Input, pos: nat, sl: Switch, ty: Out, o: Out)
    requires KindAt(inp, pos) == Identifier
    requires if KindAt(inp, pos + 1) == Colon
             then Agrees(inp, pos + 2, ty, RunType(inp, pos + 2, sl)) else ty == Out(true, pos + 1, NullTree)
    requires o.ok == ty.ok
    requires o.ok ==>
             o.end == ty.end
             && o.tree
             == Node(GenericParam, StartOf(inp, pos), EndOf(inp, o.end - 1), Name(TokText(inp, pos)), [ty.tree])
    ensures Says(o, ReadGeneric(inp, pos, sl))
  {
    hide Agrees, M, Ast, TextOf, RunType, MPart;
    if KindAt(inp, pos + 1) == Colon { AgreesSays(inp, pos + 2, ty, RunType(inp, pos + 2, sl)); }
    SoundGeneric(inp, pos, sl);
  }

  lemma LinkVariantUnit(inp: Input, pos: nat, sl: Switch, value: Out, o: Out)
    requires KindAt(inp, pos) == Identifier && KindAt(inp, pos + 1) != LParen && KindAt(inp, pos + 1) != LBrace
    requires KindAt(inp, pos + 1) == Eq ==> Agrees(inp, pos + 2, value, RunExpr(inp, pos + 2, 0, sl))
    requires o.ok == (KindAt(inp, pos + 1) == Eq ==> value.ok)
    requires o.ok ==> o.end == if KindAt(inp, pos + 1) == Eq then value.end else pos + 1
    requires o.ok ==>
             o.tree
             == Node(EnumVariantUnit, StartOf(inp, pos), EndOf(inp, o.end - 1), NameRegime(TokText(inp, pos), NoRegime),
                                     if KindAt(inp, pos + 1) == Eq then [value.tree] else [])
    ensures Says(o, ReadVariant(inp, pos, sl))
  {
    hide Agrees, M, Ast, TextOf, RunParts, RunComma, RunExpr, MPart;
    if KindAt(inp, pos + 1) == Eq { AgreesSays(inp, pos + 2, value, RunExpr(inp, pos + 2, 0, sl)); }
    SoundVariant(inp, pos, sl);
  }

  lemma LinkVariantWith(inp: Input, pos: nat, sl: Switch, l: ListOut, o: Out)
    requires KindAt(inp, pos) == Identifier && (KindAt(inp, pos + 1) == LParen || KindAt(inp, pos + 1) == LBrace)
    requires if KindAt(inp, pos + 1) == LParen then AgreesItems(inp, pos + 2, l, RunComma(inp, pos + 2, LTypes, sl))
             else SaysAll(l, ReadItems(inp, pos + 2, DField, sl))
    requires var tuple := KindAt(inp, pos + 1) == LParen;
             && o.ok == (l.ok && KindAt(inp, l.end) == if tuple then RParen else RBrace)
             && (o.ok ==> o.end == l.end + 1 && o.tree == Node(if tuple then EnumVariantTuple else EnumVariantStruct,
                            StartOf(inp, pos), EndOf(inp, l.end), NameRegime(TokText(inp, pos), NoRegime), l.trees))
    ensures Says(o, ReadVariant(inp, pos, sl))
  {
    hide TextOf, RunParts, RunComma, AstItems, MItems, AstParts, RunExpr, MPart;
    SoundVariant(inp, pos, sl);
  }

  /////////////////////////// comma lists ///////////////////////////

  function ReadItems(inp: Input, pos: nat, e: DeclItem, sl: Switch): Reads {
    match RunParts(inp, pos, e, sl)
    case Stuck => NoReads
    case Done(l, z) => Reads(z, AstParts(inp, pos, l.items))
  }

  function ReadMore(inp: Input, pos: nat, e: DeclItem, sl: Switch): Reads {
    match RunMoreParts(inp, pos, e, sl)
    case Stuck => NoReads
    case Done(l, z) => Reads(z, AstMoreParts(inp, pos, l.items))
  }

  // One turn of a list.
  lemma MoreIs(inp: Input, pos: nat, e: DeclItem, sl: Switch)
    ensures KindAt(inp, pos) != Comma ==> ReadMore(inp, pos, e, sl) == Reads(pos, [])
    ensures KindAt(inp, pos) == Comma && !e.DParam? && KindAt(inp, pos + 1) == Closer(e) ==>
            ReadMore(inp, pos, e, sl) == Reads(pos + 1, [])
    ensures KindAt(inp, pos) == Comma && (e.DParam? || KindAt(inp, pos + 1) != Closer(e)) ==>
            var x := ReadOne(inp, pos + 1, e, sl);
            ReadMore(inp, pos, e, sl) == if x.NoRead? then NoReads else Before([x.tree], ReadMore(inp, x.end, e, sl))
  {
    hide RunPart, MPart, AstPart;
    SoundPart(inp, pos + 1, e, sl);
  }

  lemma LinkReadItems(inp: Input, pos: nat, e: DeclItem, sl: Switch, x: Out, more: ListOut)
    requires KindAt(inp, pos) != Closer(e) && KindAt(inp, pos) != Eof
    requires Says(x, ReadOne(inp, pos, e, sl)) && (x.ok ==> SaysAll(more, ReadMore(inp, x.end, e, sl)))
    ensures SaysAll(ListOut(x.ok && more.ok, more.end, [x.tree] + more.trees), ReadItems(inp, pos, e, sl))
  {
    hide RunPart, RunMoreParts, MPart, AstPart, AstMoreParts;
    SoundPart(inp, pos, e, sl);
  }

  lemma NoReadItems(inp: Input, pos: nat, e: DeclItem, sl: Switch)
    requires KindAt(inp, pos) == Closer(e) || KindAt(inp, pos) == Eof
    ensures SaysAll(ListOut(true, pos, []), ReadItems(inp, pos, e, sl))
  {
    hide RunPart;
  }

  lemma NoReadItemsAt(inp: Input, pos: nat, e: DeclItem, sl: Switch)
    ensures KindAt(inp, pos) == Eof ==> ReadItems(inp, pos, e, sl) == Reads(pos, [])
  {
    hide RunPart;
  }

  /////////////////////////// functions and constants ///////////////////////////

  function ReadGenerics(inp: Input, pos: nat, sl: Switch): Reads {
    match RunGens(inp, pos, sl)
    case Stuck => NoReads
    case Done(g, z) => Reads(z, AstGens(inp, pos, g))
  }

  function ReadParams(inp: Input, pos: nat, sl: Switch): Read {
    match RunParams(inp, pos, sl)
    case Stuck => NoRead
    case Done(l, z) => Read(z, AstParams(inp, pos, l.items))
  }

  // The parameter list, and the return type if there is one.
  function ReadSignature(inp: Input, pos: nat, sl: Switch): Reads {
    match RunParams(inp, pos, sl)
    case Stuck => NoReads
    case Done(l, q) =>
      match RunReturn(inp, q, sl)
      case Stuck => NoReads
      case Done(t, z) => Reads(z, AstSignature(inp, pos, l.items, t))
  }

  function ReadFn(inp: Input, pos: nat, body: Switch, flags: nat, docs: seq<Tree>, sl: Switch): Read {
    match RunFn(inp, pos, body, sl)
    case Stuck => NoRead
    case Done(f, z) => Read(z, AstFn(inp, pos, f, flags, docs))
  }

  function ReadForm(inp: Input, pos: nat, r: Run<DeclForm>, flags: nat, docs: seq<Tree>): Read {
    match r
    case Stuck => NoRead
    case Done(d, z) => Read(z, AstForm(inp, pos, d, flags, docs))
  }

  function ReadConst(inp: Input, pos: nat, flags: nat, docs: seq<Tree>, sl: Switch): Read {
    ReadForm(inp, pos, RunConst(inp, pos, sl), flags, docs)
  }

  lemma NoGenerics(inp: Input, pos: nat, sl: Switch)
    requires KindAt(inp, pos) != Less
    ensures SaysAll(ListOut(true, pos, []), ReadGenerics(inp, pos, sl))
  {
    hide RunParts;
  }

  lemma LinkGenerics(inp: Input, pos: nat, sl: Switch, l: ListOut, o: Out)
    requires KindAt(inp, pos) == Less
    requires KindAt(inp, pos + 1) != Eof ==> SaysAll(l, ReadItems(inp, pos + 1, DGeneric, sl))
    requires KindAt(inp, pos + 1) == Eof ==> !l.ok
    requires o.ok == (l.ok && KindAt(inp, l.end) == Greater)
    requires o.ok ==>
             o.end == l.end + 1 && o.tree == Node(GenericParamList, StartOf(inp, pos), EndOf(inp, l.end), Zero, l.trees)
    ensures SaysAll(OneOut(o), ReadGenerics(inp, pos, sl))
  {
    hide RunParts, AstParts, MGens;
    NoReadItemsAt(inp, pos + 1, DGeneric, sl);
    SoundGens(inp, pos, sl);
  }

  lemma LinkParams(inp: Input, pos: nat, sl: Switch, l: ListOut, o: Out)
    requires KindAt(inp, pos) == LParen ==>
             if KindAt(inp, pos + 1) != Eof then SaysAll(l, ReadItems(inp, pos + 1, DParam, sl)) else !l.ok
    requires o.ok == (KindAt(inp, pos) == LParen && l.ok && KindAt(inp, l.end) == RParen)
    requires o.ok ==>
             o.end == l.end + 1 && o.tree == Node(ParamList, StartOf(inp, pos), EndOf(inp, l.end), Zero, l.trees)
    ensures Says(o, ReadParams(inp, pos, sl))
  {
    hide RunParts, AstParts, MParams;
    NoReadItemsAt(inp, pos + 1, DParam, sl);
    SoundParams(inp, pos, sl);
  }

  lemma LinkSignature(inp: Input, pos: nat, sl: Switch, list: Out, ret: Out, o: ListOut)
    requires Says(list, ReadParams(inp, pos, sl))
    requires list.ok && KindAt(inp, list.end) == Colon ==>
             Agrees(inp, list.end + 1, ret, RunType(inp, list.end + 1, sl))
    requires o.ok == (list.ok && KindAt(inp, list.end) != Arrow && (KindAt(inp, list.end) == Colon ==> ret.ok))
    requires o.ok ==> if KindAt(inp, list.end) == Colon then o.end == ret.end && o.trees == [list.tree, ret.tree]
                      else o.end == list.end && o.trees == [list.tree]
    ensures SaysAll(o, ReadSignature(inp, pos, sl))
  {
    hide Agrees, M, Ast, RunParams, AstParams, MParams, RunType;
    SoundParams(inp, pos, sl);
    if list.ok && KindAt(inp, list.end) == Colon {
      AgreesSays(inp, list.end + 1, ret, RunType(inp, list.end + 1, sl));
      TypeSpelled(inp, list.end + 1, sl);
    }
  }

  lemma LinkBody(inp: Input, pos: nat, body: Switch, sl: Switch, o: Out)
    requires if body.On? then Agrees(inp, pos, o, RunBlock(inp, pos, sl))
             else o.ok == (KindAt(inp, pos) == Semi) && (o.ok ==> o == Out(true, pos + 1, NullTree))
    ensures Says(o, ReadBody(inp, pos, body, sl))
  {
    hide Agrees, M, RunBlock;
    if body.On? { AgreesSays(inp, pos, o, RunBlock(inp, pos, sl)); }
  }

  // The node of a function whose head is at `pos` and which ends before `end`.
  function FnTree(inp: Input, pos: nat, end: nat, flags: nat, kids: seq<Tree>): Tree {
    var f := FnAt(inp, pos);
    var p := NameRegime(TokText(inp, AfterRegime(inp, f + 1)), RegimeOf(KindAt(inp, f + 1)));
    Tree(FnDecl, Span(StartOf(inp, pos), EndOf(inp, end - 1)), p, if f > pos then WithUnsafe(flags) else flags, kids)
  }

  lemma LinkFn(inp: Input, pos: nat, body: Switch, flags: nat, docs: seq<Tree>, sl: Switch, g: ListOut, sig: ListOut,
               b: Out, o: Out)
    requires var n := AfterRegime(inp, FnAt(inp, pos) + 1);
             && o.ok == (IsFnHead(inp, pos) && g.ok && sig.ok && b.ok)
             && (IsFnHead(inp, pos) ==> SaysAll(g, ReadGenerics(inp, n + 1, sl)))
             && (IsFnHead(inp, pos) && g.ok ==> SaysAll(sig, ReadSignature(inp, g.end, sl)))
             && (IsFnHead(inp, pos) && g.ok && sig.ok ==> Says(b, ReadBody(inp, sig.end, body, sl)))
             && (o.ok ==> o.end == b.end)
             && (o.ok ==> o.tree == FnTree(inp, pos, b.end, flags, docs + g.trees + sig.trees + [b.tree]))
    ensures Says(o, ReadFn(inp, pos, body, flags, docs, sl))
  {
    hide RunGens, RunParams, RunReturn, RunBody, AstGens, AstSignature, TextOf, Ast, MFnName, MGens, MParams,
         MReturn, MBody, M;
    if IsFnHead(inp, pos) {
      var r := RunFn(inp, pos, body, sl);
      if r.Done? {
        FnNameIs(inp, pos, r.syn);
        SoundFn(inp, pos, body, sl);
        SoundGens(inp, FnName(inp, pos) + 1, sl);
        SoundParams(inp, g.end, sl);
        SoundReturn(inp, RunParams(inp, g.end, sl).end, sl);
      }
    }
  }

  lemma LinkConst(inp: Input, pos: nat, flags: nat, docs: seq<Tree>, sl: Switch, t: Out, v: Out, o: Out)
    requires IsConstHead(inp, pos) ==> Agrees(inp, pos + 3, t, RunType(inp, pos + 3, sl))
    requires IsConstHead(inp, pos) && t.ok && KindAt(inp, t.end) == Eq ==>
             Agrees(inp, t.end + 1, v, RunExpr(inp, t.end + 1, 0, sl))
    requires o.ok == (IsConstHead(inp, pos) && t.ok && KindAt(inp, t.end) == Eq && v.ok && KindAt(inp, v.end) == Semi)
    requires o.ok ==> o.end == v.end + 1 && o.tree == Tree(ConstDecl, Span(StartOf(inp, pos), EndOf(inp, v.end)),
                        Name(TokText(inp, pos + 1)), flags, docs + [t.tree, v.tree])
    ensures Says(o, ReadConst(inp, pos, flags, docs, sl))
  {
    hide Agrees, M, Ast, TextOf, RunType, RunExpr, MForm;
    if IsConstHead(inp, pos) {
      AgreesSays(inp, pos + 3, t, RunType(inp, pos + 3, sl));
      TypeSpelled(inp, pos + 3, sl);
      SoundConst(inp, pos, sl);
      if t.ok && KindAt(inp, t.end) == Eq { AgreesSays(inp, t.end + 1, v, RunExpr(inp, t.end + 1, 0, sl)); }
    }
  }

  /////////////////////////// bodies in braces ///////////////////////////

  // What the tokens between the braces of a declaration stand for, and where they end.
  function Braced(inp: Input, pos: nat, kind: NodeKind, p: Payload, flags: nat, before: seq<Tree>, inner: Reads): Read {
    match inner
    case NoReads => NoRead
    case Reads(z, ts) =>
      if KindAt(inp, z) != RBrace then NoRead
      else Read(z + 1, Tree(kind, Span(StartOf(inp, pos), EndOf(inp, z)), p, flags, before + ts))
  }

  lemma LinkBraced(inp: Input, pos: nat, kind: NodeKind, p: Payload, flags: nat, before: seq<Tree>, inner: Reads,
                   l: ListOut, o: Out)
    requires SaysAll(l, inner) && o.ok == (l.ok && KindAt(inp, l.end) == RBrace)
    requires o.ok ==>
             o.end == l.end + 1
             && o.tree == Tree(kind, Span(StartOf(inp, pos), EndOf(inp, l.end)), p, flags, before + l.trees)
    ensures Says(o, Braced(inp, pos, kind, p, flags, before, inner))
  {
  }

  // Documentation comments from `pos` on.
  function DocEnd(inp: Input, pos: nat, k: Kind): nat
    requires k != Eof
  {
    pos + DocCount(inp, pos, k)
  }

  function DocTrees(inp: Input, pos: nat, k: Kind, node: NodeKind): seq<Tree>
    requires k != Eof
  {
    AstDocs(inp, pos, DocCount(inp, pos, k), node)
  }

  lemma DocStep(inp: Input, pos: nat, k: Kind, node: NodeKind)
    requires k != Eof && KindAt(inp, pos) == k
    ensures DocEnd(inp, pos, k) == DocEnd(inp, pos + 1, k)
    ensures DocTrees(inp, pos, k, node)
            == [Leaf(node, TokenAt(inp, pos).span, Name(TokText(inp, pos)))] + DocTrees(inp, pos + 1, k, node)
  {
  }

  lemma DocStop(inp: Input, pos: nat, k: Kind, node: NodeKind)
    requires k != Eof && KindAt(inp, pos) != k
    ensures DocEnd(inp, pos, k) == pos && DocTrees(inp, pos, k, node) == []
  {
  }

  function ReadMethods(inp: Input, pos: nat, body: Switch, sl: Switch): Reads {
    match RunMethods(inp, pos, body, sl)
    case Stuck => NoReads
    case Done(l, z) => Reads(z, AstMethods(inp, pos, l))
  }

  function ReadMethod(inp: Input, pos: nat, body: Switch, sl: Switch): Read {
    ReadFn(inp, DocEnd(inp, pos, DocCommentTok), body, 0, DocTrees(inp, pos, DocCommentTok, DocComment), sl)
  }

  lemma MethodsIs(inp: Input, pos: nat, body: Switch, sl: Switch)
    ensures KindAt(inp, pos) == RBrace || KindAt(inp, pos) == Eof ==> ReadMethods(inp, pos, body, sl) == Reads(pos, [])
    ensures KindAt(inp, pos) != RBrace && KindAt(inp, pos) != Eof ==>
            var x := ReadMethod(inp, pos, body, sl);
            ReadMethods(inp, pos, body, sl)
              == if x.NoRead? then NoReads else Before([x.tree], ReadMethods(inp, x.end, body, sl))
  {
    hide RunFn, MFn, AstFn, AstDocs;
    SoundFn(inp, MethodAt(inp, pos), body, sl);
  }

  // What stands between the braces of a declaration.
  datatype Inner = Fields | Variants | Signatures | Methods

  function ReadInner(inp: Input, pos: nat, i: Inner, sl: Switch): Reads {
    match i
    case Fields => ReadItems(inp, pos, DField, sl)
    case Variants => ReadItems(inp, pos, DVariant, sl)
    case Signatures => ReadMethods(inp, pos, Off, sl)
    case Methods => ReadMethods(inp, pos, On, sl)
  }

  // The keyword and the contents of a struct, an enum, a union or a trait.
  predicate IsNamed(kind: NodeKind, k: Kind, i: Inner) {
    || (kind == StructDecl && k == KwStruct && i == Fields) || (kind == EnumDecl && k == KwEnum && i == Variants)
    || (kind == UnionDecl && k == KwUnion && i == Fields) || (kind == TraitDecl && k == KwTrait && i == Signatures)
  }

  function ReadNamed(inp: Input, pos: nat, flags: nat, docs: seq<Tree>, sl: Switch): Read {
    var k := KindAt(inp, pos);
    if k == KwTrait then ReadForm(inp, pos, RunTrait(inp, pos, sl), flags, docs)
    else if k == KwStruct || k == KwEnum || k == KwUnion then ReadForm(inp, pos, RunData(inp, pos, k, sl), flags, docs)
    else NoRead
  }

  // The outcome `o` of a named declaration is made of its generics `g` and what its braces gave, `x`.
  ghost predicate NamedParts(inp: Input, pos: nat, kind: NodeKind, i: Inner, flags: nat, docs: seq<Tree>, sl: Switch,
                             g: ListOut, x: Out, o: Out)
  {
    var head := KindAt(inp, pos + 1) == Identifier;
    && o.ok == (head && g.ok && x.ok) && (o.ok ==> o == x)
    && (head ==> SaysAll(g, ReadGenerics(inp, pos + 2, sl)))
    && (head && g.ok && x.ok ==> KindAt(inp, g.end) == LBrace)
    && (head && g.ok && KindAt(inp, g.end) == LBrace ==>
        Says(x, Braced(inp, pos, kind, Name(TokText(inp, pos + 1)), flags, docs + g.trees,
                       ReadInner(inp, g.end + 1, i, sl))))
  }

  lemma LinkTrait(inp: Input, pos: nat, kind: NodeKind, i: Inner, flags: nat, docs: seq<Tree>, sl: Switch, g: ListOut,
                  x: Out, o: Out)
    requires IsNamed(kind, KindAt(inp, pos), i) && i == Signatures
    requires NamedParts(inp, pos, kind, i, flags, docs, sl, g, x, o)
    ensures Says(o, ReadNamed(inp, pos, flags, docs, sl))
  {
    hide RunGens, RunParts, RunMethods, RunData, AstGens, AstParts, AstMethods, TextOf, MForm, MGens, WFParts,
         WFMethods, WFGens, IsFnHead;
    if KindAt(inp, pos + 1) == Identifier { SoundGens(inp, pos + 2, sl); }
    SoundTrait(inp, pos, sl);
  }

  lemma LinkData(inp: Input, pos: nat, kind: NodeKind, i: Inner, flags: nat, docs: seq<Tree>, sl: Switch, g: ListOut,
                 x: Out, o: Out)
    requires IsNamed(kind, KindAt(inp, pos), i) && i != Signatures
    requires NamedParts(inp, pos, kind, i, flags, docs, sl, g, x, o)
    ensures Says(o, ReadNamed(inp, pos, flags, docs, sl))
  {
    hide RunGens, RunParts, RunMethods, RunTrait, AstGens, AstParts, AstMethods, TextOf, MForm, MGens, WFParts,
         WFMethods, WFGens, IsFnHead;
    if KindAt(inp, pos + 1) == Identifier { SoundGens(inp, pos + 2, sl); }
    SoundData(inp, pos, KindAt(inp, pos), sl);
  }

  lemma LinkNamed(inp: Input, pos: nat, kind: NodeKind, i: Inner, flags: nat, docs: seq<Tree>, sl: Switch, g: ListOut,
                  x: Out, o: Out)
    requires IsNamed(kind, KindAt(inp, pos), i)
    requires NamedParts(inp, pos, kind, i, flags, docs, sl, g, x, o)
    ensures Says(o, ReadNamed(inp, pos, flags, docs, sl))
  {
    hide ReadNamed, NamedParts, Says;
    if i == Signatures { LinkTrait(inp, pos, kind, i, flags, docs, sl, g, x, o); }
    else { LinkData(inp, pos, kind, i, flags, docs, sl, g, x, o); }
  }

  // The trait, or null, and the type.
  function ReadImplTypes(inp: Input, pos: nat, sl: Switch): Reads {
    match RunImplTypes(inp, pos, sl)
    case Stuck => NoReads
    case Done(t, z) => Reads(z, [Ast(inp, pos, t.0), Ast(inp, MBound(inp, pos, t.0), t.1)])
  }

  function ReadImpl(inp: Input, pos: nat, flags: nat, docs: seq<Tree>, sl: Switch): Read {
    ReadForm(inp, pos, RunImpl(inp, pos, sl), flags, docs)
  }

  lemma LinkImplTypes(inp: Input, pos: nat, sl: Switch, t: Out, u: Out, o: ListOut)
    requires Agrees(inp, pos, t, RunType(inp, pos, sl))
    requires t.ok && KindAt(inp, t.end) == KwFor ==> Agrees(inp, t.end + 1, u, RunType(inp, t.end + 1, sl))
    requires o.ok == (t.ok && (KindAt(inp, t.end) == KwFor ==> u.ok))
    requires o.ok ==> if KindAt(inp, t.end) == KwFor then o.end == u.end && o.trees == [t.tree, u.tree]
                      else o.end == t.end && o.trees == [NullTree, t.tree]
    ensures SaysAll(o, ReadImplTypes(inp, pos, sl))
  {
    hide Agrees, M, RunType;
    AgreesSays(inp, pos, t, RunType(inp, pos, sl));
    TypeSpelled(inp, pos, sl);
    AbsentTree(inp, pos);
    hide Ast;
    if t.ok && KindAt(inp, t.end) == KwFor { AgreesSays(inp, t.end + 1, u, RunType(inp, t.end + 1, sl)); }
  }

  lemma AbsentTree(inp: Input, pos: nat)
    ensures Ast(inp, pos, Absent) == NullTree
  {
  }

  lemma LinkImpl(inp: Input, pos: nat, flags: nat, docs: seq<Tree>, sl: Switch, g: ListOut, ty: ListOut, x: Out, o: Out)
    requires KindAt(inp, pos) == KwImpl && o.ok == (g.ok && ty.ok && x.ok) && (o.ok ==> o == x)
    requires SaysAll(g, ReadGenerics(inp, pos + 1, sl)) && (g.ok ==> SaysAll(ty, ReadImplTypes(inp, g.end, sl)))
    requires g.ok && ty.ok && x.ok ==> KindAt(inp, ty.end) == LBrace
    requires g.ok && ty.ok && KindAt(inp, ty.end) == LBrace ==>
             Says(x,
                  Braced(inp, pos, ImplDecl, Zero, flags, docs + g.trees + ty.trees,
                         ReadInner(inp, ty.end + 1, Methods, sl)))
    ensures Says(o, ReadImpl(inp, pos, flags, docs, sl))
  {
    hide RunGens, RunImplTypes, RunMethods, AstGens, AstMethods, MForm, MGens, MBound, M, Ast;
    SoundGens(inp, pos + 1, sl);
    if g.ok { SoundImplTypes(inp, g.end, sl); }
    SoundImpl(inp, pos, sl);
  }

  /////////////////////////// imports, modules, files ///////////////////////////

  // Where the segments of a `use` path end.
  function UseSegments(inp: Input, pos: nat): nat { pos + 2 * SegCount(inp, pos) }

  // The token behind a `use` path and its glob or alias, or 0.
  function UseStop(inp: Input, pos: nat): nat {
    if KindAt(inp, pos + 1) != Identifier then 0 else
    match RunUseTail(inp, UseSegments(inp, pos + 2))
    case Stuck => 0
    case Done(_, z) => z
  }

  // The path as it was written, from behind the keyword to `stop`.
  function UseText(inp: Input, pos: nat, stop: nat): string {
    TextOf(inp.src, Span(StartOf(inp, pos + 1), EndOf(inp, stop - 1)))
  }

  function ReadUse(inp: Input, pos: nat, flags: nat, docs: seq<Tree>): Read {
    ReadForm(inp, pos, RunUse(inp, pos), flags, docs)
  }

  lemma LinkUse(inp: Input, pos: nat, flags: nat, docs: seq<Tree>, stop: nat, o: Out)
    requires KindAt(inp, pos) == KwUse
    requires o.ok == (UseStop(inp, pos) != 0 && KindAt(inp, UseStop(inp, pos)) == Semi)
    requires o.ok ==> stop == UseStop(inp, pos) && o.end == stop + 1
    requires o.ok ==>
             o.tree
             == Tree(UseDecl, Span(StartOf(inp, pos), EndOf(inp, stop - 1)), Name(UseText(inp, pos, stop)), flags, docs)
    ensures Says(o, ReadUse(inp, pos, flags, docs))
  {
    hide SegCount, MSegs, TextOf, RunUseTail, MUseTail;
    SoundSegCount(inp, pos + 2);
    UseTailSpelled(inp, UseSegments(inp, pos + 2));
  }

  lemma UseTailSpelled(inp: Input, q: nat)
    ensures var r := RunUseTail(inp, q); r.Done? ==> MUseTail(inp, q, r.syn) == r.end
  {
  }

  function ReadMod(inp: Input, pos: nat, flags: nat, docs: seq<Tree>, sl: Switch): Read {
    ReadForm(inp, pos, RunMod(inp, pos, sl), flags, docs)
  }

  lemma LinkMod(inp: Input, pos: nat, flags: nat, docs: seq<Tree>, sl: Switch, x: Out, o: Out)
    requires KindAt(inp, pos) == KwMod
    requires KindAt(inp, pos + 1) == Identifier && KindAt(inp, pos + 2) == LBrace ==>
             Says(x,
                  Braced(inp, pos, ModDecl, Name(TokText(inp, pos + 1)), flags, docs, ReadDecls(inp, pos + 3, On, sl)))
    requires KindAt(inp, pos + 1) == Identifier && KindAt(inp, pos + 2) == Semi ==>
             x == Out(true, pos + 3,
                      Tree(ModDeclFile, Span(StartOf(inp, pos), EndOf(inp, pos + 2)), Name(TokText(inp, pos + 1)),
                           flags, docs))
    requires o.ok
             == (KindAt(inp, pos + 1) == Identifier && (KindAt(inp, pos + 2) == LBrace || KindAt(inp, pos + 2) == Semi)
                 && x.ok)
    requires o.ok ==> o == x
    ensures Says(o, ReadMod(inp, pos, flags, docs, sl))
  {
    hide RunDecls, AstDecls, TextOf, MForm;
    SoundMod(inp, pos, sl);
  }

  function ReadPlain(inp: Input, pos: nat, flags: nat, docs: seq<Tree>, sl: Switch): Read {
    ReadForm(inp, pos, RunPlain(inp, pos, sl), flags, docs)
  }

  // The keywords that open a declaration other than a function.
  predicate IsPlainStart(k: Kind) {
    || k == KwConst || k == KwMod || k == KwStruct || k == KwEnum || k == KwUnion || k == KwTrait || k == KwUse
    || k == KwImpl
  }

  // Which declaration a token opens.
  lemma PlainIs(inp: Input, pos: nat, flags: nat, docs: seq<Tree>, sl: Switch)
    ensures var k := KindAt(inp, pos);
            var r := ReadPlain(inp, pos, flags, docs, sl);
            && (k == KwConst ==> r == ReadConst(inp, pos, flags, docs, sl))
            && (k == KwMod ==> r == ReadMod(inp, pos, flags, docs, sl))
            && (k == KwStruct || k == KwEnum || k == KwUnion || k == KwTrait ==>
                r == ReadNamed(inp, pos, flags, docs, sl))
            && (k == KwUse ==> r == ReadUse(inp, pos, flags, docs))
            && (k == KwImpl ==> r == ReadImpl(inp, pos, flags, docs, sl))
            && (!IsPlainStart(k) ==> r.NoRead?)
            && (k != KwConst ==> ReadConst(inp, pos, flags, docs, sl).NoRead?)
  {
    hide RunConst, RunMod, RunData, RunTrait, RunUse, RunImpl, AstForm;
    if KindAt(inp, pos) != KwConst { NoConst(inp, pos, sl); }
  }

  lemma NoConst(inp: Input, pos: nat, sl: Switch)
    requires KindAt(inp, pos) != KwConst
    ensures RunConst(inp, pos, sl).Stuck?
  {
    hide RunType, RunExpr;
  }

  function ReadItem(inp: Input, pos: nat, flags: nat, docs: seq<Tree>, sl: Switch): Read {
    ReadForm(inp, pos, RunForm(inp, pos, sl), flags, docs)
  }

  // A function, behind `unsafe` or not.
  lemma LinkFnItem(inp: Input, pos: nat, fn: nat, flags: nat, docs: seq<Tree>, sl: Switch, o: Out)
    requires KindAt(inp, fn) == KwFn && (fn == pos || (fn == pos + 1 && KindAt(inp, pos) == KwUnsafe))
    requires Says(o, ReadFn(inp, fn, On, if fn == pos then flags else WithUnsafe(flags), docs, sl))
    ensures Says(o, ReadItem(inp, pos, flags, docs, sl))
  {
    hide RunFn, RunPlain, AstFn, MForm;
  }

  lemma LinkPlainItem(inp: Input, pos: nat, flags: nat, docs: seq<Tree>, sl: Switch, o: Out)
    requires KindAt(inp, pos) != KwFn && !(KindAt(inp, pos) == KwUnsafe && KindAt(inp, pos + 1) == KwFn)
    requires Says(o, ReadPlain(inp, pos, flags, docs, sl))
    ensures Says(o, ReadItem(inp, pos, flags, docs, sl))
  {
    hide RunFn, RunPlain, AstForm;
  }

  /** A declaration with its documentation and visibility. */
  function ReadDecl(inp: Input, pos: nat, sl: Switch): Read {
    match RunDecl(inp, pos, sl)
    case Stuck => NoRead
    case Done(d, z) => Read(z, AstDecl(inp, pos, d))
  }

  lemma LinkDecl(inp: Input, pos: nat, sl: Switch, o: Out)
    requires var d := DocEnd(inp, pos, DocCommentTok);
             var docs := DocTrees(inp, pos, DocCommentTok, DocComment);
             if KindAt(inp, d) == KwPub then Says(o, ReadItem(inp, d + 1, PubFlag, docs, sl))
             else Says(o, ReadItem(inp, d, 0, docs, sl))
    ensures Says(o, ReadDecl(inp, pos, sl))
  {
    hide RunForm, AstForm, DocCount, AstDocs, MDocs;
    SoundDocs(inp, pos, DocCommentTok);
  }

  // Declarations up to the end of the tokens, or up to a closing brace in front of it.
  function ReadDecls(inp: Input, pos: nat, inner: Switch, sl: Switch): Reads {
    match RunDecls(inp, pos, inner, sl)
    case Stuck => NoReads
    case Done(l, z) => Reads(z, AstDecls(inp, pos, l))
  }

  lemma DeclsIs(inp: Input, pos: nat, inner: Switch, sl: Switch)
    ensures KindAt(inp, pos) == Eof || (inner.On? && KindAt(inp, pos) == RBrace) ==>
            ReadDecls(inp, pos, inner, sl) == Reads(pos, [])
    ensures KindAt(inp, pos) != Eof && !(inner.On? && KindAt(inp, pos) == RBrace) ==>
            var x := ReadDecl(inp, pos, sl);
            ReadDecls(inp, pos, inner, sl)
              == if x.NoRead? then NoReads else Before([x.tree], ReadDecls(inp, x.end, inner, sl))
  {
    hide RunDecl, MDecl, AstDecl;
    SoundDecl(inp, pos, sl);
  }

  /** A source file: its documentation, and declarations to the end. */
  function ReadFile(inp: Input, sl: Switch): Read {
    match RunFile(inp, sl)
    case Stuck => NoRead
    case Done(f, z) => Read(z, AstFile(inp, f))
  }

  lemma LinkFile(inp: Input, sl: Switch, l: ListOut, o: Out)
    requires SaysAll(l, ReadDecls(inp, DocEnd(inp, 0, FileDocCommentTok), Off, sl)) && o.ok == l.ok
    requires o.ok ==> o.end == l.end
    requires o.ok ==>
             o.tree == Tree(SourceFile, Span(StartOf(inp, 0), EndOf(inp, if l.end == 0 then 0 else l.end - 1)), Zero, 0,
                                     DocTrees(inp, 0, FileDocCommentTok, FileDocComment) + l.trees)
    ensures Says(o, ReadFile(inp, sl))
  {
    hide RunDecls, AstDecls, AstDocs, DocCount, MDecls, MDocs;
    SoundFile(inp, sl);
  }
}
