/** Declarations and files: the words of the tree are the tokens. */
module DeclTexts {
  import opened Tokens
  import opened Trees
  import opened Grammar
  import opened Spelling
  import opened DeclGrammar
  import opened Pool
  import opened Layouts
  import opened Printing
  import opened Telling
  import opened TreeTexts
  import opened NodeKinds

  /////////////////////////// documentation ///////////////////////////

  predicate AllDocs(docs: seq<Tree>) { forall i :: 0 <= i < |docs| ==> docs[i].Tree? && docs[i].kind == DocComment }

  predicate NoDoc(rest: seq<Tree>) { !IsKind(rest, 0, DocComment) }

  lemma {:induction false} DocumentsAre(docs: seq<Tree>, rest: seq<Tree>)
    requires AllDocs(docs) && NoDoc(rest)
    ensures Documents(docs + rest) == |docs|
    decreases |docs|
  {
    if docs == [] {
      assert docs + rest == rest;
    } else {
      DocumentsAre(docs[1..], rest);
      assert (docs + rest)[0] == docs[0] && (docs + rest)[1..] == docs[1..] + rest;
    }
  }

  lemma {:induction false} DocsShown(t: Tree, n: nat)
    requires t.Tree? && n <= |t.kids|
    ensures ShowDocs(t, n) == AllWords(t.kids[..n])
    decreases n
  {
    hide Show;
    if n > 0 {
      DocsShown(t, n - 1);
      assert t.kids[..n] == t.kids[..n - 1] + [t.kids[n - 1]];
      CatWords(t.kids[..n - 1], [t.kids[n - 1]]);
      OneWord(t.kids[n - 1]);
    }
  }

  lemma OneWord(t: Tree)
    ensures AllWords([t]) == Show(t)
  {
    hide Show;
    assert [t][1..] == [] && AllWords([]) == [];
    assert Show(t) + [] == Show(t);
  }

  // The words of a declaration are its documentation, its visibility and the rest.
  lemma Declared(t: Tree, docs: seq<Tree>, rest: seq<Tree>)
    requires t.Tree? && FnDecl <= t.kind <= ImplDecl && t.kids == docs + rest && AllDocs(docs) && NoDoc(rest)
    ensures Documents(t.kids) == |docs| && Show(t) == AllWords(docs) + PubWord(t.flags) + ShowDecl(t, |docs|)
  {
    hide AllWords, PubWord, ShowDecl, ShowDocs, Documents;
    DocumentsAre(docs, rest);
    DocsShown(t, |docs|);
    assert t.kids[..|docs|] == docs;
  }

  // What stands behind the documentation.
  lemma Rest(t: Tree, docs: seq<Tree>, rest: seq<Tree>, i: nat)
    requires t.Tree? && t.kids == docs + rest && i <= |rest|
    ensures ShowFrom(t, |docs| + i) == AllWords(rest[i..])
    ensures i < |rest| ==> t.kids[|docs| + i] == rest[i] && Kid(t, |docs| + i) == Show(rest[i])
    ensures IsKind(t.kids, |docs| + i, GenericParamList) <==> IsKind(rest, i, GenericParamList)
  {
    hide Show, ShowFrom, AllWords;
    FromAll(t, |docs| + i);
    assert t.kids[|docs| + i..] == rest[i..];
  }

  lemma {:induction false} TellDocs(inp: Input, pos: nat, n: nat, k: Kind, node: NodeKind) returns (r: Tale)
    requires pos <= |inp.toks| && MDocs(inp, pos, n, k) >= 0 && k != Unknown
    requires node == DocComment || node == FileDocComment
    ensures True(inp, r) && r.lo == pos && r.hi == pos + n && r.ts == AllWords(AstDocs(inp, pos, n, node))
    ensures |AstDocs(inp, pos, n, node)| == n && (node == DocComment ==> AllDocs(AstDocs(inp, pos, n, node)))
    decreases n
  {
    hide True, AllWords, Show, TextOf;
    if n == 0 {
      NoWords();
      r := Start(inp, pos);
    } else {
      r := OneToken(inp, pos);
      var more := TellDocs(inp, pos + 1, n - 1, k, node);
      var d := Leaf(node, TokenAt(inp, pos).span, Payload.Name(TokText(inp, pos)));
      LeafShown(d, TokText(inp, pos));
      ConsWords(d, AstDocs(inp, pos + 1, n - 1, node));
      r := Join(inp, r, more);
    }
  }

  lemma LeafShown(d: Tree, text: string)
    requires d.Tree? && d.payload == Payload.Name(text) && (d.kind == DocComment || d.kind == FileDocComment)
    ensures Show(d) == [text]
  {
  }

  /////////////////////////// parts ///////////////////////////

  predicate IsPartKind(k: NodeKind) { StructField <= k <= GenericParamList }

  lemma PartTree(inp: Input, pos: nat, p: Part)
    ensures var x := AstPart(inp, pos, p);
            x.Tree? && IsPartKind(x.kind) && x.kind != GenericParamList && x.kind != ParamList
  {
    hide M, Ast, AstItems, AstParts, MPart, TextOf;
  }

  // An optional regime, a name, a colon and a type.
  lemma {:induction false} TellTyped(inp: Input, pos: nat, reg: bool, ty: Syn, sl: Switch) returns (r: Tale)
    requires Worded(inp) && pos <= |inp.toks| && MTyped(inp, MRegime(inp, pos, reg), ty) >= 0 && IsTy(ty, sl)
    ensures True(inp, r) && r.lo == pos && r.hi == MTyped(inp, MRegime(inp, pos, reg), ty)
    ensures var n := if reg then pos + 1 else pos;
            && MRegime(inp, pos, reg) == n
            && r.ts == RegimeWord(NameOf(inp, pos, reg)) + [TokText(inp, n)] + [":"] + Show(Ast(inp, n + 2, ty))
  {
    hide True, Worded, M, Ast, KindText, Show, WF, RegimeWord, RegimeOf, TextOf;
    Signs();
    var n := if reg then pos + 1 else pos;
    r := TellRegime(inp, pos, reg, TokText(inp, n));
    r := Text(inp, r);
    r := Key(inp, r, Colon, ":");
    r := More(inp, r, ty, sl);
  }

  lemma {:induction false} TellPart(inp: Input, pos: nat, e: DeclItem, p: Part, sl: Switch) returns (r: Tale)
    requires Worded(inp) && pos <= |inp.toks| && MPart(inp, pos, p) >= 0 && WFPart(e, p, sl)
    ensures True(inp, r) && r.lo == pos && r.hi == MPart(inp, pos, p) && r.ts == Show(AstPart(inp, pos, p))
    decreases p, 2
  {
    hide True, Worded, M, MItems, Ast, AstItems, AllWords, KindText, Show, WF, WFItems, WFAll, RegimeWord, RegimeOf,
         TextOf, AstPart;
    Signs();
    match p
    case Member(reg, ty) =>
      r := TellTyped(inp, pos, reg, ty, sl);
      TypedShown(inp, pos, p, reg, ty);
    case TypedParam(reg, ty) =>
      r := TellTyped(inp, pos, reg, ty, sl);
      TypedShown(inp, pos, p, reg, ty);
    case SelfParam(reg) => r := TellSelf(inp, pos, reg);
    case FreeGeneric =>
      r := OneToken(inp, pos);
      PlainShown(inp, pos, p);
    case BoundGeneric(ty) =>
      r := OneToken(inp, pos);
      r := Key(inp, r, Colon, ":");
      r := More(inp, r, ty, sl);
      PlainShown(inp, pos, p);
    case _ => r := TellVariant(inp, pos, e, p, sl);
  }

  lemma TypedShown(inp: Input, pos: nat, p: Part, reg: bool, ty: Syn)
    requires p == Member(reg, ty) || p == TypedParam(reg, ty)
    ensures var n := if reg then pos + 1 else pos;
            Show(AstPart(inp, pos, p))
            == RegimeWord(NameOf(inp, pos, reg)) + [TokText(inp, n)] + [":"] + Show(Ast(inp, n + 2, ty))
  {
    hide M, Ast, MPart, RegimeWord, RegimeOf, TextOf, ShowFrom;
    KidsAre(AstPart(inp, pos, p));
  }

  lemma TellSelf(inp: Input, pos: nat, reg: bool) returns (r: Tale)
    requires Worded(inp) && pos <= |inp.toks| && MPart(inp, pos, SelfParam(reg)) >= 0
    ensures True(inp, r) && r.lo == pos && r.hi == MPart(inp, pos, SelfParam(reg))
    ensures r.ts == Show(AstPart(inp, pos, SelfParam(reg)))
  {
    hide True, Worded, M, RegimeWord, RegimeOf, TextOf, AstPart, Show;
    var n := if reg then pos + 1 else pos;
    r := TellRegime(inp, pos, reg, TokText(inp, n));
    var p := OnePiece(inp, SelfOnly(n));
    r := Join(inp, r, p);
    SelfShown(inp, pos, reg);
  }

  lemma SelfShown(inp: Input, pos: nat, reg: bool)
    ensures var n := if reg then pos + 1 else pos;
            Show(AstPart(inp, pos, SelfParam(reg)))
            == RegimeWord(NameOf(inp, pos, reg)) + ([TokText(inp, n)] + [":"] + ["Self"])
  {
    hide MPart, RegimeWord, RegimeOf, TextOf, ShowFrom;
    var x := AstPart(inp, pos, SelfParam(reg));
    KidsAre(x);
    assert Show(x.kids[0]) == ["Self"];
  }

  lemma PlainShown(inp: Input, pos: nat, p: Part)
    requires p.FreeGeneric? || (p.BoundGeneric? && p.ty.Ty?)
    ensures Show(AstPart(inp, pos, p))
            == if p.FreeGeneric? then [TokText(inp, pos)]
                else [TokText(inp, pos)] + [":"] + Show(Ast(inp, pos + 2, p.ty))
  {
    hide M, MPart, TextOf, ShowFrom, Ast;
    assert [TokText(inp, pos)] + [] == [TokText(inp, pos)];
    KidsAre(AstPart(inp, pos, p));
    if p.BoundGeneric? { TypeTree(inp, pos + 2, p.ty.t); }
  }

  // Variants.
  ghost function VariantWords(inp: Input, pos: nat, p: Part): seq<string> {
    var t := TokText(inp, pos);
    match p
    case UnitVariant => [t]
    case ValueVariant(v) => [t] + (["="] + Show(Ast(inp, pos + 2, v)))
    case TupleVariant(types, _) => [t] + ["("] + AllWords(AstItems(inp, pos + 2, types)) + [")"]
    case StructVariant(fs, _) => [t] + ["{"] + AllWords(AstParts(inp, pos + 2, fs)) + ["}"]
    case _ => []
  }

  lemma VariantShown(inp: Input, pos: nat, p: Part)
    requires p.UnitVariant? || p.ValueVariant? || p.TupleVariant? || p.StructVariant?
    ensures Show(AstPart(inp, pos, p)) == VariantWords(inp, pos, p)
  {
    hide M, MPart, TextOf, ShowFrom, Ast, AllWords, AstItems, AstParts;
    assert [TokText(inp, pos)] + [] == [TokText(inp, pos)];
    KidsAre(AstPart(inp, pos, p));
  }

  lemma {:induction false} TellVariant(inp: Input, pos: nat, e: DeclItem, p: Part, sl: Switch) returns (r: Tale)
    requires Worded(inp) && pos <= |inp.toks| && MPart(inp, pos, p) >= 0 && WFPart(e, p, sl)
    requires p.UnitVariant? || p.ValueVariant? || p.TupleVariant? || p.StructVariant?
    ensures True(inp, r) && r.lo == pos && r.hi == MPart(inp, pos, p) && r.ts == Show(AstPart(inp, pos, p))
    decreases p, 1
  {
    hide True, Worded, M, MItems, Ast, AstItems, AstParts, MParts, AllWords, KindText, Show, WF, WFAll, WFParts,
         TextOf, AstPart;
    Signs();
    VariantShown(inp, pos, p);
    r := OneToken(inp, pos);
    match p
    case UnitVariant =>
    case ValueVariant(v) =>
      var z := TellOpt(inp, pos + 1, Eq, "=", v, sl);
      r := Join(inp, r, z);
    case TupleVariant(types, tr) => r := TellEnclosed(inp, r, LParen, "(", CType, types, tr, RParen, ")", sl);
    case StructVariant(fs, tr) => r := TellPartBlock(inp, r, LBrace, "{", DField, fs, tr, RBrace, "}", sl);
  }

  lemma {:induction false} TellParts(inp: Input, pos: nat, e: DeclItem, l: Parts, trail: Switch, sl: Switch)
    returns (r: Tale)
    requires Worded(inp) && pos <= |inp.toks| && MParts(inp, pos, l, trail) >= 0 && WFParts(e, l, sl)
    ensures True(inp, r) && r.lo == pos && r.hi == MParts(inp, pos, l, trail) && r.ts == AllWords(AstParts(inp, pos, l))
    decreases l, 4
  {
    hide True, Worded, Show, MPart, AstPart, AllWords, WFPart;
    if l.PNil? {
      NoWords();
      r := Start(inp, pos);
    } else {
      var x := TellPart(inp, pos, e, l.hd, sl);
      var more := TellMoreParts(inp, MPart(inp, pos, l.hd), e, l.tl, trail, sl);
      ConsWords(AstPart(inp, pos, l.hd), AstMoreParts(inp, MPart(inp, pos, l.hd), l.tl));
      r := Join(inp, x, more);
    }
  }

  lemma {:induction false} TellMoreParts(inp: Input, pos: nat, e: DeclItem, l: Parts, trail: Switch, sl: Switch)
    returns (r: Tale)
    requires Worded(inp) && pos <= |inp.toks| && MMoreParts(inp, pos, l, trail) >= 0 && WFParts(e, l, sl)
    ensures True(inp, r) && r.lo == pos && r.hi == MMoreParts(inp, pos, l, trail)
    ensures r.ts == AllWords(AstMoreParts(inp, pos, l))
    decreases l, 4
  {
    hide True, Worded, Show, MPart, AstPart, AllWords, WFPart;
    if l.PNil? {
      NoWords();
      r := Start(inp, pos);
      if trail.On? { r := Behind(inp, r); }
    } else {
      var x := TellPart(inp, pos + 1, e, l.hd, sl);
      x := Ahead(inp, pos, x);
      var more := TellMoreParts(inp, MPart(inp, pos + 1, l.hd), e, l.tl, trail, sl);
      ConsWords(AstPart(inp, pos + 1, l.hd), AstMoreParts(inp, MPart(inp, pos + 1, l.hd), l.tl));
      r := Join(inp, x, more);
    }
  }

  // A bracketed list of parts behind what is told.
  lemma {:induction false} TellPartBlock(inp: Input, a: Tale, open: Kind, o: string, e: DeclItem, l: Parts,
                                         trail: Switch,
                                         close: Kind, z: string, sl: Switch) returns (r: Tale)
    requires Worded(inp) && True(inp, a) && WFParts(e, l, sl)
    requires KindAt(inp, a.hi) == open && Expect1(inp, MParts(inp, a.hi + 1, l, trail), close) >= 0
    requires o != "" && KindText(open) == o && open != Unknown && open != Eof
    requires z != "" && KindText(close) == z && close != Unknown
    ensures True(inp, r) && r.lo == a.lo && r.hi == Expect1(inp, MParts(inp, a.hi + 1, l, trail), close)
    ensures r.ts == a.ts + [o] + AllWords(AstParts(inp, a.hi + 1, l)) + [z]
    decreases l, 5
  {
    hide True, Worded, KindText, AllWords, MParts, AstParts, WFParts;
    r := Key(inp, a, open, o);
    var items := TellParts(inp, a.hi + 1, e, l, trail, sl);
    r := Join(inp, r, items);
    r := Key(inp, r, close, z);
  }

  /////////////////////////// generic parameters and functions ///////////////////////////

  lemma TellGens(inp: Input, pos: nat, g: Gens, sl: Switch) returns (r: Tale)
    requires Worded(inp) && pos <= |inp.toks| && MGens(inp, pos, g) >= 0 && WFGens(g, sl)
    ensures True(inp, r) && r.lo == pos && r.hi == MGens(inp, pos, g) && r.ts == AllWords(AstGens(inp, pos, g))
  {
    hide True, Worded, KindText, AllWords, MParts, AstParts, WFParts, Show;
    Signs();
    r := Start(inp, pos);
    if g.NoGens? {
      NoWords();
    } else {
      r := TellPartBlock(inp, r, Less, "<", DGeneric, g.items, g.trail, Greater, ">", sl);
      GensShown(inp, pos, g);
    }
  }

  lemma GensShown(inp: Input, pos: nat, g: Gens)
    requires g.Gens?
    ensures AllWords(AstGens(inp, pos, g)) == [] + ["<"] + AllWords(AstParts(inp, pos + 1, g.items)) + [">"]
  {
    hide AllWords, AstParts, MGens, ShowFrom;
    var x := AstGens(inp, pos, g)[0];
    KidsAre(x);
    OneWord(x);
    assert AstGens(inp, pos, g) == [x] && [] + ["<"] == ["<"];
  }

  lemma ParamsShown(inp: Input, pos: nat, l: Parts)
    ensures Show(AstParams(inp, pos, l)) == [] + ["("] + AllWords(AstParts(inp, pos + 1, l)) + [")"]
  {
    hide AllWords, AstParts, MParams, ShowFrom;
    KidsAre(AstParams(inp, pos, l));
    assert [] + ["("] == ["("];
  }

  lemma TellParams(inp: Input, pos: nat, l: Parts, sl: Switch) returns (r: Tale)
    requires Worded(inp) && pos <= |inp.toks| && MParams(inp, pos, l) >= 0 && WFParts(DParam, l, sl)
    ensures True(inp, r) && r.lo == pos && r.hi == MParams(inp, pos, l) && r.ts == Show(AstParams(inp, pos, l))
  {
    hide True, Worded, KindText, AllWords, MParts, AstParts, WFParts, Show;
    Signs();
    ParamsShown(inp, pos, l);
    r := Start(inp, pos);
    r := TellPartBlock(inp, r, LParen, "(", DParam, l, Off, RParen, ")", sl);
  }

  // Where the parts of a function stand whose head is at `pos`.
  ghost predicate FnAt(inp: Input, pos: nat, f: FnSyn, n: nat, g: nat, p: nat, b: nat) {
    && MFnName(inp, pos, f) == n && n < |inp.toks| && KindAt(inp, n) == Identifier
    && MGens(inp, n + 1, f.gens) == g && MParams(inp, g, f.params) == p && MReturn(inp, p, f.ret) == b
    && MBody(inp, b, f.body) == MFn(inp, pos, f)
  }

  lemma FnParts(inp: Input, pos: nat, f: FnSyn) returns (n: nat, g: nat, p: nat, b: nat)
    requires MFn(inp, pos, f) >= 0
    ensures FnAt(inp, pos, f, n, g, p, b)
    ensures var q := if f.isUnsafe then pos + 1 else pos;
            && KindAt(inp, q) == KwFn && (f.isUnsafe ==> KindAt(inp, pos) == KwUnsafe)
            && MRegime(inp, q + 1, f.reg) == n
  {
    hide MGens, MParams, MReturn, MBody;
    n := MFnName(inp, pos, f);
    g := MGens(inp, n + 1, f.gens);
    p := MParams(inp, g, f.params);
    b := MReturn(inp, p, f.ret);
  }

  // The children behind the documentation, and the words they give.
  ghost function FnRest(inp: Input, f: FnSyn, n: nat, g: nat, p: nat, b: nat): seq<Tree> {
    AstGens(inp, n + 1, f.gens) + [AstParams(inp, g, f.params)]
    + (if f.ret.Absent? then [] else [Ast(inp, p + 1, f.ret)]) + [Ast(inp, b, f.body)]
  }

  lemma FnTree(inp: Input, pos: nat, f: FnSyn, flags: nat, docs: seq<Tree>, n: nat, g: nat, p: nat, b: nat)
    requires FnAt(inp, pos, f, n, g, p, b)
    ensures var x := AstFn(inp, pos, f, flags, docs);
            && x.Tree? && x.kind == FnDecl && x.kids == docs + FnRest(inp, f, n, g, p, b)
            && x.payload == NameRegime(TokText(inp, n),
                                       RegimeOf(KindAt(inp, (if f.isUnsafe then pos + 1 else pos) + 1)))
            && x.flags == (if f.isUnsafe then WithUnsafe(flags) else flags)
  {
    hide MGens, MParams, MReturn, MBody, MFnName, AstGens, AstParams, Ast, RegimeOf, TextOf, MFn;
    var x := AstFn(inp, pos, f, flags, docs);
    assert x.kids == docs + FnRest(inp, f, n, g, p, b);
  }

  // The words of a function behind `pre`.
  ghost function FnWords(inp: Input, pre: seq<string>, f: FnSyn, n: nat, g: nat, p: nat, b: nat): seq<string> {
    pre + ["fn"] + RegimeWord(NameRegime(TokText(inp, n), RegimeOf(KindAt(inp, if f.reg then n - 1 else n))))
    + [TokText(inp, n)] + AllWords(AstGens(inp, n + 1, f.gens)) + Show(AstParams(inp, g, f.params))
    + (if f.ret.Absent? then [] else [":"] + Show(Ast(inp, p + 1, f.ret)))
    + (if f.body.Absent? then [";"] else Show(Ast(inp, b, f.body)))
  }

  lemma TellFn(inp: Input, a: Tale, pos: nat, f: FnSyn, body: Switch, sl: Switch, n: nat, g: nat, p: nat, b: nat)
    returns (r: Tale)
    requires Worded(inp) && True(inp, a) && WFFn(f, body, sl) && FnAt(inp, pos, f, n, g, p, b) && MFn(inp, pos, f) >= 0
    requires a.hi == (if f.isUnsafe then pos + 1 else pos) && KindAt(inp, a.hi) == KwFn
    requires MRegime(inp, a.hi + 1, f.reg) == n
    ensures True(inp, r) && r.lo == a.lo && r.hi == MFn(inp, pos, f) && r.ts == FnWords(inp, a.ts, f, n, g, p, b)
  {
    hide True, Worded, KindText, AllWords, MGens, MParams, AstGens, AstParams, Show, WF, WFGens, WFParts, M, Ast,
         RegimeWord, RegimeOf, TextOf, MFn, MFnName;
    Signs();
    DeclarationWords();
    r := Key(inp, a, KwFn, "fn");
    var x := TellRegime(inp, a.hi + 1, f.reg, TokText(inp, n));
    r := Join(inp, r, x);
    r := Text(inp, r);
    x := TellGens(inp, n + 1, f.gens, sl);
    r := Join(inp, r, x);
    x := TellParams(inp, g, f.params, sl);
    r := Join(inp, r, x);
    x := TellOpt(inp, p, Colon, ":", f.ret, sl);
    r := Join(inp, r, x);
    if f.body.Absent? { r := Key(inp, r, Semi, ";"); } else { r := More(inp, r, f.body, sl); }
  }

  // Generic parameters stand first behind the documentation, in front of `more`.
  lemma GensKids(inp: Input, t: Tree, docs: seq<Tree>, pos: nat, g: Gens, more: seq<Tree>)
    requires t.Tree? && t.kids == docs + (AstGens(inp, pos, g) + more) && !IsKind(more, 0, GenericParamList)
    ensures ShowGens(t, |docs|) == AllWords(AstGens(inp, pos, g))
    ensures BehindGens(t, |docs|) == |docs| + |AstGens(inp, pos, g)|
  {
    hide AllWords, Show, Kid, ShowFrom, AstParts, MGens;
    var gs := AstGens(inp, pos, g);
    var rest := gs + more;
    Rest(t, docs, rest, 0);
    if g.Gens? {
      assert gs == [gs[0]] && rest[0] == gs[0];
      OneWord(gs[0]);
    } else {
      NoWords();
      assert rest == more;
    }
  }

  // What stands behind the generic parameters.
  lemma KidBehind(t: Tree, docs: seq<Tree>, gs: seq<Tree>, more: seq<Tree>, i: nat)
    requires t.Tree? && t.kids == docs + (gs + more) && i <= |more|
    ensures var k := |docs| + |gs| + i;
            && |t.kids| == |docs| + |gs| + |more| && ShowFrom(t, k) == AllWords(more[i..])
            && (i < |more| ==> t.kids[k] == more[i] && Kid(t, k) == Show(more[i]))
  {
    hide AllWords, Show, ShowFrom, Kid;
    var k := |docs| + |gs| + i;
    BehindTwo(docs, gs, more, i);
    FromAll(t, k);
    if i < |more| { KidIs(t, k); }
  }

  lemma KidIs(t: Tree, k: nat)
    requires t.Tree? && k < |t.kids|
    ensures Kid(t, k) == Show(t.kids[k])
  {
  }

  lemma BehindTwo(docs: seq<Tree>, gs: seq<Tree>, more: seq<Tree>, i: nat)
    requires i <= |more|
    ensures var s := docs + (gs + more);
            && |s| == |docs| + |gs| + |more| && s[|docs| + |gs| + i..] == more[i..]
            && (i < |more| ==> s[|docs| + |gs| + i] == more[i])
  {
    var s, k := docs + (gs + more), |docs| + |gs| + i;
    assert |s| == |docs| + |gs| + |more|;
    assert forall j :: 0 <= j < |more| - i ==> s[k..][j] == more[i..][j];
  }

  lemma FnDeclShown(x: Tree, k: nat)
    requires x.Tree? && x.kind == FnDecl
    ensures var i := BehindGens(x, k);
            ShowDecl(x, k) == UnsafeWord(x.flags) + ["fn"] + RegimeWord(x.payload) + NameWord(x.payload)
                + ShowGens(x, k)
                              + Kid(x, i) + ShowReturn(x, i + 1) + ShowBody(x)
  {
    hide Kid, RegimeWord, NameWord, ShowGens, ShowReturn, ShowBody, UnsafeWord, BehindGens;
  }

  lemma FnShown(inp: Input, pos: nat, f: FnSyn, body: Switch, sl: Switch, flags: nat, docs: seq<Tree>,
                n: nat, g: nat, p: nat, b: nat)
    requires WFFn(f, body, sl) && FnAt(inp, pos, f, n, g, p, b) && MFn(inp, pos, f) >= 0
    requires MRegime(inp, (if f.isUnsafe then pos + 1 else pos) + 1, f.reg) == n
    ensures var x := AstFn(inp, pos, f, flags, docs);
            && x.Tree? && x.kind == FnDecl && |docs| < |x.kids| && x.kids == docs + FnRest(inp, f, n, g, p, b)
            && NoDoc(FnRest(inp, f, n, g, p, b))
            && ShowDecl(x, |docs|) == FnWords(inp, UnsafeWord(x.flags), f, n, g, p, b)
            && x.flags == (if f.isUnsafe then WithUnsafe(flags) else flags)
  {
    hide M, Ast, MGens, MParams, MReturn, MBody, MFnName, AstGens, AstParams, RegimeOf, RegimeWord, TextOf, MFn,
         Show, Kid, ShowFrom, UnsafeWord, WithUnsafe, AllWords, WF, WFGens, WFParts, FnAt, ShowDecl, ShowGens,
         ShowReturn, ShowBody, BehindGens, AstFn, FnRest;
    FnTree(inp, pos, f, flags, docs, n, g, p, b);
    FnMore(inp, f, n, g, p, b);
    var x := AstFn(inp, pos, f, flags, docs);
    var gs := AstGens(inp, n + 1, f.gens);
    var more := FnRest(inp, f, n, g, p, b)[|gs|..];
    GensKids(inp, x, docs, n + 1, f.gens, more);
    KidBehind(x, docs, gs, more, 0);
    FnDeclShown(x, |docs|);
    ReturnShown(inp, x, f, docs, gs, more, p);
    BodyShown(inp, x, f, body, sl, b, docs, gs, more);
  }

  lemma ReturnShown(inp: Input, x: Tree, f: FnSyn, docs: seq<Tree>, gs: seq<Tree>, more: seq<Tree>, p: nat)
    requires x.Tree? && x.kids == docs + (gs + more) && |more| == (if f.ret.Absent? then 2 else 3)
    requires !f.ret.Absent? ==> more[1] == Ast(inp, p + 1, f.ret)
    ensures ShowReturn(x, |docs| + |gs| + 1) == if f.ret.Absent? then [] else [":"] + Show(Ast(inp, p + 1, f.ret))
  {
    hide Ast, Show, Kid, ShowFrom;
    KidBehind(x, docs, gs, more, 1);
  }

  lemma BodyShown(inp: Input, x: Tree, f: FnSyn, body: Switch, sl: Switch, b: nat, docs: seq<Tree>, gs: seq<Tree>,
                  more: seq<Tree>)
    requires WFFn(f, body, sl) && x.Tree? && x.kids == docs + (gs + more) && more != []
    requires more[|more| - 1] == Ast(inp, b, f.body)
    ensures ShowBody(x) == if f.body.Absent? then [";"] else Show(Ast(inp, b, f.body))
  {
    hide Show, Kid, ShowFrom, M, WF, AstExpr;
    if !f.body.Absent? { AtomTree(inp, b, f.body.e); }
    KidBehind(x, docs, gs, more, |more| - 1);
  }

  lemma FnMore(inp: Input, f: FnSyn, n: nat, g: nat, p: nat, b: nat)
    ensures var gs, rest := AstGens(inp, n + 1, f.gens), FnRest(inp, f, n, g, p, b);
            var more := rest[|gs|..];
            && rest == gs + more && NoDoc(rest) && !IsKind(more, 0, GenericParamList)
            && |more| == (if f.ret.Absent? then 2 else 3) && more[0] == AstParams(inp, g, f.params)
            && more[|more| - 1] == Ast(inp, b, f.body) && (!f.ret.Absent? ==> more[1] == Ast(inp, p + 1, f.ret))
  {
    hide M, Ast, MGens, MParams, AstParts;
  }

  // A function with its documentation and no visibility.
  lemma TellMethod(inp: Input, pos: nat, docs: nat, f: FnSyn, body: Switch, sl: Switch) returns (r: Tale)
    requires Worded(inp) && pos <= |inp.toks| && WFFn(f, body, sl)
    requires MDocs(inp, pos, docs, DocCommentTok) >= 0 && MFn(inp, pos + docs, f) >= 0
    ensures True(inp, r) && r.lo == pos && r.hi == MFn(inp, pos + docs, f)
    ensures r.ts == Show(AstFn(inp, pos + docs, f, 0, AstDocs(inp, pos, docs, DocComment)))
  {
    hide True, Worded, KindText, FnWords, AstFn, AstDocs, AllWords, Show, MFn, FnAt, WFFn, FnRest, ShowDecl;
    DeclarationWords();
    var ds := AstDocs(inp, pos, docs, DocComment);
    r := TellDocs(inp, pos, docs, DocCommentTok, DocComment);
    var n, g, p, b := FnParts(inp, pos + docs, f);
    FnShown(inp, pos + docs, f, body, sl, 0, ds, n, g, p, b);
    var x := AstFn(inp, pos + docs, f, 0, ds);
    Declared(x, ds, FnRest(inp, f, n, g, p, b));
    var a := Start(inp, pos + docs);
    if f.isUnsafe { a := First(inp, pos + docs, KwUnsafe, "unsafe"); }
    a := TellFn(inp, a, pos + docs, f, body, sl, n, g, p, b);
    assert r.ts + [] == r.ts;
    r := Join(inp, r, a);
  }

  lemma {:induction false} TellMethods(inp: Input, pos: nat, l: MethodList, body: Switch, sl: Switch) returns (r: Tale)
    requires Worded(inp) && pos <= |inp.toks| && MMethods(inp, pos, l) >= 0 && WFMethods(l, body, sl)
    ensures True(inp, r) && r.lo == pos && r.hi == MMethods(inp, pos, l) && r.ts == AllWords(AstMethods(inp, pos, l))
    decreases l
  {
    hide True, Worded, AllWords, Show, WFFn, MFn, AstFn, AstDocs;
    if l.MNil? {
      NoWords();
      r := Start(inp, pos);
    } else {
      r := TellMethod(inp, pos, l.docs, l.fn, body, sl);
      var z := MFn(inp, pos + l.docs, l.fn);
      var more := TellMethods(inp, z, l.tl, body, sl);
      ConsWords(AstFn(inp, pos + l.docs, l.fn, 0, AstDocs(inp, pos, l.docs, DocComment)), AstMethods(inp, z, l.tl));
      r := Join(inp, r, more);
    }
  }

  /////////////////////////// declarations ///////////////////////////

  // What a declaration's tree is, however its children are reached.
  ghost predicate Shown(x: Tree, docs: seq<Tree>, flags: nat, ts: seq<string>) {
    && x.Tree? && FnDecl <= x.kind <= ImplDecl && PubWord(x.flags) == PubWord(flags)
    && Show(x) == AllWords(docs) + PubWord(flags) + ts
  }

  lemma ShownBy(x: Tree, docs: seq<Tree>, rest: seq<Tree>, flags: nat, ts: seq<string>)
    requires x.Tree? && FnDecl <= x.kind <= ImplDecl && x.kids == docs + rest && AllDocs(docs) && NoDoc(rest)
    requires PubWord(x.flags) == PubWord(flags) && ShowDecl(x, |docs|) == ts
    ensures Shown(x, docs, flags, ts)
  {
    hide AllWords, Show, ShowDecl, PubWord, Documents;
    Declared(x, docs, rest);
  }

  function KeyOf(k: NodeKind): string {
    if k == StructDecl then "struct" else if k == EnumDecl then "enum" else if k == UnionDecl then "union" else "trait"
  }

  // A keyword, a name, generic parameters and members or methods between braces.
  lemma NamedShown(inp: Input, pos: nat, z: int, kind: NodeKind, g: Gens, flags: nat, docs: seq<Tree>, inner: seq<Tree>)
    requires StructDecl <= kind <= UnionDecl || kind == TraitDecl
    requires AllDocs(docs) && NoDoc(inner) && !IsKind(inner, 0, GenericParamList)
    ensures Shown(AstNamed(inp, pos, z, kind, g, flags, docs, inner), docs, flags,
                  [KeyOf(kind)] + [TokText(inp, pos + 1)] + AllWords(AstGens(inp, pos + 2, g)) + ["{"] + AllWords(inner)
                  + ["}"])
  {
    hide AllWords, Show, Kid, ShowFrom, AstGens, ShowGens, BehindGens, TextOf, PubWord, ShowDecl, Documents, Shown;
    var x := AstNamed(inp, pos, z, kind, g, flags, docs, inner);
    var gs := AstGens(inp, pos + 2, g);
    assert x.kids == docs + (gs + inner);
    GensKids(inp, x, docs, pos + 2, g, inner);
    KidBehind(x, docs, gs, inner, 0);
    assert inner[0..] == inner;
    NamedDecl(x, |docs|);
    GensFirst(inp, pos + 2, g, inner);
    ShownBy(x, docs, gs + inner, flags, ShowDecl(x, |docs|));
  }

  lemma NamedDecl(x: Tree, n: nat)
    requires x.Tree? && (StructDecl <= x.kind <= UnionDecl || x.kind == TraitDecl)
    ensures ShowDecl(x, n)
            == [KeyOf(x.kind)] + NameWord(x.payload) + ShowGens(x, n) + ["{"] + ShowFrom(x, BehindGens(x, n)) + ["}"]
  {
    hide ShowFrom, NameWord, ShowGens, BehindGens;
  }

  lemma GensFirst(inp: Input, pos: nat, g: Gens, more: seq<Tree>)
    requires NoDoc(more)
    ensures NoDoc(AstGens(inp, pos, g) + more)
  {
    hide AstParts, MGens;
    if g.NoGens? { assert AstGens(inp, pos, g) + more == more; }
  }

  lemma PartsFirst(inp: Input, pos: nat, l: Parts)
    ensures var x := AstParts(inp, pos, l); NoDoc(x) && !IsKind(x, 0, GenericParamList)
  {
    hide AstPart, AstMoreParts, MPart;
    if l.PCons? { PartTree(inp, pos, l.hd); }
  }

  lemma MethodsFirst(inp: Input, pos: int, l: MethodList)
    ensures var x := AstMethods(inp, pos, l); NoDoc(x) && !IsKind(x, 0, GenericParamList)
  {
    hide AstGens, AstSignature, Ast, MFn, MGens, MFnName, MReturn, AstDocs;
  }

  lemma FormKind(inp: Input, pos: nat, d: DeclForm, flags: nat, docs: seq<Tree>)
    ensures var x := AstForm(inp, pos, d, flags, docs); x.Tree? ==> FnDecl <= x.kind <= ImplDecl
  {
    hide AstGens, AstSignature, Ast, MFn, MGens, MFnName, MReturn, AstMembers, AstMethods, AstDecls, MForm, MBound,
         MUsePath, TextOf;
  }

  lemma DeclsFirst(inp: Input, pos: int, l: Decls)
    ensures NoDoc(AstDecls(inp, pos, l))
  {
    hide AstForm, FormAt, AstDocs;
    if l.DCons? && pos >= 0 {
      var p := FormAt(inp, pos, l.hd);
      if p >= 0 {
        FormKind(inp, p, l.hd.form, if l.hd.isPub then PubFlag else 0, AstDocs(inp, pos, l.hd.docs, DocComment));
      }
    }
  }

  /////////////////////////// forms ///////////////////////////

  lemma {:induction false} TellForm(inp: Input, pos: nat, d: DeclForm, flags: nat, docs: seq<Tree>, sl: Switch)
    returns (r: Tale)
    requires Worded(inp) && pos <= |inp.toks| && MForm(inp, pos, d) >= 0 && WFForm(d, sl) && AllDocs(docs) && flags < 2
    ensures True(inp, r) && r.lo == pos && r.hi == MForm(inp, pos, d)
    ensures Shown(AstForm(inp, pos, d, flags, docs), docs, flags, r.ts)
    decreases d, 1
  {
    hide True, Worded, AllDocs, Shown, AstForm, MForm, WFForm;
    match d
    case DFn(u, f) => r := TellFnForm(inp, pos, d, flags, docs, sl);
    case DConst(_, _) => r := TellConst(inp, pos, d, flags, docs, sl);
    case DStruct(g, l, tr) => r := TellMembers(inp, pos, d, KwStruct, StructDecl, DField, g, l, tr, flags, docs, sl);
    case DEnum(g, l, tr) => r := TellMembers(inp, pos, d, KwEnum, EnumDecl, DVariant, g, l, tr, flags, docs, sl);
    case DUnion(g, l, tr) => r := TellMembers(inp, pos, d, KwUnion, UnionDecl, DField, g, l, tr, flags, docs, sl);
    case DTrait(g, ms) => r := TellTrait(inp, pos, g, ms, flags, docs, sl);
    case DImpl(_, _, _, _) => r := TellImpl(inp, pos, d, flags, docs, sl);
    case DMod(inner) => r := TellMod(inp, pos, inner, flags, docs, sl);
    case DModFile => r := TellModFile(inp, pos, flags, docs);
    case DUse(n, t) => r := TellUse(inp, pos, n, t, flags, docs);
  }

  lemma TellFnForm(inp: Input, pos: nat, d: DeclForm, flags: nat, docs: seq<Tree>, sl: Switch) returns (r: Tale)
    requires Worded(inp) && pos <= |inp.toks| && d.DFn? && MForm(inp, pos, d) >= 0 && WFForm(d, sl)
    requires AllDocs(docs) && flags < 2
    ensures True(inp, r) && r.lo == pos && r.hi == MForm(inp, pos, d)
    ensures Shown(AstForm(inp, pos, d, flags, docs), docs, flags, r.ts)
  {
    hide True, Worded, AllDocs, Shown, KindText, FnWords, AstFn, AllWords, Show, MFn, FnAt, WFFn, FnRest, ShowDecl;
    DeclarationWords();
    var p := if d.isUnsafe then pos + 1 else pos;
    var now := if d.isUnsafe then WithUnsafe(flags) else flags;
    r := Start(inp, pos);
    if d.isUnsafe { r := First(inp, pos, KwUnsafe, "unsafe"); }
    var n, g, q, b := FnParts(inp, p, d.fn);
    FnShown(inp, p, d.fn, On, sl, now, docs, n, g, q, b);
    r := TellFn(inp, r, p, d.fn, On, sl, n, g, q, b);
    ShownBy(AstFn(inp, p, d.fn, now, docs), docs, FnRest(inp, d.fn, n, g, q, b), flags, r.ts);
  }

  lemma TellConst(inp: Input, pos: nat, d: DeclForm, flags: nat, docs: seq<Tree>, sl: Switch) returns (r: Tale)
    requires Worded(inp) && pos <= |inp.toks| && d.DConst? && MForm(inp, pos, d) >= 0 && WFForm(d, sl) && AllDocs(docs)
    ensures True(inp, r) && r.lo == pos && r.hi == MForm(inp, pos, d)
    ensures Shown(AstForm(inp, pos, d, flags, docs), docs, flags, r.ts)
  {
    hide True, Worded, AllDocs, Shown, KindText, Show, M, Ast, WF, TextOf, AstForm;
    Signs();
    DeclarationWords();
    r := First(inp, pos, KwConst, "const");
    r := Text(inp, r);
    r := Key(inp, r, Colon, ":");
    r := More(inp, r, d.ty, sl);
    r := Key(inp, r, Eq, "=");
    r := More(inp, r, d.value, sl);
    r := Key(inp, r, Semi, ";");
    ConstShown(inp, pos, d, flags, docs);
  }

  lemma ConstShown(inp: Input, pos: nat, d: DeclForm, flags: nat, docs: seq<Tree>)
    requires d.DConst? && AllDocs(docs) && d.ty.Ty?
    ensures Shown(AstForm(inp, pos, d, flags, docs), docs, flags,
                  ["const"] + [TokText(inp, pos + 1)] + [":"] + Show(Ast(inp, pos + 3, d.ty)) + ["="]
                  + Show(Ast(inp, M(inp, pos + 3, d.ty) + 1, d.value)) + [";"])
  {
    hide AllDocs, Shown, Show, M, Ast, TextOf, MForm, ShowFrom, Kid, PubWord;
    var x := AstForm(inp, pos, d, flags, docs);
    var more := [Ast(inp, pos + 3, d.ty), Ast(inp, M(inp, pos + 3, d.ty) + 1, d.value)];
    TypeTree(inp, pos + 3, d.ty.t);
    assert x.kids == docs + more;
    Rest(x, docs, more, 0);
    Rest(x, docs, more, 1);
    ShownBy(x, docs, more, flags, ShowDecl(x, |docs|));
  }

  lemma TellMembers(inp: Input, pos: nat, d: DeclForm, k: Kind, kind: NodeKind, e: DeclItem, g: Gens, l: Parts,
                    tr: Switch,
                    flags: nat, docs: seq<Tree>, sl: Switch) returns (r: Tale)
    requires Worded(inp) && pos <= |inp.toks| && MForm(inp, pos, d) >= 0 && WFForm(d, sl) && AllDocs(docs)
    requires (k == KwStruct && kind == StructDecl && e.DField? && d == DStruct(g, l, tr))
             || (k == KwEnum && kind == EnumDecl && e.DVariant? && d == DEnum(g, l, tr))
             || (k == KwUnion && kind == UnionDecl && e.DField? && d == DUnion(g, l, tr))
    ensures True(inp, r) && r.lo == pos && r.hi == MForm(inp, pos, d)
    ensures Shown(AstForm(inp, pos, d, flags, docs), docs, flags, r.ts)
  {
    hide True, Worded, AllDocs, Shown, KindText, AllWords, MGens, MParts, AstParts, AstGens, AstNamed, WFGens,
         WFParts, TextOf;
    r := TellHead(inp, pos, k, kind, g, sl);
    var q := r.hi;
    Signs();
    r := TellPartBlock(inp, r, LBrace, "{", e, l, tr, RBrace, "}", sl);
    PartsFirst(inp, q + 1, l);
    NamedShown(inp, pos, MForm(inp, pos, d), kind, g, flags, docs, AstParts(inp, q + 1, l));
  }

  lemma TellHead(inp: Input, pos: nat, k: Kind, kind: NodeKind, g: Gens, sl: Switch) returns (r: Tale)
    requires Worded(inp) && pos <= |inp.toks| && MHead(inp, pos, k, g) >= 0 && WFGens(g, sl)
    requires (k == KwStruct && kind == StructDecl) || (k == KwEnum && kind == EnumDecl)
             || (k == KwUnion && kind == UnionDecl) || (k == KwTrait && kind == TraitDecl)
    ensures True(inp, r) && r.lo == pos && r.hi == MHead(inp, pos, k, g) == MGens(inp, pos + 2, g)
    ensures r.ts == [KeyOf(kind)] + [TokText(inp, pos + 1)] + AllWords(AstGens(inp, pos + 2, g))
  {
    hide True, Worded, KindText, AllWords, MGens, AstGens, WFGens, TextOf;
    DeclarationWords();
    r := First(inp, pos, k, KeyOf(kind));
    r := Text(inp, r);
    var gs := TellGens(inp, pos + 2, g, sl);
    r := Join(inp, r, gs);
  }

  // Methods in braces behind what is told.
  lemma TellMethodBlock(inp: Input, a: Tale, l: MethodList, body: Switch, sl: Switch) returns (r: Tale)
    requires Worded(inp) && True(inp, a) && MMethodBlock(inp, a.hi, l) >= 0 && WFMethods(l, body, sl)
    ensures True(inp, r) && r.lo == a.lo && r.hi == MMethodBlock(inp, a.hi, l)
    ensures r.ts == a.ts + ["{"] + AllWords(AstMethods(inp, a.hi + 1, l)) + ["}"]
  {
    hide True, Worded, KindText, AllWords, MMethods, AstMethods, WFMethods;
    Signs();
    r := Key(inp, a, LBrace, "{");
    var ms := TellMethods(inp, r.hi, l, body, sl);
    r := Join(inp, r, ms);
    r := Key(inp, r, RBrace, "}");
  }

  lemma TellTrait(inp: Input, pos: nat, g: Gens, ms: MethodList, flags: nat, docs: seq<Tree>, sl: Switch)
    returns (r: Tale)
    requires Worded(inp) && pos <= |inp.toks| && MForm(inp, pos, DTrait(g, ms)) >= 0 && WFForm(DTrait(g, ms), sl)
    requires AllDocs(docs)
    ensures True(inp, r) && r.lo == pos && r.hi == MForm(inp, pos, DTrait(g, ms))
    ensures Shown(AstForm(inp, pos, DTrait(g, ms), flags, docs), docs, flags, r.ts)
  {
    hide True, Worded, AllDocs, Shown, AllWords, MGens, MMethods, AstMethods, AstGens, AstNamed, WFGens, WFMethods,
         TextOf;
    r := TellHead(inp, pos, KwTrait, TraitDecl, g, sl);
    var q := r.hi;
    r := TellMethodBlock(inp, r, ms, Off, sl);
    MethodsFirst(inp, q + 1, ms);
    NamedShown(inp, pos, MForm(inp, pos, DTrait(g, ms)), TraitDecl, g, flags, docs, AstMethods(inp, q + 1, ms));
  }

  // The trait and the type of an implementation.
  ghost function ImplWords(inp: Input, pos: nat, d: DeclForm): seq<string>
    requires d.DImpl?
  {
    var p := MGens(inp, pos + 1, d.gens);
    var q := MBound(inp, p, d.bound);
    ["impl"] + AllWords(AstGens(inp, pos + 1, d.gens))
        + (if d.bound.Absent? then [] else Show(Ast(inp, p, d.bound)) + ["for"])
    + Show(Ast(inp, q, d.ty)) + ["{"] + AllWords(AstMethods(inp, M(inp, q, d.ty) + 1, d.methods)) + ["}"]
  }

  lemma TellImpl(inp: Input, pos: nat, d: DeclForm, flags: nat, docs: seq<Tree>, sl: Switch) returns (r: Tale)
    requires Worded(inp) && pos <= |inp.toks| && d.DImpl? && MForm(inp, pos, d) >= 0 && WFForm(d, sl) && AllDocs(docs)
    ensures True(inp, r) && r.lo == pos && r.hi == MForm(inp, pos, d)
    ensures Shown(AstForm(inp, pos, d, flags, docs), docs, flags, r.ts)
  {
    hide True, Worded, AllDocs, Shown, KindText, AllWords, MGens, MMethodBlock, AstMethods, AstGens, WFGens,
         WFMethods, M, WF, Ast, Show, AstForm;
    DeclarationWords();
    ImplShown(inp, pos, d, flags, docs);
    r := First(inp, pos, KwImpl, "impl");
    var x := TellGens(inp, pos + 1, d.gens, sl);
    r := Join(inp, r, x);
    var p := r.hi;
    x := Start(inp, p);
    if !d.bound.Absent? {
      x := TellSyn(inp, p, d.bound, sl);
      x := Key(inp, x, KwFor, "for");
    }
    r := Join(inp, r, x);
    r := More(inp, r, d.ty, sl);
    r := TellMethodBlock(inp, r, d.methods, On, sl);
  }

  lemma ImplShown(inp: Input, pos: nat, d: DeclForm, flags: nat, docs: seq<Tree>)
    requires d.DImpl? && AllDocs(docs) && (d.bound.Absent? || d.bound.Ty?) && d.ty.Ty?
    requires var p := MGens(inp, pos + 1, d.gens); p >= 0 && MBound(inp, p, d.bound) >= 0
    ensures Shown(AstForm(inp, pos, d, flags, docs), docs, flags, ImplWords(inp, pos, d))
  {
    hide AllDocs, Shown, AllWords, MGens, AstMethods, AstGens, M, Ast, Show, MForm, ShowFrom, Kid, PubWord,
         ShowGens, BehindGens, MBound, ShowDecl;
    var x := AstForm(inp, pos, d, flags, docs);
    var p := MGens(inp, pos + 1, d.gens);
    var q := MBound(inp, p, d.bound);
    var gs, ms := AstGens(inp, pos + 1, d.gens), AstMethods(inp, M(inp, q, d.ty) + 1, d.methods);
    var more := [Ast(inp, p, d.bound), Ast(inp, q, d.ty)] + ms;
    assert x.kids == docs + (gs + more);
    if d.bound.Ty? { TypeTree(inp, p, d.bound.t); } else { NoTree(inp, p); }
    GensKids(inp, x, docs, pos + 1, d.gens, more);
    KidBehind(x, docs, gs, more, 0);
    KidBehind(x, docs, gs, more, 1);
    KidBehind(x, docs, gs, more, 2);
    assert more[2..] == ms;
    ImplDeclShown(x, |docs|);
    GensFirst(inp, pos + 1, d.gens, more);
    ShownBy(x, docs, gs + more, flags, ShowDecl(x, |docs|));
  }

  lemma NoTree(inp: Input, pos: nat)
    ensures Ast(inp, pos, Absent).NullTree?
  {
    hide M;
  }

  lemma ImplDeclShown(x: Tree, n: nat)
    requires x.Tree? && x.kind == ImplDecl
    ensures var i := BehindGens(x, n);
            ShowDecl(x, n)
            == ["impl"] + ShowGens(x, n) + (if i < |x.kids| && x.kids[i].Tree? then Kid(x, i) + ["for"] else [])
               + Kid(x, i + 1) + ["{"] + ShowFrom(x, i + 2) + ["}"]
  {
    hide ShowFrom, NameWord, ShowGens, BehindGens, Kid;
  }

  lemma {:induction false} TellMod(inp: Input, pos: nat, inner: Decls, flags: nat, docs: seq<Tree>, sl: Switch)
    returns (r: Tale)
    requires Worded(inp) && pos <= |inp.toks| && MForm(inp, pos, DMod(inner)) >= 0 && WFForm(DMod(inner), sl)
    requires AllDocs(docs)
    ensures True(inp, r) && r.lo == pos && r.hi == MForm(inp, pos, DMod(inner))
    ensures Shown(AstForm(inp, pos, DMod(inner), flags, docs), docs, flags, r.ts)
    decreases inner, 5
  {
    hide True, Worded, AllDocs, Shown, KindText, AllWords, MDecls, AstDecls, WFDecls, TextOf, AstForm;
    Signs();
    DeclarationWords();
    r := First(inp, pos, KwMod, "mod");
    r := Text(inp, r);
    r := Key(inp, r, LBrace, "{");
    var ds := TellDecls(inp, pos + 3, inner, sl);
    r := Join(inp, r, ds);
    r := Key(inp, r, RBrace, "}");
    ModShown(inp, pos, inner, flags, docs);
  }

  lemma ModShown(inp: Input, pos: nat, inner: Decls, flags: nat, docs: seq<Tree>)
    requires AllDocs(docs)
    ensures Shown(AstForm(inp, pos, DMod(inner), flags, docs), docs, flags,
                  ["mod"] + [TokText(inp, pos + 1)] + ["{"] + AllWords(AstDecls(inp, pos + 3, inner)) + ["}"])
  {
    hide AllDocs, Shown, AllWords, AstDecls, Show, MForm, ShowFrom, Kid, PubWord, TextOf;
    var x, ds := AstForm(inp, pos, DMod(inner), flags, docs), AstDecls(inp, pos + 3, inner);
    assert x.kids == docs + ds;
    Rest(x, docs, ds, 0);
    assert ds[0..] == ds;
    DeclsFirst(inp, pos + 3, inner);
    ShownBy(x, docs, ds, flags, ShowDecl(x, |docs|));
  }

  lemma TellModFile(inp: Input, pos: nat, flags: nat, docs: seq<Tree>) returns (r: Tale)
    requires Worded(inp) && pos <= |inp.toks| && MForm(inp, pos, DModFile) >= 0 && AllDocs(docs)
    ensures True(inp, r) && r.lo == pos && r.hi == MForm(inp, pos, DModFile)
    ensures Shown(AstForm(inp, pos, DModFile, flags, docs), docs, flags, r.ts)
  {
    hide True, Worded, AllDocs, Shown, KindText, TextOf, Show, PubWord;
    Signs();
    DeclarationWords();
    r := First(inp, pos, KwMod, "mod");
    r := Text(inp, r);
    r := Key(inp, r, Semi, ";");
    var x := AstForm(inp, pos, DModFile, flags, docs);
    assert docs == docs + [];
    ShownBy(x, docs, [], flags, r.ts);
  }

  // The path of a `use` is one piece.
  lemma TellUse(inp: Input, pos: nat, n: nat, t: UseTail, flags: nat, docs: seq<Tree>) returns (r: Tale)
    requires Worded(inp) && pos <= |inp.toks| && MForm(inp, pos, DUse(n, t)) >= 0 && AllDocs(docs)
    ensures True(inp, r) && r.lo == pos && r.hi == MForm(inp, pos, DUse(n, t))
    ensures Shown(AstForm(inp, pos, DUse(n, t), flags, docs), docs, flags, r.ts)
  {
    hide True, Worded, AllDocs, Shown, KindText, TextOf, Show, PubWord, MUsePath, AstForm;
    Signs();
    DeclarationWords();
    var z := MUsePath(inp, pos, n, t);
    UseKinds(inp, pos, n, t);
    r := First(inp, pos, KwUse, "use");
    PathOk(inp, pos + 1, z);
    var p := OnePiece(inp, Path(pos + 1, z));
    r := Join(inp, r, p);
    r := Key(inp, r, Semi, ";");
    UseShown(inp, pos, n, t, flags, docs);
  }

  lemma UseShown(inp: Input, pos: nat, n: nat, t: UseTail, flags: nat, docs: seq<Tree>)
    requires AllDocs(docs)
    ensures Shown(AstForm(inp, pos, DUse(n, t), flags, docs), docs, flags,
                  ["use"] + [TextOf(inp.src, Span(StartOf(inp, pos + 1), EndOf(inp, MUsePath(inp, pos, n, t) - 1)))]
                      + [";"])
  {
    hide AllDocs, Shown, TextOf, Show, PubWord, MUsePath, MForm;
    var x := AstForm(inp, pos, DUse(n, t), flags, docs);
    assert docs == docs + [];
    ShownBy(x, docs, [], flags, ShowDecl(x, |docs|));
  }

  lemma UseKinds(inp: Input, pos: nat, n: nat, t: UseTail)
    requires MUsePath(inp, pos, n, t) >= 0
    ensures KindAt(inp, pos) == KwUse
    ensures forall k :: pos + 1 <= k < MUsePath(inp, pos, n, t) ==> InPath(KindAt(inp, k))
  {
    hide MSegs;
    var q := MSegs(inp, pos + 2, n);
    forall k | pos + 1 <= k < MUsePath(inp, pos, n, t) ensures InPath(KindAt(inp, k)) {
      if pos + 2 <= k < q { SegKinds(inp, pos + 2, n, k); }
    }
  }

  /////////////////////////// declarations and files ///////////////////////////

  lemma {:induction false} TellDecl(inp: Input, pos: nat, d: Decl, sl: Switch) returns (r: Tale)
    requires Worded(inp) && pos <= |inp.toks| && MDecl(inp, pos, d) >= 0 && WFForm(d.form, sl)
    ensures True(inp, r) && r.lo == pos && r.hi == MDecl(inp, pos, d) && r.ts == Show(AstDecl(inp, pos, d))
    decreases d, 2
  {
    hide True, Worded, AllWords, AllDocs, Show, AstDocs, MForm, AstForm, KindText, WFForm;
    DeclarationWords();
    r := TellDocs(inp, pos, d.docs, DocCommentTok, DocComment);
    var p := r.hi;
    var flags := if d.isPub then PubFlag else 0;
    var v := Start(inp, p);
    if d.isPub { v := First(inp, p, KwPub, "pub"); }
    r := Join(inp, r, v);
    var x := TellForm(inp, r.hi, d.form, flags, AstDocs(inp, pos, d.docs, DocComment), sl);
    r := Join(inp, r, x);
  }

  lemma {:induction false} TellDecls(inp: Input, pos: nat, l: Decls, sl: Switch) returns (r: Tale)
    requires Worded(inp) && pos <= |inp.toks| && MDecls(inp, pos, l) >= 0 && WFDecls(l, sl)
    ensures True(inp, r) && r.lo == pos && r.hi == MDecls(inp, pos, l) && r.ts == AllWords(AstDecls(inp, pos, l))
    decreases l, 4
  {
    hide True, Worded, AllWords, Show, MDecl, AstDecl, WFForm;
    if l.DNil? {
      NoWords();
      r := Start(inp, pos);
    } else {
      r := TellDecl(inp, pos, l.hd, sl);
      var more := TellDecls(inp, r.hi, l.tl, sl);
      ConsWords(AstDecl(inp, pos, l.hd), AstDecls(inp, r.hi, l.tl));
      r := Join(inp, r, more);
    }
  }

  /** A file's tree gives back the text of every token of the file but the dropped ones. */
  lemma TellFile(inp: Input, f: FileSyn, end: nat, sl: Switch) returns (r: Tale)
    requires Worded(inp) && DerivesFile(inp, f, end, sl)
    ensures True(inp, r) && r.lo == 0 && r.hi == end && r.ts == Show(AstFile(inp, f))
  {
    hide True, Worded, AllWords, Show, MDecls, AstDecls, AstDocs, WFDecls;
    r := TellDocs(inp, 0, f.docs, FileDocCommentTok, FileDocComment);
    var ds := TellDecls(inp, f.docs, f.decls, sl);
    CatWords(AstDocs(inp, 0, f.docs, FileDocComment), AstDecls(inp, f.docs, f.decls));
    FileShown(inp, f);
    r := Join(inp, r, ds);
  }

  lemma FileShown(inp: Input, f: FileSyn)
    ensures Show(AstFile(inp, f)) == AllWords(AstDocs(inp, 0, f.docs, FileDocComment) + AstDecls(inp, f.docs, f.decls))
  {
    hide AllWords, AstDocs, AstDecls, MFile, ShowFrom;
    KidsAre(AstFile(inp, f));
  }
}
