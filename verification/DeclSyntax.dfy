/** Concrete syntax of declarations and files, the tokens that spell it, and the trees it stands for. */
module DeclGrammar {
  import opened Tokens
  import opened Trees
  import opened Grammar
  import opened Spelling
  import opened Pool

  /////////////////////////// syntax ///////////////////////////

  // One item of a comma list: a member, a parameter, a generic parameter or a variant.
  datatype Part =
    | Member(reg: bool, ty: Syn)
    | TypedParam(reg: bool, ty: Syn)
    | SelfParam(reg: bool)
    | FreeGeneric
    | BoundGeneric(ty: Syn)
    | UnitVariant
    | ValueVariant(value: Syn)
    | TupleVariant(types: Syns, trail: Switch)
    | StructVariant(fields: Parts, trail: Switch)

  datatype Parts = PNil | PCons(hd: Part, tl: Parts)

  // The comma lists of declarations, by what they hold.
  datatype DeclItem = DField | DVariant | DGeneric | DParam

  datatype Gens = NoGens | Gens(items: Parts, trail: Switch)

  // A function; without a return type or a body the part is absent.
  datatype FnSyn = FnSyn(isUnsafe: bool, reg: bool, gens: Gens, params: Parts, ret: Syn, body: Syn)

  // Methods with their documentation comments counted.
  datatype MethodList = MNil | MCons(docs: nat, fn: FnSyn, tl: MethodList)

  datatype UseTail = Whole | Glob | Alias

  datatype DeclForm =
    | DFn(isUnsafe: bool, fn: FnSyn)
    | DConst(ty: Syn, value: Syn)
    | DStruct(gens: Gens, members: Parts, trail: Switch)
    | DEnum(gens: Gens, members: Parts, trail: Switch)
    | DUnion(gens: Gens, members: Parts, trail: Switch)
    | DTrait(gens: Gens, methods: MethodList)
    | DImpl(gens: Gens, bound: Syn, ty: Syn, methods: MethodList)
    | DMod(inner: Decls)
    | DModFile
    | DUse(segs: nat, tail: UseTail)

  datatype Decl = Decl(docs: nat, isPub: bool, form: DeclForm)

  datatype Decls = DNil | DCons(hd: Decl, tl: Decls)

  datatype FileSyn = FileSyn(docs: nat, decls: Decls)

  /////////////////////////// well-formedness ///////////////////////////

  function Closer(e: DeclItem): Kind {
    match e
    case DField => RBrace
    case DVariant => RBrace
    case DGeneric => Greater
    case DParam => RParen
  }

  predicate IsTy(s: Syn, sl: Switch) { s.Ty? && WF(s, sl) }

  predicate IsEx(s: Syn, sl: Switch) { s.Ex? && WF(s, sl) }

  predicate WFPart(e: DeclItem, p: Part, sl: Switch)
    decreases p, 1
  {
    match p
    case Member(_, ty) => e.DField? && IsTy(ty, sl)
    case TypedParam(_, ty) => e.DParam? && IsTy(ty, sl)
    case SelfParam(_) => e.DParam?
    case FreeGeneric => e.DGeneric?
    case BoundGeneric(ty) => e.DGeneric? && IsTy(ty, sl)
    case UnitVariant => e.DVariant?
    case ValueVariant(v) => e.DVariant? && IsEx(v, sl)
    case TupleVariant(types, tr) => e.DVariant? && WFItems(LTypes, types, tr, sl)
    case StructVariant(fs, tr) => e.DVariant? && WFParts(DField, fs, sl) && TrailOk(DField, fs, tr)
  }

  predicate WFParts(e: DeclItem, l: Parts, sl: Switch)
    decreases l, 0
  {
    l.PCons? ==> WFPart(e, l.hd, sl) && WFParts(e, l.tl, sl)
  }

  // A trailing comma needs an item in front of it, and no parameter has one.
  predicate TrailOk(e: DeclItem, l: Parts, trail: Switch) { trail.On? ==> l.PCons? && !e.DParam? }

  predicate WFGens(g: Gens, sl: Switch) {
    g.Gens? ==> WFParts(DGeneric, g.items, sl) && TrailOk(DGeneric, g.items, g.trail)
  }

  predicate WFFn(f: FnSyn, body: Switch, sl: Switch) {
    && WFGens(f.gens, sl) && WFParts(DParam, f.params, sl)
    && (f.ret.Absent? || IsTy(f.ret, sl))
    && if body.On? then IsBlock(f.body) && WF(f.body, sl) else f.body.Absent?
  }

  predicate WFMethods(l: MethodList, body: Switch, sl: Switch)
    decreases l
  {
    l.MCons? ==> WFFn(l.fn, body, sl) && WFMethods(l.tl, body, sl)
  }

  predicate WFMembers(e: DeclItem, gens: Gens, l: Parts, trail: Switch, sl: Switch) {
    WFGens(gens, sl) && WFParts(e, l, sl) && TrailOk(e, l, trail)
  }

  predicate WFForm(d: DeclForm, sl: Switch)
    decreases d, 0
  {
    match d
    case DFn(_, f) => !f.isUnsafe && WFFn(f, On, sl)
    case DConst(ty, v) => IsTy(ty, sl) && IsEx(v, sl)
    case DStruct(g, l, tr) => WFMembers(DField, g, l, tr, sl)
    case DEnum(g, l, tr) => WFMembers(DVariant, g, l, tr, sl)
    case DUnion(g, l, tr) => WFMembers(DField, g, l, tr, sl)
    case DTrait(g, ms) => WFGens(g, sl) && WFMethods(ms, Off, sl)
    case DImpl(g, b, ty, ms) => WFGens(g, sl) && (b.Absent? || IsTy(b, sl)) && IsTy(ty, sl) && WFMethods(ms, On, sl)
    case DMod(inner) => WFDecls(inner, sl)
    case DModFile => true
    case DUse(_, _) => true
  }

  predicate WFDecls(l: Decls, sl: Switch)
    decreases l, 1
  {
    l.DCons? ==> WFForm(l.hd.form, sl) && WFDecls(l.tl, sl)
  }

  /////////////////////////// spelling ///////////////////////////

  // `name : type`.
  function MTyped(inp: Input, pos: int, ty: Syn): (r: int)
    ensures r >= 0 ==> 0 <= pos < r <= |inp.toks|
  {
    M(inp, Expect1(inp, Expect1(inp, pos, Identifier), Colon), ty)
  }

  /** The position after a part when the tokens from `pos` on spell it, otherwise -1. */
  function MPart(inp: Input, pos: int, p: Part): (r: int)
    ensures r >= 0 ==> 0 <= pos < r <= |inp.toks|
    decreases p, 2
  {
    match p
    case Member(reg, ty) => MTyped(inp, MRegime(inp, pos, reg), ty)
    case TypedParam(reg, ty) => MTyped(inp, MRegime(inp, pos, reg), ty)
    case SelfParam(reg) =>
      var n := MRegime(inp, pos, reg);
      if n >= 0 && TokText(inp, n) == "self" then Expect1(inp, n, Identifier) else -1
    case FreeGeneric => Expect1(inp, pos, Identifier)
    case BoundGeneric(ty) => MTyped(inp, pos, ty)
    case UnitVariant => Expect1(inp, pos, Identifier)
    case ValueVariant(v) => M(inp, Expect1(inp, Expect1(inp, pos, Identifier), Eq), v)
    case TupleVariant(types, tr) => Enclosed(inp, Expect1(inp, pos, Identifier), LParen, types, tr, RParen)
    case StructVariant(fs, tr) =>
      Expect1(inp, MParts(inp, Expect1(inp, Expect1(inp, pos, Identifier), LBrace), fs, tr), RBrace)
  }

  function MParts(inp: Input, pos: int, l: Parts, trail: Switch): (r: int)
    ensures r >= 0 ==> 0 <= pos <= r && (r == pos || r <= |inp.toks|)
    decreases l, 1
  {
    if l.PNil? then pos else MMoreParts(inp, MPart(inp, pos, l.hd), l.tl, trail)
  }

  // The parts after the first, each behind its comma.
  function MMoreParts(inp: Input, pos: int, l: Parts, trail: Switch): (r: int)
    ensures r >= 0 ==> 0 <= pos <= r && (r == pos || r <= |inp.toks|)
    decreases l, 0
  {
    if l.PNil? then (if trail.On? then Expect1(inp, pos, Comma) else pos)
    else MMoreParts(inp, MPart(inp, Expect1(inp, pos, Comma), l.hd), l.tl, trail)
  }

  function MGens(inp: Input, pos: int, g: Gens): (r: int)
    ensures r >= 0 ==> 0 <= pos <= r && (r == pos || r <= |inp.toks|)
  {
    if g.NoGens? then (if KindAt(inp, pos) == Less then -1 else pos)
    else Expect1(inp, MParts(inp, Expect1(inp, pos, Less), g.items, g.trail), Greater)
  }

  // The position of the name of a function whose head is at `pos`.
  function MFnName(inp: Input, pos: int, f: FnSyn): (r: int)
    ensures r >= 0 ==> 0 <= pos < r
  {
    MRegime(inp, Expect1(inp, if f.isUnsafe then Expect1(inp, pos, KwUnsafe) else pos, KwFn), f.reg)
  }

  function MParams(inp: Input, pos: int, l: Parts): (r: int)
    ensures r >= 0 ==> 0 <= pos < r <= |inp.toks|
  {
    Expect1(inp, MParts(inp, Expect1(inp, pos, LParen), l, Off), RParen)
  }

  function MReturn(inp: Input, pos: int, ret: Syn): (r: int)
    ensures r >= 0 ==> 0 <= pos <= r && (r == pos || r <= |inp.toks|)
  {
    if ret.Absent? then pos else M(inp, Expect1(inp, pos, Colon), ret)
  }

  function MBody(inp: Input, pos: int, body: Syn): (r: int)
    ensures r >= 0 ==> 0 <= pos < r <= |inp.toks|
  {
    if body.Absent? then Expect1(inp, pos, Semi) else M(inp, pos, body)
  }

  function MFn(inp: Input, pos: int, f: FnSyn): (r: int)
    ensures r >= 0 ==> 0 <= pos < r <= |inp.toks|
  {
    var g := MGens(inp, Expect1(inp, MFnName(inp, pos, f), Identifier), f.gens);
    MBody(inp, MReturn(inp, MParams(inp, g, f.params), f.ret), f.body)
  }

  // `n` documentation comments.
  function MDocs(inp: Input, pos: int, n: nat, k: Kind): (r: int)
    ensures r >= 0 ==> 0 <= pos <= r == pos + n && (r == pos || r <= |inp.toks|)
    decreases n
  {
    if n == 0 then pos else MDocs(inp, Expect1(inp, pos, k), n - 1, k)
  }

  function MMethods(inp: Input, pos: int, l: MethodList): (r: int)
    ensures r >= 0 ==> 0 <= pos <= r && (r == pos || r <= |inp.toks|)
    decreases l
  {
    if l.MNil? then pos else MMethods(inp, MFn(inp, MDocs(inp, pos, l.docs, DocCommentTok), l.fn), l.tl)
  }

  // Members between braces.
  function MMembers(inp: Input, pos: int, l: Parts, trail: Switch): (r: int)
    ensures r >= 0 ==> 0 <= pos < r <= |inp.toks|
  {
    Expect1(inp, MParts(inp, Expect1(inp, pos, LBrace), l, trail), RBrace)
  }

  function MMethodBlock(inp: Input, pos: int, l: MethodList): (r: int)
    ensures r >= 0 ==> 0 <= pos < r <= |inp.toks|
  {
    Expect1(inp, MMethods(inp, Expect1(inp, pos, LBrace), l), RBrace)
  }

  // A keyword, a name and generic parameters.
  function MHead(inp: Input, pos: int, k: Kind, g: Gens): (r: int)
    ensures r >= 0 ==> 0 <= pos && pos + 2 <= r <= |inp.toks|
  {
    MGens(inp, Expect1(inp, Expect1(inp, pos, k), Identifier), g)
  }

  function MUseTail(inp: Input, pos: int, t: UseTail): (r: int)
    ensures r >= 0 ==> 0 <= pos <= r && (r == pos || r <= |inp.toks|)
  {
    match t
    case Whole => pos
    case Glob => Expect1(inp, Expect1(inp, pos, ColonColon), Star)
    case Alias => Expect1(inp, Expect1(inp, pos, KwAs), Identifier)
  }

  // The token behind a `use` path and its tail.
  function MUsePath(inp: Input, pos: int, segs: nat, t: UseTail): (r: int)
    ensures r >= 0 ==> 0 <= pos && pos + 2 <= r <= |inp.toks|
  {
    MUseTail(inp, MSegs(inp, Expect1(inp, Expect1(inp, pos, KwUse), Identifier), segs), t)
  }

  // The trait in front of `for`, if there is one.
  function MBound(inp: Input, pos: int, b: Syn): (r: int)
    ensures r >= 0 ==> 0 <= pos <= r && (r == pos || r <= |inp.toks|)
  {
    if b.Absent? then pos else Expect1(inp, M(inp, pos, b), KwFor)
  }

  function MForm(inp: Input, pos: int, d: DeclForm): (r: int)
    ensures r >= 0 ==> 0 <= pos < r <= |inp.toks|
    decreases d, 1
  {
    match d
    case DFn(u, f) => MFn(inp, if u then Expect1(inp, pos, KwUnsafe) else pos, f)
    case DConst(ty, v) =>
      Expect1(inp, M(inp, Expect1(inp, MTyped(inp, Expect1(inp, pos, KwConst), ty), Eq), v), Semi)
    case DStruct(g, l, tr) => MMembers(inp, MHead(inp, pos, KwStruct, g), l, tr)
    case DEnum(g, l, tr) => MMembers(inp, MHead(inp, pos, KwEnum, g), l, tr)
    case DUnion(g, l, tr) => MMembers(inp, MHead(inp, pos, KwUnion, g), l, tr)
    case DTrait(g, ms) => MMethodBlock(inp, MHead(inp, pos, KwTrait, g), ms)
    case DImpl(g, b, ty, ms) =>
      MMethodBlock(inp, M(inp, MBound(inp, MGens(inp, Expect1(inp, pos, KwImpl), g), b), ty), ms)
    case DMod(inner) =>
      Expect1(inp, MDecls(inp, Expect1(inp, Expect1(inp, Expect1(inp, pos, KwMod), Identifier), LBrace), inner), RBrace)
    case DModFile => Expect1(inp, Expect1(inp, Expect1(inp, pos, KwMod), Identifier), Semi)
    case DUse(n, t) => Expect1(inp, MUsePath(inp, pos, n, t), Semi)
  }

  // Where the form of a declaration begins, behind documentation and visibility.
  function FormAt(inp: Input, pos: int, d: Decl): (r: int)
    ensures r >= 0 ==> 0 <= pos <= r
  {
    var p := MDocs(inp, pos, d.docs, DocCommentTok);
    if d.isPub then Expect1(inp, p, KwPub) else p
  }

  function MDecl(inp: Input, pos: int, d: Decl): (r: int)
    ensures r >= 0 ==> 0 <= pos < r <= |inp.toks|
    decreases d, 2
  {
    MForm(inp, FormAt(inp, pos, d), d.form)
  }

  function MDecls(inp: Input, pos: int, l: Decls): (r: int)
    ensures r >= 0 ==> 0 <= pos <= r && (r == pos || r <= |inp.toks|)
    decreases l, 3
  {
    if l.DNil? then pos else MDecls(inp, MDecl(inp, pos, l.hd), l.tl)
  }

  function MFile(inp: Input, f: FileSyn): int {
    MDecls(inp, MDocs(inp, 0, f.docs, FileDocCommentTok), f.decls)
  }

  /////////////////////////// trees ///////////////////////////

  // The flag bits with the unsafe bit set.
  function WithUnsafe(flags: nat): nat { if flags / UnsafeFlag % 2 == 1 then flags else flags + UnsafeFlag }

  function NameOf(inp: Input, pos: int, reg: bool): Payload {
    NameRegime(TokText(inp, if reg then pos + 1 else pos), RegimeOf(KindAt(inp, pos)))
  }

  // The tree of a part whose tokens begin at `pos`.
  function AstPart(inp: Input, pos: nat, p: Part): Tree
    decreases p, 1
  {
    var a, z := StartOf(inp, pos), EndOf(inp, MPart(inp, pos, p) - 1);
    match p
    case Member(reg, ty) =>
      Node(StructField, a, z, NameOf(inp, pos, reg), [Ast(inp, (if reg then pos + 1 else pos) + 2, ty)])
    case TypedParam(reg, ty) =>
      Node(Param, a, z, NameOf(inp, pos, reg), [Ast(inp, (if reg then pos + 1 else pos) + 2, ty)])
    case SelfParam(reg) =>
      Node(Param, a, z, NameOf(inp, pos, reg),
           [Leaf(NamedType, TokenAt(inp, if reg then pos + 1 else pos).span, Name("Self"))])
    case FreeGeneric => Node(GenericParam, a, z, Name(TokText(inp, pos)), [NullTree])
    case BoundGeneric(ty) => Node(GenericParam, a, z, Name(TokText(inp, pos)), [Ast(inp, pos + 2, ty)])
    case UnitVariant => Node(EnumVariantUnit, a, z, NameRegime(TokText(inp, pos), NoRegime), [])
    case ValueVariant(v) => Node(EnumVariantUnit, a, z, NameRegime(TokText(inp, pos), NoRegime), [Ast(inp, pos + 2, v)])
    case TupleVariant(types, _) =>
      Node(EnumVariantTuple, a, z, NameRegime(TokText(inp, pos), NoRegime), AstItems(inp, pos + 2, types))
    case StructVariant(fs, _) =>
      Node(EnumVariantStruct, a, z, NameRegime(TokText(inp, pos), NoRegime), AstParts(inp, pos + 2, fs))
  }

  function AstParts(inp: Input, pos: nat, l: Parts): seq<Tree>
    decreases l, 0
  {
    if l.PNil? then [] else [AstPart(inp, pos, l.hd)] + AstMoreParts(inp, MPart(inp, pos, l.hd), l.tl)
  }

  function AstMoreParts(inp: Input, pos: int, l: Parts): seq<Tree>
    decreases l, 0
  {
    if l.PNil? || pos < 0 then []
    else [AstPart(inp, pos + 1, l.hd)] + AstMoreParts(inp, MPart(inp, pos + 1, l.hd), l.tl)
  }

  function AstGens(inp: Input, pos: nat, g: Gens): seq<Tree> {
    if g.NoGens? then []
    else [Node(GenericParamList, StartOf(inp, pos), EndOf(inp, MGens(inp, pos, g) - 1), Zero,
               AstParts(inp, pos + 1, g.items))]
  }

  function AstParams(inp: Input, pos: nat, l: Parts): Tree {
    Node(ParamList, StartOf(inp, pos), EndOf(inp, MParams(inp, pos, l) - 1), Zero, AstParts(inp, pos + 1, l))
  }

  // The parameter list, and the return type if there is one.
  function AstSignature(inp: Input, pos: nat, l: Parts, ret: Syn): seq<Tree> {
    [AstParams(inp, pos, l)] + if ret.Absent? then [] else [Ast(inp, MParams(inp, pos, l) + 1, ret)]
  }

  function AstFn(inp: Input, pos: nat, f: FnSyn, flags: nat, docs: seq<Tree>): Tree {
    var n := MFnName(inp, pos, f);
    if n < 0 then NullTree else
    var g := MGens(inp, n + 1, f.gens);
    if g < 0 then NullTree else
    var b := MReturn(inp, MParams(inp, g, f.params), f.ret);
    Tree(FnDecl, Span(StartOf(inp, pos), EndOf(inp, MFn(inp, pos, f) - 1)),
         NameRegime(TokText(inp, n), RegimeOf(KindAt(inp, if f.isUnsafe then pos + 2 else pos + 1))),
         if f.isUnsafe then WithUnsafe(flags) else flags,
         docs + AstGens(inp, n + 1, f.gens) + AstSignature(inp, g, f.params, f.ret) + [Ast(inp, b, f.body)])
  }

  function AstDocs(inp: Input, pos: nat, n: nat, node: NodeKind): seq<Tree>
    decreases n
  {
    if n == 0 then []
    else [Leaf(node, TokenAt(inp, pos).span, Name(TokText(inp, pos)))] + AstDocs(inp, pos + 1, n - 1, node)
  }

  function AstMethods(inp: Input, pos: int, l: MethodList): seq<Tree>
    decreases l
  {
    if l.MNil? || pos < 0 then [] else
    var p := pos + l.docs;
    [AstFn(inp, p, l.fn, 0, AstDocs(inp, pos, l.docs, DocComment))] + AstMethods(inp, MFn(inp, p, l.fn), l.tl)
  }

  // A named declaration with generic parameters and what stands between its braces.
  function AstNamed(inp: Input, pos: nat, z: int, kind: NodeKind, g: Gens, flags: nat, docs: seq<Tree>,
                    inner: seq<Tree>): Tree {
    Tree(kind, Span(StartOf(inp, pos), EndOf(inp, z - 1)), Name(TokText(inp, pos + 1)), flags,
         docs + AstGens(inp, pos + 2, g) + inner)
  }

  function AstForm(inp: Input, pos: nat, d: DeclForm, flags: nat, docs: seq<Tree>): Tree
    decreases d, 1
  {
    var z := MForm(inp, pos, d);
    var span := Span(StartOf(inp, pos), EndOf(inp, z - 1));
    match d
    case DFn(u, f) => if u then AstFn(inp, pos + 1, f, WithUnsafe(flags), docs) else AstFn(inp, pos, f, flags, docs)
    case DConst(ty, v) =>
      var t, u := Ast(inp, pos + 3, ty), Ast(inp, M(inp, pos + 3, ty) + 1, v);
      Tree(ConstDecl, span, Name(TokText(inp, pos + 1)), flags, docs + [t, u])
    case DStruct(g, l, _) =>
      AstNamed(inp, pos, z, StructDecl, g, flags, docs, AstMembers(inp, MGens(inp, pos + 2, g), l))
    case DEnum(g, l, _) => AstNamed(inp, pos, z, EnumDecl, g, flags, docs, AstMembers(inp, MGens(inp, pos + 2, g), l))
    case DUnion(g, l, _) => AstNamed(inp, pos, z, UnionDecl, g, flags, docs, AstMembers(inp, MGens(inp, pos + 2, g), l))
    case DTrait(g, ms) =>
      AstNamed(inp, pos, z, TraitDecl, g, flags, docs, AstMethods(inp, MGens(inp, pos + 2, g) + 1, ms))
    case DImpl(g, b, ty, ms) =>
      var p := MGens(inp, pos + 1, g);
      var q := MBound(inp, p, b);
      Tree(ImplDecl, span, Zero, flags,
           docs + AstGens(inp, pos + 1, g) + [Ast(inp, p, b), Ast(inp, q, ty)] + AstMethods(inp, M(inp, q, ty) + 1, ms))
    case DMod(inner) => Tree(ModDecl, span, Name(TokText(inp, pos + 1)), flags, docs + AstDecls(inp, pos + 3, inner))
    case DModFile => Tree(ModDeclFile, span, Name(TokText(inp, pos + 1)), flags, docs)
    case DUse(n, t) =>
      var end := EndOf(inp, MUsePath(inp, pos, n, t) - 1);
      Tree(UseDecl, Span(StartOf(inp, pos), end), Name(TextOf(inp.src, Span(StartOf(inp, pos + 1), end))), flags, docs)
  }

  // Members behind the brace at `pos`.
  function AstMembers(inp: Input, pos: int, l: Parts): seq<Tree> { if pos < 0 then [] else AstParts(inp, pos + 1, l) }

  function AstDecl(inp: Input, pos: nat, d: Decl): Tree
    decreases d, 2
  {
    var p := FormAt(inp, pos, d);
    if p < 0 then NullTree
    else AstForm(inp, p, d.form, if d.isPub then PubFlag else 0, AstDocs(inp, pos, d.docs, DocComment))
  }

  function AstDecls(inp: Input, pos: int, l: Decls): seq<Tree>
    decreases l, 3
  {
    if l.DNil? || pos < 0 then [] else [AstDecl(inp, pos, l.hd)] + AstDecls(inp, MDecl(inp, pos, l.hd), l.tl)
  }

  function AstFile(inp: Input, f: FileSyn): Tree {
    var z := MFile(inp, f);
    Tree(SourceFile, Span(StartOf(inp, 0), EndOf(inp, if z <= 0 then 0 else z - 1)), Zero, 0,
         AstDocs(inp, 0, f.docs, FileDocComment) + AstDecls(inp, f.docs, f.decls))
  }

  /** The tokens, up to the end of the file, spell a well-formed file. */
  ghost predicate DerivesFile(inp: Input, f: FileSyn, end: nat, sl: Switch) {
    MFile(inp, f) == end && WFDecls(f.decls, sl) && KindAt(inp, end) == Eof
  }
}
