/** The layout of the syntax tree: which children and which payload each kind of node has. */
module Layouts {
  import opened Tokens
  import opened Trees

  // What may stand in a child slot. Where a production can fail, an error node may stand too.
  datatype Sort =
    | NExpr | NValue | NBlock | NElse | NArgs | NArm | NStmt
    | NType | NBound | NPat | NFieldPat | NFieldInit
    | NField | NVariant | NParam | NParams | NGeneric | NGenerics
    | NDoc | NFileDoc | NDecl | NMethod | NSignature | NBody

  predicate IsExprKind(k: NodeKind) {
    k == WhileStmt || UnsafeBlock <= k <= MatchExpr || (BinaryExpr <= k <= PropagateExpr && k != FieldInit)
  }

  predicate IsTypeKind(k: NodeKind) { NamedType <= k <= TupleType }

  predicate IsPatKind(k: NodeKind) { WildcardPat <= k <= TuplePat }

  predicate IsStmtKind(k: NodeKind) {
    k == LetStmt || k == RetStmt || k == ForStmt || k == BreakStmt || k == ContinueStmt
  }

  // A function with a body or without one.
  predicate HasBody(t: Tree) { t.Tree? && |t.kids| > 0 && t.kids[|t.kids| - 1].Tree? }

  predicate KindFits(s: Sort, k: NodeKind) {
    match s
    case NExpr => IsExprKind(k) || k == Error
    case NValue => IsExprKind(k)
    case NBlock => k == BlockExpr
    case NElse => k == BlockExpr || k == IfExpr
    case NArgs => k == ArgList
    case NArm => k == MatchArm
    case NStmt => IsExprKind(k) || IsStmtKind(k) || k == Error
    case NType => IsTypeKind(k) || k == Error
    case NBound => IsTypeKind(k) || k == Error
    case NPat => IsPatKind(k) || k == Error
    case NFieldPat => k == FieldPat || k == Error
    case NFieldInit => k == FieldInit || k == Error
    case NField => k == StructField || k == Error
    case NVariant => EnumVariantUnit <= k <= EnumVariantStruct || k == Error
    case NParam => k == Param
    case NParams => k == ParamList
    case NGeneric => k == GenericParam || k == Error
    case NGenerics => k == GenericParamList
    case NDoc => k == DocComment
    case NFileDoc => k == FileDocComment
    case NDecl => FnDecl <= k <= ImplDecl || k == Error
    case NMethod => k == FnDecl
    case NSignature => k == FnDecl
    case NBody => k == BlockExpr
  }

  // Functions have a body, except in a trait.
  predicate BodyFits(s: Sort, t: Tree) {
    t.Tree? && t.kind == FnDecl ==> (s.NDecl? || s.NMethod? ==> HasBody(t)) && (s.NSignature? ==> !HasBody(t))
  }

  // Tree `t` may stand where a node of sort `s` is called for.
  predicate Of(s: Sort, t: Tree) {
    if t.NullTree? then s.NBound? else KindFits(s, t.kind) && BodyFits(s, t)
  }

  // A node of this kind is of sort `s` whatever it holds.
  predicate Always(s: Sort, k: NodeKind) { KindFits(s, k) && k != FnDecl }

  lemma AlwaysOf(s: Sort, t: Tree)
    requires t.Tree? && Always(s, t.kind)
    ensures Of(s, t)
  {
  }

  lemma ErrorOf(s: Sort, t: Tree)
    requires t.Tree? && t.kind == Error && KindFits(s, Error)
    ensures Of(s, t)
  {
  }

  lemma ValueOf(t: Tree)
    requires Of(NExpr, t) && t.Tree? && t.kind != Error
    ensures Of(NValue, t)
  {
  }

  datatype Item = One(s: Sort) | Opt(s: Sort) | Many(s: Sort)
  datatype Items = End | Then(hd: Item, tl: Items)

  function Only(i: Item): Items { Then(i, End) }
  function Two(i: Item, j: Item): Items { Then(i, Then(j, End)) }
  function Three(i: Item, j: Item, k: Item): Items { Then(i, Then(j, Then(k, End))) }
  function Documented(l: Items): Items { Then(Many(NDoc), l) }

  // The children of a node, in order. Null stands only in an `NBound` slot, or as the last child of
  // a function without a body.
  predicate Matches(l: Items, kids: seq<Tree>)
    decreases l, |kids|
  {
    match l
    case End => kids == []
    case Then(One(s), r) => kids != [] && Of(s, kids[0]) && Matches(r, kids[1..])
    case Then(Opt(s), r) => (kids != [] && Of(s, kids[0]) && Matches(r, kids[1..])) || Matches(r, kids)
    case Then(Many(s), r) => (kids != [] && Of(s, kids[0]) && Matches(l, kids[1..])) || Matches(r, kids)
  }

  function Layout(k: NodeKind): Items {
    if BinaryExpr <= k <= PropagateExpr then ExprLayout(k)
    else if FnDecl <= k <= GenericParamList then DeclLayout(k)
    else if LetStmt <= k <= MatchArm then StmtLayout(k)
    else if k == SourceFile then Two(Many(NFileDoc), Many(NDecl))
    else if k == ArgList then Only(Many(NExpr))
    else if k == ArrayType then Two(One(NType), One(NExpr))
    else if k == TensorType then Two(One(NType), Many(NExpr))
    else if k == TupleType then Only(Many(NType))
    else if k == StructPat then Only(Many(NFieldPat))
    else if k == TuplePat then Only(Many(NPat))
    else if k == FieldPat then Only(Opt(NPat))
    else End
  }

  function ExprLayout(k: NodeKind): Items {
    if k == BinaryExpr then Two(One(NExpr), One(NValue))
    else if k == CastExpr then Two(One(NExpr), One(NType))
    else if k == ProjAssignExpr || k == IndexExpr || k == ArrayRepeatExpr then Two(One(NExpr), One(NExpr))
    else if k == CallExpr then Two(One(NExpr), One(NArgs))
    else if k == TensorIndexExpr then Then(One(NExpr), Three(One(NExpr), One(NExpr), Many(NExpr)))
    else if k == StructLitExpr then Only(Many(NFieldInit))
    else if k == ArrayLitExpr || k == TupleExpr then Only(Many(NExpr))
    else if k == TensorLitExpr then Two(One(NExpr), Many(NExpr))
    else if k == IdentExpr || k == PathExpr || k == LitExpr then End
    else Only(One(NExpr))
  }

  function StmtLayout(k: NodeKind): Items {
    if k == LetStmt then Two(Opt(NType), Opt(NExpr))
    else if k == RetStmt then Only(One(NExpr))
    else if k == ForStmt || k == WhileStmt then Two(One(NExpr), One(NBlock))
    else if k == UnsafeBlock || k == BlockExpr then Only(Many(NStmt))
    else if k == IfExpr then Three(One(NExpr), One(NBlock), Opt(NElse))
    else if k == MatchExpr then Two(One(NExpr), Many(NArm))
    else if k == MatchArm then Two(One(NPat), One(NExpr))
    else End
  }

  function DeclLayout(k: NodeKind): Items {
    if k == StructDecl || k == UnionDecl then Documented(Two(Opt(NGenerics), Many(NField)))
    else if k == EnumDecl then Documented(Two(Opt(NGenerics), Many(NVariant)))
    else if k == ModDecl then Documented(Only(Many(NDecl)))
    else if k == ModDeclFile || k == UseDecl then Documented(End)
    else if k == ConstDecl then Documented(Two(One(NType), One(NExpr)))
    else if k == TraitDecl then Documented(Two(Opt(NGenerics), Many(NSignature)))
    else if k == ImplDecl then Documented(Then(Opt(NGenerics), Three(One(NBound), One(NType), Many(NMethod))))
    else if k == StructField || k == Param then Only(One(NType))
    else if k == GenericParam then Only(One(NBound))
    else if k == EnumVariantUnit then Only(Opt(NExpr))
    else if k == EnumVariantTuple then Only(Many(NType))
    else if k == EnumVariantStruct then Only(Many(NField))
    else if k == ParamList then Only(Many(NParam))
    else if k == GenericParamList then Only(Many(NGeneric))
    else SignatureLayout(One(NBody))
  }

  function SignatureLayout(body: Item): Items {
    Documented(Then(Opt(NGenerics), Three(One(NParams), Opt(NType), body)))
  }

  // The common layouts.
  predicate ManyOf(k: NodeKind, s: Sort) { Layout(k) == Only(Many(s)) }
  predicate OneOf(k: NodeKind, s: Sort) { Layout(k) == Only(One(s)) || Layout(k) == Only(Opt(s)) }
  predicate MembersOf(k: NodeKind, s: Sort) { Layout(k) == Documented(Two(Opt(NGenerics), Many(s))) }
  predicate DocsOf(k: NodeKind) { Layout(k) == Documented(End) }
  predicate ModuleOf(k: NodeKind, doc: Sort) { Layout(k) == Two(Many(doc), Many(NDecl)) }
  predicate PairOf(k: NodeKind, s: Sort, t: Sort) { Layout(k) == Two(One(s), One(t)) }
  predicate HeadOf(k: NodeKind, s: Sort, t: Sort) { Layout(k) == Two(One(s), Many(t)) }
  predicate MayBeLeaf(k: NodeKind) { Layout(k) == End || (Layout(k).tl == End && !Layout(k).hd.One?) || k == LetStmt }

  // A node of kind `k` with payload `p` is of sort `o`, whatever it holds, and holds children of the
  // sorts given.
  predicate Fits(k: NodeKind, p: Payload, o: Sort) {
    k != Error && k != StructLitExpr && PayloadFits(k, p) && Always(o, k)
  }
  predicate FitsLeaf(k: NodeKind, p: Payload, o: Sort) { Fits(k, p, o) && MayBeLeaf(k) }
  predicate FitsOne(k: NodeKind, p: Payload, o: Sort, s: Sort) { Fits(k, p, o) && OneOf(k, s) }
  predicate FitsTwo(k: NodeKind, p: Payload, o: Sort, s: Sort, t: Sort) { Fits(k, p, o) && PairOf(k, s, t) }
  predicate FitsHead(k: NodeKind, p: Payload, o: Sort, s: Sort, t: Sort) {
    Fits(k, p, o) && HeadOf(k, s, t) && k != TensorLitExpr
  }

  lemma ParamFits(text: string, r: Regime)
    ensures FitsOne(Param, NameRegime(text, r), NParam, NType) && FitsLeaf(NamedType, Name("Self"), NType)
    ensures FitsOne(StructField, NameRegime(text, r), NField, NType)
    ensures FitsOne(GenericParam, Name(text), NGeneric, NBound)
  {
  }

  lemma FieldPatFits(text: string)
    ensures FitsOne(FieldPat, Name(text), NFieldPat, NPat) && FitsLeaf(FieldPat, Name(text), NFieldPat)
  {
  }

  lemma FieldFits(text: string)
    ensures FitsOne(FieldInit, Name(text), NFieldInit, NExpr) && FitsLeaf(IdentExpr, Name(text), NExpr)
  {
  }

  lemma ArmFits()
    ensures FitsTwo(MatchArm, Zero, NArm, NPat, NExpr)
  {
  }

  lemma ForFits(text: string, r: Regime)
    ensures FitsTwo(ForStmt, NameRegime(text, r), NStmt, NExpr, NBlock)
  {
  }

  lemma HeadFits()
    ensures FitsHead(TensorType, Zero, NType, NType, NExpr) && FitsHead(MatchExpr, Zero, NExpr, NExpr, NArm)
  {
  }

  lemma BinaryLayout(op: Kind)
    ensures PairOf(BinaryExpr, NExpr, NValue) && PayloadFits(BinaryExpr, Op(op)) && Always(NExpr, BinaryExpr)
  {
  }

  // What the payload word of a node stands for.
  predicate PayloadFits(k: NodeKind, p: Payload) {
    if k == BinaryExpr || k == UnaryExpr then p.Op?
    else if k == TensorLitExpr then p.Count?
    else if k == FnDecl || StructField <= k <= Param || k == LetStmt || k == ForStmt || k == FieldExpr
         || k == LitExpr || k == IdentPat
    then p.NameRegime?
    else if k == TuplePat then p.Name? || p.Zero?
    else if k == DocComment || k == FileDocComment || StructDecl <= k <= TraitDecl || k == GenericParam
         || k == TupleIndexExpr || k == StructLitExpr || FieldInit <= k <= PathExpr || k == NamedType
         || k == LiteralPat || k == StructPat || k == FieldPat
    then p.Name?
    else p.Zero?
  }

  // A tensor literal's payload is the number of its children that are values, in sixteen bits. At
  // least one is; the rest are dimensions.
  predicate Splits(p: Payload, values: nat) { p == Count(values % 0x1_0000) }

  ghost predicate CountFits(k: NodeKind, p: Payload, n: nat) {
    k == TensorLitExpr ==> exists values: nat :: 1 <= values <= n && Splits(p, values)
  }

  /** A node is laid out as its kind says. A function without a body ends in null instead. */
  ghost predicate Shaped(k: NodeKind, p: Payload, kids: seq<Tree>) {
    && PayloadFits(k, p) && CountFits(k, p, |kids|)
    && (Matches(Layout(k), kids)
        || (k == FnDecl && |kids| > 0 && kids[|kids| - 1].NullTree?
            && Matches(Documented(Then(Opt(NGenerics), Two(One(NParams), Opt(NType)))), kids[..|kids| - 1])))
  }

  ghost predicate ShapedTree(t: Tree) { t.Tree? && Shaped(t.kind, t.payload, t.kids) }

  /////////////////////////// building layouts ///////////////////////////

  ghost predicate AllOf(s: Sort, kids: seq<Tree>) { forall j :: 0 <= j < |kids| ==> Of(s, kids[j]) }

  lemma BlockBody(t: Tree)
    requires Of(NBlock, t)
    ensures Of(NBody, t) && t.Tree?
  {
  }

  lemma MethodDecl(t: Tree)
    requires Of(NMethod, t)
    ensures Of(NDecl, t)
  {
  }

  lemma TypeBound(t: Tree)
    requires Of(NType, t)
    ensures Of(NBound, t)
  {
  }

  lemma NullBound()
    ensures Of(NBound, NullTree)
  {
  }

  lemma NoneOf(s: Sort)
    ensures AllOf(s, [])
  {
  }

  lemma AllOfSnoc(s: Sort, xs: seq<Tree>, y: Tree)
    requires AllOf(s, xs) && Of(s, y)
    ensures AllOf(s, xs + [y])
  {
  }

  lemma AllOfCons(s: Sort, x: Tree, ys: seq<Tree>)
    requires Of(s, x) && AllOf(s, ys)
    ensures AllOf(s, [x] + ys)
  {
  }

  lemma MatchOne(s: Sort, x: Tree, r: Items, ys: seq<Tree>)
    requires Of(s, x) && Matches(r, ys)
    ensures Matches(Then(One(s), r), [x] + ys) && Matches(Then(Opt(s), r), [x] + ys)
  {
    assert ([x] + ys)[1..] == ys;
  }

  lemma MatchNone(s: Sort, r: Items, ys: seq<Tree>)
    requires Matches(r, ys)
    ensures Matches(Then(Opt(s), r), ys) && Matches(Then(Many(s), r), ys)
  {
  }

  lemma {:induction false} MatchMany(s: Sort, xs: seq<Tree>, r: Items, ys: seq<Tree>)
    requires AllOf(s, xs) && Matches(r, ys)
    ensures Matches(Then(Many(s), r), xs + ys)
    decreases |xs|
  {
    if xs == [] {
      assert xs + ys == ys;
    } else {
      MatchMany(s, xs[1..], r, ys);
      assert (xs + ys)[1..] == xs[1..] + ys;
    }
  }

  // Several children of one sort.
  lemma ShapeMany(k: NodeKind, p: Payload, s: Sort, kids: seq<Tree>)
    requires PayloadFits(k, p) && ManyOf(k, s) && AllOf(s, kids)
    ensures Shaped(k, p, kids)
  {
    MatchMany(s, kids, End, []);
    assert kids + [] == kids;
  }

  lemma ShapeOne(k: NodeKind, p: Payload, s: Sort, x: Tree)
    requires PayloadFits(k, p) && OneOf(k, s) && Of(s, x)
    ensures Shaped(k, p, [x])
  {
    MatchOne(s, x, End, []);
    assert [x] + [] == [x];
  }

  lemma ShapeTwo(k: NodeKind, p: Payload, s: Sort, x: Tree, t: Sort, y: Tree)
    requires PayloadFits(k, p) && PairOf(k, s, t) && Of(s, x) && Of(t, y)
    ensures Shaped(k, p, [x, y])
  {
    MatchOne(t, y, End, []);
    MatchOne(s, x, Only(One(t)), [y] + []);
    assert [x] + ([y] + []) == [x, y];
  }

  lemma ShapeHead(k: NodeKind, p: Payload, s: Sort, x: Tree, t: Sort, ys: seq<Tree>)
    requires PayloadFits(k, p) && CountFits(k, p, 1 + |ys|) && HeadOf(k, s, t) && Of(s, x) && AllOf(t, ys)
    ensures Shaped(k, p, [x] + ys)
  {
    MatchMany(t, ys, End, []);
    assert ys + [] == ys;
    MatchOne(s, x, Only(Many(t)), ys);
  }

  lemma ShapeNone(k: NodeKind, p: Payload)
    requires PayloadFits(k, p) && MayBeLeaf(k)
    ensures Shaped(k, p, [])
  {
  }

  lemma ShapeIf(kids: seq<Tree>)
    requires |kids| == 2 || (|kids| == 3 && Of(NElse, kids[2]))
    requires Of(NExpr, kids[0]) && Of(NBlock, kids[1])
    ensures Shaped(IfExpr, Zero, kids)
  {
    if |kids| == 2 {
      MatchNone(NElse, End, []);
      MatchOne(NBlock, kids[1], Only(Opt(NElse)), []);
      MatchOne(NExpr, kids[0], Two(One(NBlock), Opt(NElse)), [kids[1]] + []);
      assert kids == [kids[0]] + ([kids[1]] + []);
    } else {
      MatchOne(NElse, kids[2], End, []);
      MatchOne(NBlock, kids[1], Only(Opt(NElse)), [kids[2]] + []);
      MatchOne(NExpr, kids[0], Two(One(NBlock), Opt(NElse)), [kids[1]] + ([kids[2]] + []));
      assert kids == [kids[0]] + ([kids[1]] + ([kids[2]] + []));
    }
  }

  lemma ShapeLet(p: Payload, ty: seq<Tree>, init: seq<Tree>)
    requires p.NameRegime? && |ty| <= 1 && |init| <= 1 && AllOf(NType, ty) && AllOf(NExpr, init)
    ensures Shaped(LetStmt, p, ty + init)
  {
    MatchOpt(NExpr, init, End, []);
    MatchOpt(NType, ty, Only(Opt(NExpr)), init + []);
    assert ty + (init + []) == ty + init;
  }

  lemma MatchOpt(s: Sort, xs: seq<Tree>, r: Items, ys: seq<Tree>)
    requires |xs| <= 1 && AllOf(s, xs) && Matches(r, ys)
    ensures Matches(Then(Opt(s), r), xs + ys)
  {
    if xs == [] {
      assert xs + ys == ys;
      MatchNone(s, r, ys);
    } else {
      MatchOne(s, xs[0], r, ys);
      assert xs == [xs[0]];
    }
  }

  lemma ShapeTensorIndex(x: Tree, ys: seq<Tree>)
    requires Of(NExpr, x) && AllOf(NExpr, ys) && |ys| >= 2
    ensures Shaped(TensorIndexExpr, Zero, [x] + ys)
  {
    MatchMany(NExpr, ys[2..], End, []);
    MatchOne(NExpr, ys[1], Only(Many(NExpr)), ys[2..] + []);
    MatchOne(NExpr, ys[0], Two(One(NExpr), Many(NExpr)), [ys[1]] + (ys[2..] + []));
    MatchOne(NExpr, x, Three(One(NExpr), One(NExpr), Many(NExpr)), [ys[0]] + ([ys[1]] + (ys[2..] + [])));
    assert [ys[0]] + ([ys[1]] + (ys[2..] + [])) == ys;
  }

  // Documentation, optional generics, then members of one sort.
  lemma ShapeMembers(k: NodeKind, p: Payload, docs: seq<Tree>, gens: seq<Tree>, s: Sort, members: seq<Tree>)
    requires PayloadFits(k, p) && MembersOf(k, s)
    requires AllOf(NDoc, docs) && |gens| <= 1 && AllOf(NGenerics, gens) && AllOf(s, members)
    ensures Shaped(k, p, docs + gens + members)
  {
    MatchMany(s, members, End, []);
    assert members + [] == members;
    MatchOpt(NGenerics, gens, Only(Many(s)), members);
    MatchMany(NDoc, docs, Two(Opt(NGenerics), Many(s)), gens + members);
    assert docs + (gens + members) == docs + gens + members;
  }

  lemma ShapeDocs(k: NodeKind, p: Payload, docs: seq<Tree>)
    requires PayloadFits(k, p) && DocsOf(k) && AllOf(NDoc, docs)
    ensures Shaped(k, p, docs)
  {
    MatchMany(NDoc, docs, End, []);
    assert docs + [] == docs;
  }

  lemma ShapeModule(k: NodeKind, p: Payload, doc: Sort, docs: seq<Tree>, decls: seq<Tree>)
    requires PayloadFits(k, p) && ModuleOf(k, doc) && AllOf(doc, docs) && AllOf(NDecl, decls)
    ensures Shaped(k, p, docs + decls)
  {
    MatchMany(NDecl, decls, End, []);
    assert decls + [] == decls;
    MatchMany(doc, docs, Only(Many(NDecl)), decls);
  }

  lemma ShapeConst(p: Payload, docs: seq<Tree>, ty: Tree, val: Tree)
    requires p.Name? && AllOf(NDoc, docs) && Of(NType, ty) && Of(NExpr, val)
    ensures Shaped(ConstDecl, p, docs + [ty, val])
  {
    MatchOne(NExpr, val, End, []);
    MatchOne(NType, ty, Only(One(NExpr)), [val] + []);
    assert [ty] + ([val] + []) == [ty, val];
    MatchMany(NDoc, docs, Two(One(NType), One(NExpr)), [ty, val]);
  }

  lemma ShapeImpl(docs: seq<Tree>, gens: seq<Tree>, bound: Tree, ty: Tree, methods: seq<Tree>)
    requires AllOf(NDoc, docs) && |gens| <= 1 && AllOf(NGenerics, gens)
    requires Of(NBound, bound) && Of(NType, ty) && AllOf(NMethod, methods)
    ensures Shaped(ImplDecl, Zero, docs + gens + [bound, ty] + methods)
  {
    MatchMany(NMethod, methods, End, []);
    MatchOne(NType, ty, Only(Many(NMethod)), methods + []);
    MatchOne(NBound, bound, Two(One(NType), Many(NMethod)), [ty] + (methods + []));
    MatchOpt(NGenerics, gens, Three(One(NBound), One(NType), Many(NMethod)), [bound] + ([ty] + (methods + [])));
    MatchMany(NDoc, docs, Then(Opt(NGenerics), Three(One(NBound), One(NType), Many(NMethod))),
              gens + ([bound] + ([ty] + (methods + []))));
    assert docs + (gens + ([bound] + ([ty] + (methods + [])))) == docs + gens + [bound, ty] + methods;
  }

  lemma ShapeFn(p: Payload, docs: seq<Tree>, gens: seq<Tree>, params: Tree, ret: seq<Tree>, body: Tree)
    requires p.NameRegime? && AllOf(NDoc, docs) && |gens| <= 1 && AllOf(NGenerics, gens)
    requires Of(NParams, params) && |ret| <= 1 && AllOf(NType, ret) && (body.NullTree? || Of(NBody, body))
    ensures Shaped(FnDecl, p, docs + gens + [params] + ret + [body])
  {
    var kids := docs + gens + [params] + ret + [body];
    if body.NullTree? {
      MatchSignature(docs, gens, params, ret, End, []);
      assert docs + gens + [params] + ret + [] == kids[..|kids| - 1];
    } else {
      MatchOne(NBody, body, End, []);
      assert [body] + [] == [body];
      MatchSignature(docs, gens, params, ret, Only(One(NBody)), [body]);
    }
  }

  lemma MatchSignature(docs: seq<Tree>, gens: seq<Tree>, params: Tree, ret: seq<Tree>, l: Items, tail: seq<Tree>)
    requires AllOf(NDoc, docs) && |gens| <= 1 && AllOf(NGenerics, gens)
    requires Of(NParams, params) && |ret| <= 1 && AllOf(NType, ret) && Matches(l, tail)
    ensures Matches(Documented(Then(Opt(NGenerics), Then(One(NParams), Then(Opt(NType), l)))),
                    docs + gens + [params] + ret + tail)
  {
    hide Of, Matches;
    MatchOpt(NType, ret, l, tail);
    MatchOne(NParams, params, Then(Opt(NType), l), ret + tail);
    MatchOpt(NGenerics, gens, Then(One(NParams), Then(Opt(NType), l)), [params] + (ret + tail));
    MatchMany(NDoc, docs, Then(Opt(NGenerics), Then(One(NParams), Then(Opt(NType), l))),
              gens + ([params] + (ret + tail)));
    assert docs + (gens + ([params] + (ret + tail))) == docs + gens + [params] + ret + tail;
  }
}
