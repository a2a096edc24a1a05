/** Declarations on runs that record no diagnostic: what the parser finds from a position on, and that
    its tokens spell it. */
module DeclRuns {
  import opened Tokens
  import opened Trees
  import opened Grammar
  import opened Spelling
  import opened ErrorFree
  import opened Soundness
  import opened DeclGrammar

  datatype Run<S> = Stuck | Done(syn: S, end: nat)

  datatype PartList = PartList(items: Parts, trail: Switch)

  function AfterRegime(inp: Input, pos: nat): nat { if IsRegime(KindAt(inp, pos)) then pos + 1 else pos }

  // Something that ends behind one more token.
  function EndsWith<S>(inp: Input, q: nat, k: Kind, s: S): (r: Run<S>)
    ensures r.Done? ==> r.end == q + 1 <= |inp.toks| && r.syn == s && KindAt(inp, q) == k
  {
    if KindAt(inp, q) == k && k != Eof then Done(s, q + 1) else Stuck
  }

  /////////////////////////// parts and their lists ///////////////////////////

  function RunMember(inp: Input, pos: nat, sl: Switch): (r: Run<Part>)
    ensures r.Done? ==> pos < r.end <= |inp.toks|
  {
    var n := AfterRegime(inp, pos);
    if KindAt(inp, n) != Identifier || KindAt(inp, n + 1) != Colon then Stuck else
    match RunType(inp, n + 2, sl)
    case Fail => Stuck
    case Ok(t, z) => Done(Member(n > pos, t), z)
  }

  // `self` without a type.
  predicate IsSelfParam(inp: Input, n: nat) {
    TokText(inp, n) == "self" && (KindAt(inp, n + 1) == RParen || KindAt(inp, n + 1) == Comma)
  }

  function RunParam(inp: Input, pos: nat, sl: Switch): (r: Run<Part>)
    ensures r.Done? ==> pos < r.end <= |inp.toks|
  {
    var n := AfterRegime(inp, pos);
    if KindAt(inp, n) != Identifier then Stuck
    else if IsSelfParam(inp, n) then Done(SelfParam(n > pos), n + 1)
    else if KindAt(inp, n + 1) != Colon then Stuck
    else match RunType(inp, n + 2, sl)
      case Fail => Stuck
      case Ok(t, z) => Done(TypedParam(n > pos, t), z)
  }

  function RunGeneric(inp: Input, pos: nat, sl: Switch): (r: Run<Part>)
    ensures r.Done? ==> pos < r.end <= |inp.toks|
  {
    if KindAt(inp, pos) != Identifier then Stuck
    else if KindAt(inp, pos + 1) != Colon then Done(FreeGeneric, pos + 1)
    else match RunType(inp, pos + 2, sl)
      case Fail => Stuck
      case Ok(t, z) => Done(BoundGeneric(t), z)
  }

  function RunVariant(inp: Input, pos: nat, sl: Switch): (r: Run<Part>)
    ensures r.Done? ==> pos < r.end <= |inp.toks|
    decreases |inp.toks| - pos, 0
  {
    if KindAt(inp, pos) != Identifier then Stuck
    else if KindAt(inp, pos + 1) == LParen then
      (match RunComma(inp, pos + 2, LTypes, sl)
       case LFail => Stuck
       case LOk(l, tr, z) => EndsWith(inp, z, RParen, TupleVariant(l, tr)))
    else if KindAt(inp, pos + 1) == LBrace then
      (match RunParts(inp, pos + 2, DField, sl)
       case Stuck => Stuck
       case Done(l, z) => EndsWith(inp, z, RBrace, StructVariant(l.items, l.trail)))
    else if KindAt(inp, pos + 1) == Eq then
      (match RunExpr(inp, pos + 2, 0, sl)
       case Fail => Stuck
       case Ok(v, z) => Done(ValueVariant(v), z))
    else Done(UnitVariant, pos + 1)
  }

  function RunPart(inp: Input, pos: nat, e: DeclItem, sl: Switch): (r: Run<Part>)
    ensures r.Done? ==> pos < r.end <= |inp.toks|
    decreases |inp.toks| - pos, 1
  {
    match e
    case DField => RunMember(inp, pos, sl)
    case DVariant => RunVariant(inp, pos, sl)
    case DGeneric => RunGeneric(inp, pos, sl)
    case DParam => RunParam(inp, pos, sl)
  }

  function RunParts(inp: Input, pos: nat, e: DeclItem, sl: Switch): (r: Run<PartList>)
    ensures r.Done? ==> pos <= r.end && (r.end == pos || r.end <= |inp.toks|)
    decreases |inp.toks| - pos, 2
  {
    if KindAt(inp, pos) == Closer(e) || KindAt(inp, pos) == Eof then Done(PartList(PNil, Off), pos) else
    match RunPart(inp, pos, e, sl)
    case Stuck => Stuck
    case Done(h, q) => Push(h, RunMoreParts(inp, q, e, sl))
  }

  // The parts behind the first. A trailing comma is accepted except behind a parameter.
  function RunMoreParts(inp: Input, pos: nat, e: DeclItem, sl: Switch): (r: Run<PartList>)
    ensures r.Done? ==> pos <= r.end && (r.end == pos || r.end <= |inp.toks|)
    decreases |inp.toks| - pos, 0
  {
    if KindAt(inp, pos) != Comma then Done(PartList(PNil, Off), pos)
    else if !e.DParam? && KindAt(inp, pos + 1) == Closer(e) then Done(PartList(PNil, On), pos + 1)
    else match RunPart(inp, pos + 1, e, sl)
      case Stuck => Stuck
      case Done(h, q) => Push(h, RunMoreParts(inp, q, e, sl))
  }

  function Push(h: Part, r: Run<PartList>): (p: Run<PartList>)
    ensures p.Done? == r.Done? && (r.Done? ==> p.end == r.end)
  {
    if r.Stuck? then Stuck else Done(PartList(PCons(h, r.syn.items), r.syn.trail), r.end)
  }

  /////////////////////////// functions and constants ///////////////////////////

  function RunGens(inp: Input, pos: nat, sl: Switch): (r: Run<Gens>)
    ensures r.Done? ==> pos <= r.end && (r.end == pos || r.end <= |inp.toks|)
  {
    if KindAt(inp, pos) != Less then Done(NoGens, pos) else
    match RunParts(inp, pos + 1, DGeneric, sl)
    case Stuck => Stuck
    case Done(l, z) => EndsWith(inp, z, Greater, Gens(l.items, l.trail))
  }

  function RunParams(inp: Input, pos: nat, sl: Switch): (r: Run<PartList>)
    ensures r.Done? ==> pos < r.end <= |inp.toks|
  {
    if KindAt(inp, pos) != LParen then Stuck else
    match RunParts(inp, pos + 1, DParam, sl)
    case Stuck => Stuck
    case Done(l, z) => EndsWith(inp, z, RParen, l)
  }

  // The return type behind a parameter list, absent if there is none.
  function RunReturn(inp: Input, pos: nat, sl: Switch): (r: Run<Syn>)
    ensures r.Done? ==> pos <= r.end && (r.end == pos || r.end <= |inp.toks|)
  {
    if KindAt(inp, pos) == Arrow then Stuck
    else if KindAt(inp, pos) != Colon then Done(Absent, pos)
    else OfRes(RunType(inp, pos + 1, sl))
  }

  function OfRes(r: Res): Run<Syn> { if r.Fail? then Stuck else Done(r.syn, r.end) }

  // A body, or the semicolon in its place.
  function RunBody(inp: Input, pos: nat, body: Switch, sl: Switch): (r: Run<Syn>)
    ensures r.Done? ==> pos < r.end <= |inp.toks|
  {
    if body.On? then OfRes(RunBlock(inp, pos, sl)) else EndsWith(inp, pos, Semi, Absent)
  }

  function FnAt(inp: Input, pos: nat): nat { if KindAt(inp, pos) == KwUnsafe then pos + 1 else pos }

  function FnName(inp: Input, pos: nat): nat { AfterRegime(inp, FnAt(inp, pos) + 1) }

  predicate IsFnHead(inp: Input, pos: nat) {
    KindAt(inp, FnAt(inp, pos)) == KwFn && KindAt(inp, FnName(inp, pos)) == Identifier
  }

  /** `[unsafe] fn [regime] name [<generics>] (params) [: type]` with a body or a semicolon. */
  function RunFn(inp: Input, pos: nat, body: Switch, sl: Switch): (r: Run<FnSyn>)
    ensures r.Done? ==> pos < r.end <= |inp.toks|
  {
    if !IsFnHead(inp, pos) then Stuck else
    match RunGens(inp, FnName(inp, pos) + 1, sl)
    case Stuck => Stuck
    case Done(g, q) =>
      match RunParams(inp, q, sl)
      case Stuck => Stuck
      case Done(ps, z) =>
        match RunReturn(inp, z, sl)
        case Stuck => Stuck
        case Done(t, y) =>
          match RunBody(inp, y, body, sl)
          case Stuck => Stuck
          case Done(b, x) =>
            Done(FnSyn(FnAt(inp, pos) > pos, FnName(inp, pos) > FnAt(inp, pos) + 1, g, ps.items, t, b), x)
  }

  predicate IsConstHead(inp: Input, pos: nat) {
    KindAt(inp, pos) == KwConst && KindAt(inp, pos + 1) == Identifier && KindAt(inp, pos + 2) == Colon
  }

  /** `const name : type = value ;`. */
  function RunConst(inp: Input, pos: nat, sl: Switch): (r: Run<DeclForm>)
    ensures r.Done? ==> pos < r.end <= |inp.toks|
  {
    if !IsConstHead(inp, pos) then Stuck else
    match RunType(inp, pos + 3, sl)
    case Fail => Stuck
    case Ok(t, q) =>
      if KindAt(inp, q) != Eq then Stuck else
      match RunExpr(inp, q + 1, 0, sl)
      case Fail => Stuck
      case Ok(v, z) => EndsWith(inp, z, Semi, DConst(t, v))
  }

  /////////////////////////// bodies in braces ///////////////////////////

  // Documentation comments from `pos` on.
  function DocCount(inp: Input, pos: nat, k: Kind): (n: nat)
    requires k != Eof
    ensures (n == 0 || pos + n <= |inp.toks|) && KindAt(inp, pos + n) != k
    decreases |inp.toks| - pos
  {
    if KindAt(inp, pos) != k then 0 else 1 + DocCount(inp, pos + 1, k)
  }

  // Where a method begins behind its documentation.
  function MethodAt(inp: Input, pos: nat): (r: nat)
    ensures pos <= r
  {
    pos + DocCount(inp, pos, DocCommentTok)
  }

  /** The methods of a trait, which have no bodies, or of an implementation, which have. */
  function RunMethods(inp: Input, pos: nat, body: Switch, sl: Switch): (r: Run<MethodList>)
    ensures r.Done? ==> pos <= r.end && (r.end == pos || r.end <= |inp.toks|)
    decreases |inp.toks| - pos
  {
    if KindAt(inp, pos) == RBrace || KindAt(inp, pos) == Eof then Done(MNil, pos) else
    match RunFn(inp, MethodAt(inp, pos), body, sl)
    case Stuck => Stuck
    case Done(f, q) =>
      match RunMethods(inp, q, body, sl)
      case Stuck => Stuck
      case Done(l, z) => Done(MCons(DocCount(inp, pos, DocCommentTok), f, l), z)
  }

  // A name and generic parameters behind a keyword that has been read.
  function RunHead(inp: Input, pos: nat, sl: Switch): (r: Run<Gens>)
    ensures r.Done? ==> pos + 1 < r.end
  {
    if KindAt(inp, pos + 1) != Identifier then Stuck else RunGens(inp, pos + 2, sl)
  }

  // Members or methods between braces.
  function RunMembers(inp: Input, pos: nat, e: DeclItem, sl: Switch): (r: Run<PartList>)
    ensures r.Done? ==> pos < r.end <= |inp.toks|
  {
    if KindAt(inp, pos) != LBrace then Stuck else
    match RunParts(inp, pos + 1, e, sl)
    case Stuck => Stuck
    case Done(l, z) => EndsWith(inp, z, RBrace, l)
  }

  function RunMethodBlock(inp: Input, pos: nat, body: Switch, sl: Switch): (r: Run<MethodList>)
    ensures r.Done? ==> pos < r.end <= |inp.toks|
  {
    if KindAt(inp, pos) != LBrace then Stuck else
    match RunMethods(inp, pos + 1, body, sl)
    case Stuck => Stuck
    case Done(l, z) => EndsWith(inp, z, RBrace, l)
  }

  function RunData(inp: Input, pos: nat, k: Kind, sl: Switch): (r: Run<DeclForm>)
    requires k == KwStruct || k == KwEnum || k == KwUnion
    ensures r.Done? ==> pos < r.end <= |inp.toks|
  {
    match RunHead(inp, pos, sl)
    case Stuck => Stuck
    case Done(g, q) =>
      match RunMembers(inp, q, if k == KwEnum then DVariant else DField, sl)
      case Stuck => Stuck
      case Done(l, z) =>
        if k == KwStruct then Done(DStruct(g, l.items, l.trail), z)
        else if k == KwEnum then Done(DEnum(g, l.items, l.trail), z)
        else Done(DUnion(g, l.items, l.trail), z)
  }

  function RunTrait(inp: Input, pos: nat, sl: Switch): (r: Run<DeclForm>)
    ensures r.Done? ==> pos < r.end <= |inp.toks|
  {
    match RunHead(inp, pos, sl)
    case Stuck => Stuck
    case Done(g, q) =>
      match RunMethodBlock(inp, q, Off, sl)
      case Stuck => Stuck
      case Done(l, z) => Done(DTrait(g, l), z)
  }

  // The trait, or nothing, and the type.
  function RunImplTypes(inp: Input, pos: nat, sl: Switch): (r: Run<(Syn, Syn)>)
    ensures r.Done? ==> pos < r.end <= |inp.toks|
  {
    match RunType(inp, pos, sl)
    case Fail => Stuck
    case Ok(t, q) =>
      if KindAt(inp, q) != KwFor then Done((Absent, t), q) else
      match RunType(inp, q + 1, sl)
      case Fail => Stuck
      case Ok(u, z) => Done((t, u), z)
  }

  function RunImpl(inp: Input, pos: nat, sl: Switch): (r: Run<DeclForm>)
    ensures r.Done? ==> pos < r.end <= |inp.toks|
  {
    match RunGens(inp, pos + 1, sl)
    case Stuck => Stuck
    case Done(g, q) =>
      match RunImplTypes(inp, q, sl)
      case Stuck => Stuck
      case Done(t, z) =>
        match RunMethodBlock(inp, z, On, sl)
        case Stuck => Stuck
        case Done(l, y) => Done(DImpl(g, t.0, t.1, l), y)
  }

  /////////////////////////// imports, modules, files ///////////////////////////

  // The segments of a `use` path behind its first name.
  function SegCount(inp: Input, pos: nat): (n: nat)
    ensures n == 0 || pos + 2 * n <= |inp.toks|
    decreases |inp.toks| - pos
  {
    if KindAt(inp, pos) == ColonColon && KindAt(inp, pos + 1) == Identifier then 1 + SegCount(inp, pos + 2) else 0
  }

  function RunUseTail(inp: Input, q: nat): (r: Run<UseTail>)
    ensures r.Done? ==> q <= r.end && (r.end == q || r.end <= |inp.toks|)
  {
    if KindAt(inp, q) == ColonColon then EndsWith(inp, q + 1, Star, Glob)
    else if KindAt(inp, q) == KwAs then EndsWith(inp, q + 1, Identifier, Alias)
    else Done(Whole, q)
  }

  /** `use path ;`, `use path :: * ;` or `use path as name ;`. */
  function RunUse(inp: Input, pos: nat): (r: Run<DeclForm>)
    ensures r.Done? ==> pos < r.end <= |inp.toks|
  {
    if KindAt(inp, pos + 1) != Identifier then Stuck else
    var n := SegCount(inp, pos + 2);
    match RunUseTail(inp, pos + 2 + 2 * n)
    case Stuck => Stuck
    case Done(t, z) => EndsWith(inp, z, Semi, DUse(n, t))
  }

  function RunMod(inp: Input, pos: nat, sl: Switch): (r: Run<DeclForm>)
    ensures r.Done? ==> pos < r.end <= |inp.toks|
    decreases |inp.toks| - pos, 0
  {
    if KindAt(inp, pos + 1) != Identifier then Stuck
    else if KindAt(inp, pos + 2) == Semi then Done(DModFile, pos + 3)
    else if KindAt(inp, pos + 2) != LBrace then Stuck
    else match RunDecls(inp, pos + 3, On, sl)
      case Stuck => Stuck
      case Done(l, z) => EndsWith(inp, z, RBrace, DMod(l))
  }

  // Any declaration but a function.
  function RunPlain(inp: Input, pos: nat, sl: Switch): (r: Run<DeclForm>)
    ensures r.Done? ==> pos < r.end <= |inp.toks|
    decreases |inp.toks| - pos, 1
  {
    var k := KindAt(inp, pos);
    if k == KwConst then RunConst(inp, pos, sl)
    else if k == KwMod then RunMod(inp, pos, sl)
    else if k == KwStruct || k == KwEnum || k == KwUnion then RunData(inp, pos, k, sl)
    else if k == KwUse then RunUse(inp, pos)
    else if k == KwTrait then RunTrait(inp, pos, sl)
    else if k == KwImpl then RunImpl(inp, pos, sl)
    else Stuck
  }

  function RunForm(inp: Input, pos: nat, sl: Switch): (r: Run<DeclForm>)
    ensures r.Done? ==> pos < r.end <= |inp.toks|
    decreases |inp.toks| - pos, 2
  {
    if KindAt(inp, FnAt(inp, pos)) != KwFn then RunPlain(inp, pos, sl) else
    match RunFn(inp, FnAt(inp, pos), On, sl)
    case Stuck => Stuck
    case Done(f, z) => Done(DFn(FnAt(inp, pos) > pos, f), z)
  }

  // Where the form of a declaration begins, behind documentation and visibility.
  function DeclAt(inp: Input, pos: nat): (r: nat)
    ensures pos <= r
  {
    if KindAt(inp, MethodAt(inp, pos)) == KwPub then MethodAt(inp, pos) + 1 else MethodAt(inp, pos)
  }

  /** A declaration with its documentation and visibility. */
  function RunDecl(inp: Input, pos: nat, sl: Switch): (r: Run<Decl>)
    ensures r.Done? ==> pos < r.end <= |inp.toks|
    decreases |inp.toks| - pos, 3
  {
    match RunForm(inp, DeclAt(inp, pos), sl)
    case Stuck => Stuck
    case Done(d, z) => Done(Decl(DocCount(inp, pos, DocCommentTok), DeclAt(inp, pos) > MethodAt(inp, pos), d), z)
  }

  // Declarations up to the end of the tokens, or up to a closing brace in front of it.
  function RunDecls(inp: Input, pos: nat, inner: Switch, sl: Switch): (r: Run<Decls>)
    ensures r.Done? ==> pos <= r.end && (r.end == pos || r.end <= |inp.toks|)
    decreases |inp.toks| - pos, 4
  {
    if KindAt(inp, pos) == Eof || (inner.On? && KindAt(inp, pos) == RBrace) then Done(DNil, pos) else
    match RunDecl(inp, pos, sl)
    case Stuck => Stuck
    case Done(h, q) =>
      match RunDecls(inp, q, inner, sl)
      case Stuck => Stuck
      case Done(l, z) => Done(DCons(h, l), z)
  }

  /** A source file: its documentation, and declarations to the end. */
  function RunFile(inp: Input, sl: Switch): (r: Run<FileSyn>) {
    var n := DocCount(inp, 0, FileDocCommentTok);
    match RunDecls(inp, n, Off, sl)
    case Stuck => Stuck
    case Done(l, z) => Done(FileSyn(n, l), z)
  }

  /////////////////////////// soundness ///////////////////////////

  lemma TypeSpelled(inp: Input, pos: nat, sl: Switch)
    ensures var r := RunType(inp, pos, sl); r.Ok? ==> IsTy(r.syn, sl) && M(inp, pos, r.syn) == r.end
  {
    hide M, WF, RunType, Follow;
    SoundType(inp, pos, sl);
  }

  lemma ExprSpelled(inp: Input, pos: nat, sl: Switch)
    ensures var r := RunExpr(inp, pos, 0, sl); r.Ok? ==> IsEx(r.syn, sl) && M(inp, pos, r.syn) == r.end
  {
    hide M, WF, RunExpr, Follow, LeftOk;
    SoundExpr(inp, pos, 0, sl);
  }

  lemma BlockSpelled(inp: Input, pos: nat, sl: Switch)
    ensures var r := RunBlock(inp, pos, sl); r.Ok? ==> IsBlock(r.syn) && WF(r.syn, sl) && M(inp, pos, r.syn) == r.end
  {
    hide M, WF, RunBlock;
    SoundBlock(inp, pos, sl);
  }

  ghost predicate PartSpelled(inp: Input, pos: nat, e: DeclItem, r: Run<Part>, sl: Switch) {
    r.Done? ==> MPart(inp, pos, r.syn) == r.end && WFPart(e, r.syn, sl)
  }

  lemma SoundMember(inp: Input, pos: nat, sl: Switch)
    ensures PartSpelled(inp, pos, DField, RunMember(inp, pos, sl), sl)
  {
    hide M, IsTy, RunType;
    TypeSpelled(inp, AfterRegime(inp, pos) + 2, sl);
  }

  lemma SoundParam(inp: Input, pos: nat, sl: Switch)
    ensures PartSpelled(inp, pos, DParam, RunParam(inp, pos, sl), sl)
  {
    hide M, IsTy, RunType, TextOf;
    TypeSpelled(inp, AfterRegime(inp, pos) + 2, sl);
  }

  lemma SoundGeneric(inp: Input, pos: nat, sl: Switch)
    ensures PartSpelled(inp, pos, DGeneric, RunGeneric(inp, pos, sl), sl)
  {
    hide M, IsTy, RunType;
    TypeSpelled(inp, pos + 2, sl);
  }

  lemma {:induction false} SoundVariant(inp: Input, pos: nat, sl: Switch)
    ensures PartSpelled(inp, pos, DVariant, RunVariant(inp, pos, sl), sl)
    decreases |inp.toks| - pos, 0
  {
    hide M, IsTy, IsEx, RunType, RunExpr, RunComma, RunParts, MParts, WFParts, TrailOk, WFItems, MItems;
    if KindAt(inp, pos) == Identifier {
      if KindAt(inp, pos + 1) == LParen { SoundComma(inp, pos + 2, LTypes, sl); }
      else if KindAt(inp, pos + 1) == LBrace { SoundParts(inp, pos + 2, DField, sl); }
      else if KindAt(inp, pos + 1) == Eq { ExprSpelled(inp, pos + 2, sl); }
    }
  }

  lemma {:induction false} SoundPart(inp: Input, pos: nat, e: DeclItem, sl: Switch)
    ensures PartSpelled(inp, pos, e, RunPart(inp, pos, e, sl), sl)
    decreases |inp.toks| - pos, 1
  {
    hide PartSpelled, RunMember, RunParam, RunGeneric, RunVariant;
    match e
    case DField => SoundMember(inp, pos, sl);
    case DVariant => SoundVariant(inp, pos, sl);
    case DGeneric => SoundGeneric(inp, pos, sl);
    case DParam => SoundParam(inp, pos, sl);
  }

  ghost predicate PartsSpelled(inp: Input, pos: nat, e: DeclItem, r: Run<PartList>, sl: Switch) {
    r.Done? ==> && MParts(inp, pos, r.syn.items, r.syn.trail) == r.end && WFParts(e, r.syn.items, sl)
                && TrailOk(e, r.syn.items, r.syn.trail)
  }

  lemma {:induction false} SoundParts(inp: Input, pos: nat, e: DeclItem, sl: Switch)
    ensures PartsSpelled(inp, pos, e, RunParts(inp, pos, e, sl), sl)
    decreases |inp.toks| - pos, 2
  {
    hide RunPart, RunMoreParts, MPart, MMoreParts, WFPart;
    if KindAt(inp, pos) != Closer(e) && KindAt(inp, pos) != Eof {
      SoundPart(inp, pos, e, sl);
      var p := RunPart(inp, pos, e, sl);
      if p.Done? { SoundMoreParts(inp, p.end, e, sl); }
    }
  }

  lemma {:induction false} SoundMoreParts(inp: Input, pos: nat, e: DeclItem, sl: Switch)
    ensures var r := RunMoreParts(inp, pos, e, sl);
            r.Done? ==> && MMoreParts(inp, pos, r.syn.items, r.syn.trail) == r.end && WFParts(e, r.syn.items, sl)
                        && (r.syn.trail.On? ==> !e.DParam?)
    decreases |inp.toks| - pos, 0
  {
    hide RunPart, MPart, WFPart;
    if KindAt(inp, pos) == Comma && (e.DParam? || KindAt(inp, pos + 1) != Closer(e)) {
      SoundPart(inp, pos + 1, e, sl);
      var p := RunPart(inp, pos + 1, e, sl);
      if p.Done? { SoundMoreParts(inp, p.end, e, sl); }
    }
  }

  lemma SoundGens(inp: Input, pos: nat, sl: Switch)
    ensures var r := RunGens(inp, pos, sl); r.Done? ==> MGens(inp, pos, r.syn) == r.end && WFGens(r.syn, sl)
  {
    hide RunParts, MParts, WFParts, TrailOk;
    SoundParts(inp, pos + 1, DGeneric, sl);
  }

  lemma SoundParams(inp: Input, pos: nat, sl: Switch)
    ensures var r := RunParams(inp, pos, sl);
            r.Done? ==> MParams(inp, pos, r.syn.items) == r.end && WFParts(DParam, r.syn.items, sl)
  {
    hide RunParts, MParts, WFParts;
    SoundParts(inp, pos + 1, DParam, sl);
  }

  lemma SoundReturn(inp: Input, pos: nat, sl: Switch)
    ensures var r := RunReturn(inp, pos, sl);
            r.Done? ==> MReturn(inp, pos, r.syn) == r.end && (r.syn.Absent? || IsTy(r.syn, sl))
  {
    hide M, WF, RunType;
    TypeSpelled(inp, pos + 1, sl);
  }

  lemma SoundBody(inp: Input, pos: nat, body: Switch, sl: Switch)
    ensures var r := RunBody(inp, pos, body, sl);
            r.Done? ==> && MBody(inp, pos, r.syn) == r.end
                        && if body.On? then IsBlock(r.syn) && WF(r.syn, sl) else r.syn.Absent?
  {
    hide M, WF, RunBlock;
    BlockSpelled(inp, pos, sl);
  }

  lemma FnNameIs(inp: Input, pos: nat, f: FnSyn)
    requires IsFnHead(inp, pos) && f.isUnsafe == (FnAt(inp, pos) > pos)
    requires f.reg == (FnName(inp, pos) > FnAt(inp, pos) + 1)
    ensures MFnName(inp, pos, f) == FnName(inp, pos)
  {
  }

  lemma SoundFn(inp: Input, pos: nat, body: Switch, sl: Switch)
    ensures var r := RunFn(inp, pos, body, sl); r.Done? ==> MFn(inp, pos, r.syn) == r.end && WFFn(r.syn, body, sl)
  {
    hide RunGens, RunParams, RunReturn, RunBody, MGens, MParams, MReturn, MBody, MFnName, WFGens, WFParts, IsTy,
         IsBlock, WF, IsFnHead, FnName, FnAt;
    var r := RunFn(inp, pos, body, sl);
    if r.Done? {
      var f := r.syn;
      FnNameIs(inp, pos, f);
      HeadBounds(inp, pos);
      var g := RunGens(inp, FnName(inp, pos) + 1, sl);
      SoundGens(inp, FnName(inp, pos) + 1, sl);
      SoundParams(inp, g.end, sl);
      var ps := RunParams(inp, g.end, sl);
      SoundReturn(inp, ps.end, sl);
      SoundBody(inp, RunReturn(inp, ps.end, sl).end, body, sl);
    }
  }

  lemma HeadBounds(inp: Input, pos: nat)
    requires IsFnHead(inp, pos)
    ensures KindAt(inp, FnName(inp, pos)) == Identifier && FnName(inp, pos) < |inp.toks|
  {
  }

  lemma {:induction false} SoundDocs(inp: Input, pos: nat, k: Kind)
    requires k != Eof
    ensures MDocs(inp, pos, DocCount(inp, pos, k), k) == pos + DocCount(inp, pos, k)
    decreases |inp.toks| - pos
  {
    if KindAt(inp, pos) == k { SoundDocs(inp, pos + 1, k); }
  }

  lemma {:induction false} SoundMethods(inp: Input, pos: nat, body: Switch, sl: Switch)
    ensures var r := RunMethods(inp, pos, body, sl); r.Done? ==>
      MMethods(inp, pos, r.syn) == r.end && WFMethods(r.syn, body, sl)
    decreases |inp.toks| - pos
  {
    hide RunFn, MFn, WFFn, MDocs, DocCount;
    if KindAt(inp, pos) != RBrace && KindAt(inp, pos) != Eof {
      SoundDocs(inp, pos, DocCommentTok);
      SoundFn(inp, MethodAt(inp, pos), body, sl);
      var f := RunFn(inp, MethodAt(inp, pos), body, sl);
      if f.Done? { SoundMethods(inp, f.end, body, sl); }
    }
  }

  lemma SoundHead(inp: Input, pos: nat, k: Kind, sl: Switch)
    requires KindAt(inp, pos) == k && k != Eof
    ensures var r := RunHead(inp, pos, sl); r.Done? ==> MHead(inp, pos, k, r.syn) == r.end && WFGens(r.syn, sl)
  {
    hide RunGens, MGens, WFGens;
    SoundGens(inp, pos + 2, sl);
  }

  lemma SoundMembers(inp: Input, pos: nat, e: DeclItem, sl: Switch)
    ensures var r := RunMembers(inp, pos, e, sl);
            r.Done? ==> && MMembers(inp, pos, r.syn.items, r.syn.trail) == r.end && WFParts(e, r.syn.items, sl)
                        && TrailOk(e, r.syn.items, r.syn.trail)
  {
    hide RunParts, MParts, WFParts, TrailOk;
    SoundParts(inp, pos + 1, e, sl);
  }

  lemma SoundMethodBlock(inp: Input, pos: nat, body: Switch, sl: Switch)
    ensures var r := RunMethodBlock(inp, pos, body, sl); r.Done? ==>
      MMethodBlock(inp, pos, r.syn) == r.end && WFMethods(r.syn, body, sl)
  {
    hide RunMethods, MMethods, WFMethods;
    SoundMethods(inp, pos + 1, body, sl);
  }

  ghost predicate FormSpelled(inp: Input, pos: nat, r: Run<DeclForm>, sl: Switch) {
    r.Done? ==> MForm(inp, pos, r.syn) == r.end && WFForm(r.syn, sl)
  }

  lemma SoundConst(inp: Input, pos: nat, sl: Switch)
    ensures FormSpelled(inp, pos, RunConst(inp, pos, sl), sl)
  {
    hide M, IsTy, IsEx, RunType, RunExpr;
    TypeSpelled(inp, pos + 3, sl);
    var t := RunType(inp, pos + 3, sl);
    if t.Ok? { ExprSpelled(inp, t.end + 1, sl); }
  }

  lemma SoundData(inp: Input, pos: nat, k: Kind, sl: Switch)
    requires KindAt(inp, pos) == k && (k == KwStruct || k == KwEnum || k == KwUnion)
    ensures FormSpelled(inp, pos, RunData(inp, pos, k, sl), sl)
  {
    hide RunHead, RunMembers, MHead, MMembers, WFGens, WFParts, TrailOk;
    SoundHead(inp, pos, k, sl);
    var g := RunHead(inp, pos, sl);
    if g.Done? { SoundMembers(inp, g.end, if k == KwEnum then DVariant else DField, sl); }
  }

  lemma SoundTrait(inp: Input, pos: nat, sl: Switch)
    requires KindAt(inp, pos) == KwTrait
    ensures FormSpelled(inp, pos, RunTrait(inp, pos, sl), sl)
  {
    hide RunHead, RunMethodBlock, MHead, MMethodBlock, WFGens, WFMethods;
    SoundHead(inp, pos, KwTrait, sl);
    var g := RunHead(inp, pos, sl);
    if g.Done? { SoundMethodBlock(inp, g.end, Off, sl); }
  }

  lemma SoundImplTypes(inp: Input, pos: nat, sl: Switch)
    ensures var r := RunImplTypes(inp, pos, sl);
            r.Done? ==> && MBound(inp, pos, r.syn.0) >= 0 && M(inp, MBound(inp, pos, r.syn.0), r.syn.1) == r.end
                        && (r.syn.0.Absent? || IsTy(r.syn.0, sl)) && IsTy(r.syn.1, sl)
  {
    hide M, WF, RunType;
    TypeSpelled(inp, pos, sl);
    var t := RunType(inp, pos, sl);
    if t.Ok? { TypeSpelled(inp, t.end + 1, sl); }
  }

  lemma SoundImpl(inp: Input, pos: nat, sl: Switch)
    requires KindAt(inp, pos) == KwImpl
    ensures FormSpelled(inp, pos, RunImpl(inp, pos, sl), sl)
  {
    hide M, IsTy, RunGens, RunImplTypes, RunMethodBlock, MGens, MBound, MMethodBlock, WFGens, WFMethods;
    SoundGens(inp, pos + 1, sl);
    var g := RunGens(inp, pos + 1, sl);
    if g.Done? {
      SoundImplTypes(inp, g.end, sl);
      var t := RunImplTypes(inp, g.end, sl);
      if t.Done? { SoundMethodBlock(inp, t.end, On, sl); }
    }
  }

  lemma {:induction false} SoundSegCount(inp: Input, pos: nat)
    ensures MSegs(inp, pos, SegCount(inp, pos)) == pos + 2 * SegCount(inp, pos)
    decreases |inp.toks| - pos
  {
    if KindAt(inp, pos) == ColonColon && KindAt(inp, pos + 1) == Identifier { SoundSegCount(inp, pos + 2); }
  }

  lemma SoundUse(inp: Input, pos: nat)
    requires KindAt(inp, pos) == KwUse
    ensures FormSpelled(inp, pos, RunUse(inp, pos), On) && FormSpelled(inp, pos, RunUse(inp, pos), Off)
  {
    hide SegCount, MSegs;
    SoundSegCount(inp, pos + 2);
  }

  lemma {:induction false} SoundMod(inp: Input, pos: nat, sl: Switch)
    requires KindAt(inp, pos) == KwMod
    ensures FormSpelled(inp, pos, RunMod(inp, pos, sl), sl)
    decreases |inp.toks| - pos, 0
  {
    hide RunDecls, MDecls, WFDecls;
    if KindAt(inp, pos + 1) == Identifier && KindAt(inp, pos + 2) == LBrace { SoundDecls(inp, pos + 3, On, sl); }
  }

  lemma {:induction false} SoundForm(inp: Input, pos: nat, sl: Switch)
    ensures FormSpelled(inp, pos, RunForm(inp, pos, sl), sl)
    decreases |inp.toks| - pos, 1
  {
    hide RunFn, MFn, WFFn, FormSpelled, RunConst, RunMod, RunData, RunUse, RunTrait, RunImpl;
    var k := KindAt(inp, pos);
    if KindAt(inp, FnAt(inp, pos)) == KwFn {
      SoundFn(inp, FnAt(inp, pos), On, sl);
      SoundFnForm(inp, pos, sl);
    } else {
      hide FnAt;
      StuckSpelled(inp, pos, sl);
      if k == KwConst { SoundConst(inp, pos, sl); }
      else if k == KwMod { SoundMod(inp, pos, sl); }
      else if k == KwStruct || k == KwEnum || k == KwUnion { SoundData(inp, pos, k, sl); }
      else if k == KwUse { SoundUse(inp, pos); }
      else if k == KwTrait { SoundTrait(inp, pos, sl); }
      else if k == KwImpl { SoundImpl(inp, pos, sl); }
    }
  }

  lemma StuckSpelled(inp: Input, pos: nat, sl: Switch)
    ensures FormSpelled(inp, pos, Stuck, sl)
  {
  }

  lemma SoundFnForm(inp: Input, pos: nat, sl: Switch)
    requires KindAt(inp, FnAt(inp, pos)) == KwFn
    ensures FormSpelled(inp, pos, RunForm(inp, pos, sl), sl)
  {
    hide RunFn, MFn, WFFn;
    SoundFn(inp, FnAt(inp, pos), On, sl);
    PlainFn(inp, FnAt(inp, pos), sl);
  }

  // A function that begins with `fn` is not marked unsafe itself.
  lemma PlainFn(inp: Input, pos: nat, sl: Switch)
    requires KindAt(inp, pos) == KwFn
    ensures var r := RunFn(inp, pos, On, sl); r.Done? ==> !r.syn.isUnsafe
  {
    hide RunGens, RunParams, RunReturn, RunBody, IsFnHead;
  }

  ghost predicate DeclSpelled(inp: Input, pos: nat, r: Run<Decl>, sl: Switch) {
    r.Done? ==> MDecl(inp, pos, r.syn) == r.end && WFForm(r.syn.form, sl)
  }

  lemma {:induction false} SoundDecl(inp: Input, pos: nat, sl: Switch)
    ensures DeclSpelled(inp, pos, RunDecl(inp, pos, sl), sl)
    decreases |inp.toks| - pos, 2
  {
    hide RunForm, MForm, WFForm, MDocs, DocCount;
    SoundDocs(inp, pos, DocCommentTok);
    SoundForm(inp, DeclAt(inp, pos), sl);
  }

  lemma {:induction false} SoundDecls(inp: Input, pos: nat, inner: Switch, sl: Switch)
    ensures var r := RunDecls(inp, pos, inner, sl); r.Done? ==> MDecls(inp, pos, r.syn) == r.end && WFDecls(r.syn, sl)
    decreases |inp.toks| - pos, 3
  {
    hide RunDecl, MDecl, WFForm;
    if KindAt(inp, pos) != Eof && !(inner.On? && KindAt(inp, pos) == RBrace) {
      SoundDecl(inp, pos, sl);
      var d := RunDecl(inp, pos, sl);
      if d.Done? { SoundDecls(inp, d.end, inner, sl); }
    }
  }

  /** A file that is read cleanly is well-formed and spelled by the tokens, all of them. */
  lemma SoundFile(inp: Input, sl: Switch)
    ensures var r := RunFile(inp, sl); r.Done? ==> DerivesFile(inp, r.syn, r.end, sl)
  {
    hide RunDecls, MDecls, WFDecls, DocCount, MDocs;
    SoundDocs(inp, 0, FileDocCommentTok);
    SoundDecls(inp, DocCount(inp, 0, FileDocCommentTok), Off, sl);
    EndsAtEof(inp, DocCount(inp, 0, FileDocCommentTok), sl);
  }

  lemma {:induction false} EndsAtEof(inp: Input, pos: nat, sl: Switch)
    ensures var r := RunDecls(inp, pos, Off, sl); r.Done? ==> KindAt(inp, r.end) == Eof
    decreases |inp.toks| - pos
  {
    hide RunDecl;
    if KindAt(inp, pos) != Eof {
      var d := RunDecl(inp, pos, sl);
      if d.Done? { EndsAtEof(inp, d.end, sl); }
    }
  }
}
