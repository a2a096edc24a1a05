/** The grammar of declarations and the parser agree: whatever derives is read, and no file derives
    in two ways. */
module DeclTheorems {
  import opened Tokens
  import opened Trees
  import opened Grammar
  import opened Spelling
  import opened ErrorFree
  import opened Soundness
  import opened Completeness
  import opened DeclGrammar
  import opened DeclRuns
  import opened Declarations

  lemma TypeRead(inp: Input, pos: nat, ty: Syn, end: nat, sl: Switch)
    requires IsTy(ty, sl) && M(inp, pos, ty) == end && KindAt(inp, end) != ColonColon
    ensures RunType(inp, pos, sl) == Ok(ty, end)
  {
    hide M, WF, RunType, Follow;
    FollowTy(ty, KindAt(inp, end), sl);
    CompleteType(inp, pos, ty, end, sl);
  }

  /////////////////////////// parts and their lists ///////////////////////////

  // A part ends in front of a comma or of what closes its list.
  predicate PartEnd(inp: Input, end: nat, e: DeclItem) { KindAt(inp, end) == Comma || KindAt(inp, end) == Closer(e) }

  lemma CompleteMember(inp: Input, pos: nat, p: Part, end: nat, sl: Switch)
    requires MPart(inp, pos, p) == end && WFPart(DField, p, sl) && PartEnd(inp, end, DField)
    ensures RunMember(inp, pos, sl) == Done(p, end)
  {
    hide M, IsTy, RunType;
    TypeRead(inp, AfterRegime(inp, pos) + 2, p.ty, end, sl);
  }

  lemma CompleteParam(inp: Input, pos: nat, p: Part, end: nat, sl: Switch)
    requires MPart(inp, pos, p) == end && WFPart(DParam, p, sl) && PartEnd(inp, end, DParam)
    ensures RunParam(inp, pos, sl) == Done(p, end)
  {
    hide M, IsTy, RunType, TextOf;
    if p.TypedParam? { TypeRead(inp, AfterRegime(inp, pos) + 2, p.ty, end, sl); }
  }

  lemma CompleteGeneric(inp: Input, pos: nat, p: Part, end: nat, sl: Switch)
    requires MPart(inp, pos, p) == end && WFPart(DGeneric, p, sl) && PartEnd(inp, end, DGeneric)
    ensures RunGeneric(inp, pos, sl) == Done(p, end)
  {
    hide M, IsTy, RunType;
    if p.BoundGeneric? { TypeRead(inp, pos + 2, p.ty, end, sl); }
  }

  lemma {:induction false} CompleteVariant(inp: Input, pos: nat, p: Part, end: nat, sl: Switch)
    requires MPart(inp, pos, p) == end && WFPart(DVariant, p, sl) && PartEnd(inp, end, DVariant)
    ensures RunVariant(inp, pos, sl) == Done(p, end)
    decreases p, 0
  {
    hide M, WF, RunExpr, RunComma, RunParts, MParts, WFParts, WFItems, MItems;
    match p
    case UnitVariant =>
    case ValueVariant(v) => CompleteFull(inp, pos + 2, v, end, sl);
    case TupleVariant(types, tr) => CompleteComma(inp, pos + 2, types, tr, end - 1, LTypes, sl);
    case StructVariant(fs, tr) => CompleteParts(inp, pos + 2, DField, fs, tr, end - 1, sl);
  }

  lemma {:induction false} CompletePart(inp: Input, pos: nat, e: DeclItem, p: Part, end: nat, sl: Switch)
    requires MPart(inp, pos, p) == end && WFPart(e, p, sl) && PartEnd(inp, end, e)
    ensures RunPart(inp, pos, e, sl) == Done(p, end)
    decreases p, 1
  {
    hide MPart, WFPart, RunMember, RunParam, RunGeneric, RunVariant;
    match e
    case DField => CompleteMember(inp, pos, p, end, sl);
    case DVariant => CompleteVariant(inp, pos, p, end, sl);
    case DGeneric => CompleteGeneric(inp, pos, p, end, sl);
    case DParam => CompleteParam(inp, pos, p, end, sl);
  }

  // A part begins with a name or a regime.
  lemma PartFirst(inp: Input, pos: int, p: Part)
    requires MPart(inp, pos, p) >= 0
    ensures KindAt(inp, pos) == Identifier || IsRegime(KindAt(inp, pos))
  {
    hide M, MParts, TextOf, MItems;
  }

  lemma {:induction false} CompleteParts(inp: Input, pos: nat, e: DeclItem, l: Parts, trail: Switch, end: nat,
                                         sl: Switch)
    requires MParts(inp, pos, l, trail) == end && WFParts(e, l, sl) && TrailOk(e, l, trail)
    requires KindAt(inp, end) == Closer(e)
    ensures RunParts(inp, pos, e, sl) == Done(PartList(l, trail), end)
    decreases l, 1
  {
    hide MPart, WFPart, RunPart, RunMoreParts, MMoreParts;
    if l.PCons? {
      PartFirst(inp, pos, l.hd);
      NextPart(inp, MPart(inp, pos, l.hd), l.tl, trail);
      CompletePart(inp, pos, e, l.hd, MPart(inp, pos, l.hd), sl);
      CompleteMoreParts(inp, MPart(inp, pos, l.hd), e, l.tl, trail, end, sl);
    }
  }

  lemma NextPart(inp: Input, pos: nat, l: Parts, trail: Switch)
    requires MMoreParts(inp, pos, l, trail) >= 0
    ensures KindAt(inp, pos) == Comma || MMoreParts(inp, pos, l, trail) == pos
  {
    hide MPart;
  }

  lemma {:induction false} CompleteMoreParts(inp: Input, pos: nat, e: DeclItem, l: Parts, trail: Switch, end: nat,
                                             sl: Switch)
    requires MMoreParts(inp, pos, l, trail) == end && WFParts(e, l, sl) && (trail.On? ==> !e.DParam?)
    requires KindAt(inp, end) == Closer(e)
    ensures RunMoreParts(inp, pos, e, sl) == Done(PartList(l, trail), end)
    decreases l, 0
  {
    hide MPart, WFPart, RunPart;
    if l.PCons? {
      var q := MPart(inp, pos + 1, l.hd);
      PartFirst(inp, pos + 1, l.hd);
      NextPart(inp, q, l.tl, trail);
      CompletePart(inp, pos + 1, e, l.hd, q, sl);
      CompleteMoreParts(inp, q, e, l.tl, trail, end, sl);
    }
  }

  /////////////////////////// functions and methods ///////////////////////////

  lemma CompleteGens(inp: Input, pos: nat, g: Gens, end: nat, sl: Switch)
    requires MGens(inp, pos, g) == end && WFGens(g, sl)
    ensures RunGens(inp, pos, sl) == Done(g, end)
  {
    hide MParts, WFParts, RunParts, TrailOk;
    if g.Gens? { CompleteParts(inp, pos + 1, DGeneric, g.items, g.trail, end - 1, sl); }
  }

  lemma CompleteParams(inp: Input, pos: nat, l: Parts, end: nat, sl: Switch)
    requires MParams(inp, pos, l) == end && WFParts(DParam, l, sl)
    ensures RunParams(inp, pos, sl) == Done(PartList(l, Off), end)
  {
    hide MParts, WFParts, RunParts;
    CompleteParts(inp, pos + 1, DParam, l, Off, end - 1, sl);
  }

  lemma CompleteReturn(inp: Input, pos: nat, ret: Syn, end: nat, sl: Switch)
    requires MReturn(inp, pos, ret) == end && (ret.Absent? || IsTy(ret, sl))
    requires KindAt(inp, end) == LBrace || KindAt(inp, end) == Semi
    ensures RunReturn(inp, pos, sl) == Done(ret, end)
  {
    hide M, WF, RunType;
    if !ret.Absent? { TypeRead(inp, pos + 1, ret, end, sl); }
  }

  lemma CompleteBody(inp: Input, pos: nat, b: Syn, body: Switch, end: nat, sl: Switch)
    requires MBody(inp, pos, b) == end && if body.On? then IsBlock(b) && WF(b, sl) else b.Absent?
    ensures RunBody(inp, pos, body, sl) == Done(b, end)
    ensures KindAt(inp, pos) == LBrace || KindAt(inp, pos) == Semi
  {
    hide M, WF, RunBlock;
    if body.On? { CompleteBlockExpr(inp, pos, b, end, sl); }
  }

  lemma HeadRead(inp: Input, pos: nat, f: FnSyn)
    requires Expect1(inp, MFnName(inp, pos, f), Identifier) >= 0
    ensures IsFnHead(inp, pos) && FnName(inp, pos) == MFnName(inp, pos, f)
    ensures f.isUnsafe == (FnAt(inp, pos) > pos) && f.reg == (FnName(inp, pos) > FnAt(inp, pos) + 1)
  {
  }

  lemma CompleteFn(inp: Input, pos: nat, f: FnSyn, body: Switch, end: nat, sl: Switch)
    requires MFn(inp, pos, f) == end && WFFn(f, body, sl)
    ensures RunFn(inp, pos, body, sl) == Done(f, end)
  {
    hide RunGens, RunParams, RunReturn, RunBody, MGens, MParams, MReturn, MBody, MFnName, WFGens, WFParts, IsTy,
         IsBlock, WF, IsFnHead, FnName, FnAt;
    HeadRead(inp, pos, f);
    var n := FnName(inp, pos) + 1;
    var g := MGens(inp, n, f.gens);
    var p := MParams(inp, g, f.params);
    var b := MReturn(inp, p, f.ret);
    CompleteGens(inp, n, f.gens, g, sl);
    CompleteParams(inp, g, f.params, p, sl);
    CompleteBody(inp, b, f.body, body, end, sl);
    CompleteReturn(inp, p, f.ret, b, sl);
  }

  // The number of documentation comments is the one written, when something else follows.
  lemma {:induction false} CompleteDocs(inp: Input, pos: nat, n: nat, k: Kind)
    requires k != Eof && MDocs(inp, pos, n, k) >= 0 && KindAt(inp, pos + n) != k
    ensures DocCount(inp, pos, k) == n
    decreases n
  {
    if n > 0 { CompleteDocs(inp, pos + 1, n - 1, k); }
  }

  lemma DocsFirst(inp: Input, pos: nat, n: nat, k: Kind)
    requires MDocs(inp, pos, n, k) >= 0
    ensures if n == 0 then MDocs(inp, pos, n, k) == pos else KindAt(inp, pos) == k && k != Eof
  {
  }

  lemma FnFirst(inp: Input, pos: int, f: FnSyn)
    requires MFn(inp, pos, f) >= 0
    ensures KindAt(inp, pos) == if f.isUnsafe then KwUnsafe else KwFn
  {
    hide MGens, MParams, MReturn, MBody;
  }

  lemma {:induction false} CompleteMethods(inp: Input, pos: nat, l: MethodList, body: Switch, end: nat, sl: Switch)
    requires MMethods(inp, pos, l) == end && WFMethods(l, body, sl) && KindAt(inp, end) == RBrace
    ensures RunMethods(inp, pos, body, sl) == Done(l, end)
    decreases l
  {
    hide RunFn, MFn, WFFn, MDocs, DocCount;
    if l.MCons? {
      var p := MDocs(inp, pos, l.docs, DocCommentTok);
      FnFirst(inp, p, l.fn);
      DocsFirst(inp, pos, l.docs, DocCommentTok);
      CompleteDocs(inp, pos, l.docs, DocCommentTok);
      CompleteFn(inp, p, l.fn, body, MFn(inp, p, l.fn), sl);
      CompleteMethods(inp, MFn(inp, p, l.fn), l.tl, body, end, sl);
    }
  }

  /////////////////////////// declarations ///////////////////////////

  lemma CompleteHead(inp: Input, pos: nat, k: Kind, g: Gens, end: nat, sl: Switch)
    requires MHead(inp, pos, k, g) == end && WFGens(g, sl)
    ensures KindAt(inp, pos) == k && RunHead(inp, pos, sl) == Done(g, end)
  {
    hide MGens, WFGens, RunGens;
    CompleteGens(inp, pos + 2, g, end, sl);
  }

  lemma CompleteMembers(inp: Input, pos: nat, e: DeclItem, l: Parts, trail: Switch, end: nat, sl: Switch)
    requires MMembers(inp, pos, l, trail) == end && WFParts(e, l, sl) && TrailOk(e, l, trail) && Closer(e) == RBrace
    ensures RunMembers(inp, pos, e, sl) == Done(PartList(l, trail), end)
  {
    hide MParts, WFParts, RunParts, TrailOk;
    CompleteParts(inp, pos + 1, e, l, trail, end - 1, sl);
  }

  lemma CompleteMethodBlock(inp: Input, pos: nat, l: MethodList, body: Switch, end: nat, sl: Switch)
    requires MMethodBlock(inp, pos, l) == end && WFMethods(l, body, sl)
    ensures RunMethodBlock(inp, pos, body, sl) == Done(l, end)
  {
    hide MMethods, WFMethods, RunMethods;
    CompleteMethods(inp, pos + 1, l, body, end - 1, sl);
  }

  lemma CompleteConst(inp: Input, pos: nat, d: DeclForm, end: nat, sl: Switch)
    requires d.DConst? && MForm(inp, pos, d) == end && WFForm(d, sl)
    ensures KindAt(inp, pos) == KwConst && RunConst(inp, pos, sl) == Done(d, end)
  {
    hide M, WF, RunType, RunExpr;
    TypeRead(inp, pos + 3, d.ty, M(inp, pos + 3, d.ty), sl);
    CompleteFull(inp, M(inp, pos + 3, d.ty) + 1, d.value, end - 1, sl);
  }

  lemma CompleteData(inp: Input, pos: nat, k: Kind, g: Gens, l: Parts, trail: Switch, end: nat, sl: Switch)
    requires k == KwStruct || k == KwEnum || k == KwUnion
    requires MMembers(inp, MHead(inp, pos, k, g), l, trail) == end
    requires WFMembers(if k == KwEnum then DVariant else DField, g, l, trail, sl)
    ensures KindAt(inp, pos) == k
    ensures RunData(inp, pos, k, sl)
            == Done(if k == KwStruct then DStruct(g, l, trail)
                    else if k == KwEnum then DEnum(g, l, trail)
                    else DUnion(g, l, trail), end)
  {
    hide RunHead, RunMembers, MHead, MMembers, WFGens, WFParts, TrailOk;
    var q := MHead(inp, pos, k, g);
    MembersAt(inp, q, l, trail);
    CompleteHead(inp, pos, k, g, q, sl);
    CompleteMembers(inp, q, if k == KwEnum then DVariant else DField, l, trail, end, sl);
  }

  lemma MembersAt(inp: Input, pos: int, l: Parts, trail: Switch)
    requires MMembers(inp, pos, l, trail) >= 0
    ensures pos >= 0
  {
  }

  lemma BlockAt(inp: Input, pos: int, l: MethodList)
    requires MMethodBlock(inp, pos, l) >= 0
    ensures pos >= 0 && KindAt(inp, pos) == LBrace
  {
    hide MMethods;
  }

  lemma CompleteTrait(inp: Input, pos: nat, d: DeclForm, end: nat, sl: Switch)
    requires d.DTrait? && MForm(inp, pos, d) == end && WFForm(d, sl)
    ensures KindAt(inp, pos) == KwTrait && RunTrait(inp, pos, sl) == Done(d, end)
  {
    hide RunHead, RunMethodBlock, MHead, MMethodBlock, WFGens, WFMethods;
    var q := MHead(inp, pos, KwTrait, d.gens);
    BlockAt(inp, q, d.methods);
    CompleteHead(inp, pos, KwTrait, d.gens, q, sl);
    CompleteMethodBlock(inp, q, d.methods, Off, end, sl);
  }

  lemma CompleteImplTypes(inp: Input, pos: nat, b: Syn, ty: Syn, end: nat, sl: Switch)
    requires MBound(inp, pos, b) >= 0 && M(inp, MBound(inp, pos, b), ty) == end
    requires (b.Absent? || IsTy(b, sl)) && IsTy(ty, sl) && KindAt(inp, end) == LBrace
    ensures RunImplTypes(inp, pos, sl) == Done((b, ty), end)
  {
    hide M, WF, RunType;
    if b.Absent? {
      TypeRead(inp, pos, ty, end, sl);
    } else {
      TypeRead(inp, pos, b, M(inp, pos, b), sl);
      TypeRead(inp, M(inp, pos, b) + 1, ty, end, sl);
    }
  }

  lemma CompleteImpl(inp: Input, pos: nat, d: DeclForm, end: nat, sl: Switch)
    requires d.DImpl? && MForm(inp, pos, d) == end && WFForm(d, sl)
    ensures KindAt(inp, pos) == KwImpl && RunImpl(inp, pos, sl) == Done(d, end)
  {
    hide M, IsTy, RunGens, RunImplTypes, RunMethodBlock, MGens, MBound, MMethodBlock, WFGens, WFMethods;
    var g := MGens(inp, pos + 1, d.gens);
    var q := M(inp, MBound(inp, g, d.bound), d.ty);
    BlockAt(inp, q, d.methods);
    CompleteGens(inp, pos + 1, d.gens, g, sl);
    CompleteImplTypes(inp, g, d.bound, d.ty, q, sl);
    CompleteMethodBlock(inp, q, d.methods, On, end, sl);
  }

  lemma {:induction false} CompleteSegCount(inp: Input, pos: nat, n: nat)
    requires MSegs(inp, pos, n) >= 0
    requires KindAt(inp, MSegs(inp, pos, n)) == ColonColon ==> KindAt(inp, MSegs(inp, pos, n) + 1) != Identifier
    ensures SegCount(inp, pos) == n && MSegs(inp, pos, n) == pos + 2 * n
    decreases n
  {
    if n > 0 { CompleteSegCount(inp, pos + 2, n - 1); }
  }

  lemma CompleteUse(inp: Input, pos: nat, d: DeclForm, end: nat, sl: Switch)
    requires d.DUse? && MForm(inp, pos, d) == end
    ensures KindAt(inp, pos) == KwUse && RunUse(inp, pos) == Done(d, end)
  {
    hide SegCount, MSegs;
    CompleteSegCount(inp, pos + 2, d.segs);
  }

  lemma {:induction false} CompleteMod(inp: Input, pos: nat, d: DeclForm, end: nat, sl: Switch)
    requires (d.DMod? || d.DModFile?) && MForm(inp, pos, d) == end && WFForm(d, sl)
    ensures KindAt(inp, pos) == KwMod && RunMod(inp, pos, sl) == Done(d, end)
    decreases d, 0
  {
    hide MDecls, WFDecls, RunDecls;
    if d.DMod? { CompleteDecls(inp, pos + 3, d.inner, On, end - 1, sl); }
  }

  lemma CompleteFnForm(inp: Input, pos: nat, d: DeclForm, end: nat, sl: Switch)
    requires d.DFn? && MForm(inp, pos, d) == end && WFForm(d, sl)
    ensures RunForm(inp, pos, sl) == Done(d, end)
  {
    hide MFn, WFFn, RunFn;
    var p := if d.isUnsafe then pos + 1 else pos;
    FnFirst(inp, p, d.fn);
    CompleteFn(inp, p, d.fn, On, end, sl);
  }

  lemma {:induction false} CompleteForm(inp: Input, pos: nat, d: DeclForm, end: nat, sl: Switch)
    requires MForm(inp, pos, d) == end && WFForm(d, sl)
    ensures RunForm(inp, pos, sl) == Done(d, end)
    decreases d, 1
  {
    if d.DFn? {
      hide *;
      CompleteFnForm(inp, pos, d, end, sl);
    } else {
      hide MFn, WFFn, RunFn, M, WF, MHead, MMembers, MMethodBlock, MGens, WFMembers, WFGens, WFMethods, MDecls,
           WFDecls, IsTy, IsEx, RunConst, RunMod, RunData, RunUse, RunTrait, RunImpl, MUsePath, MBound, MTyped;
      match d
      case DConst(_, _) => CompleteConst(inp, pos, d, end, sl);
      case DStruct(g, l, tr) => CompleteData(inp, pos, KwStruct, g, l, tr, end, sl);
      case DEnum(g, l, tr) => CompleteData(inp, pos, KwEnum, g, l, tr, end, sl);
      case DUnion(g, l, tr) => CompleteData(inp, pos, KwUnion, g, l, tr, end, sl);
      case DTrait(_, _) => CompleteTrait(inp, pos, d, end, sl);
      case DImpl(_, _, _, _) => CompleteImpl(inp, pos, d, end, sl);
      case DUse(_, _) => CompleteUse(inp, pos, d, end, sl);
      case DMod(_) => CompleteMod(inp, pos, d, end, sl);
      case DModFile => CompleteMod(inp, pos, d, end, sl);
    }
  }

  // No declaration begins like the end of a list, a documentation comment or a visibility.
  lemma FormFirst(inp: Input, pos: int, d: DeclForm)
    requires MForm(inp, pos, d) >= 0
    ensures var k := KindAt(inp, pos);
            k != Eof && k != RBrace && k != DocCommentTok && k != FileDocCommentTok && k != KwPub
  {
    hide MFn, M, MMembers, MMethodBlock, MGens, MDecls, MUseTail, MSegs, MBound;
    if d.DFn? { FnFirst(inp, if d.isUnsafe then Expect1(inp, pos, KwUnsafe) else pos, d.fn); }
  }

  lemma {:induction false} CompleteDecl(inp: Input, pos: nat, d: Decl, end: nat, sl: Switch)
    requires MDecl(inp, pos, d) == end && WFForm(d.form, sl)
    ensures RunDecl(inp, pos, sl) == Done(d, end) && DeclFirst(KindAt(inp, pos))
    decreases d, 2
  {
    hide MForm, WFForm, RunForm, MDocs, DocCount;
    var p, n := FormAt(inp, pos, d), d.docs;
    FormFirst(inp, p, d.form);
    DocsFirst(inp, pos, n, DocCommentTok);
    CompleteDocs(inp, pos, n, DocCommentTok);
    CompleteForm(inp, p, d.form, end, sl);
  }

  predicate DeclFirst(k: Kind) { k != Eof && k != RBrace && k != FileDocCommentTok }

  // Between braces the declarations end at the closing brace, in a file at the end.
  lemma {:induction false} CompleteDecls(inp: Input, pos: nat, l: Decls, inner: Switch, end: nat, sl: Switch)
    requires MDecls(inp, pos, l) == end && WFDecls(l, sl)
    requires KindAt(inp, end) == if inner.On? then RBrace else Eof
    ensures RunDecls(inp, pos, inner, sl) == Done(l, end) && KindAt(inp, pos) != FileDocCommentTok
    decreases l, 3
  {
    hide MDecl, WFForm, RunDecl;
    if l.DCons? {
      CompleteDecl(inp, pos, l.hd, MDecl(inp, pos, l.hd), sl);
      CompleteDecls(inp, MDecl(inp, pos, l.hd), l.tl, inner, end, sl);
    }
  }

  /////////////////////////// files ///////////////////////////

  lemma CompleteFile(inp: Input, f: FileSyn, end: nat, sl: Switch)
    requires DerivesFile(inp, f, end, sl)
    ensures RunFile(inp, sl) == Done(f, end)
  {
    hide MDecls, WFDecls, RunDecls, MDocs, DocCount;
    DocsFirst(inp, 0, f.docs, FileDocCommentTok);
    CompleteDecls(inp, f.docs, f.decls, Off, end, sl);
    CompleteDocs(inp, 0, f.docs, FileDocCommentTok);
  }

  /** A source file is read, as some tree up to some token, exactly when the tokens in front of that
      token spell a well-formed file of that tree and nothing follows. */
  lemma FileIffDerives(inp: Input, end: nat, t: Tree, sl: Switch)
    ensures ReadFile(inp, sl) == Read(end, t) <==> exists f :: DerivesFile(inp, f, end, sl) && t == AstFile(inp, f)
  {
    hide RunFile, DerivesFile, AstFile;
    SoundFile(inp, sl);
    if f :| DerivesFile(inp, f, end, sl) && t == AstFile(inp, f) { CompleteFile(inp, f, end, sl); }
  }

  /** A source file is read exactly when the tokens spell some well-formed file. */
  lemma ReadsIffDerives(inp: Input, sl: Switch)
    ensures ReadFile(inp, sl).Read? <==> exists f, end :: DerivesFile(inp, f, end, sl)
  {
    hide RunFile, DerivesFile, AstFile;
    SoundFile(inp, sl);
    if f, end :| DerivesFile(inp, f, end, sl) { CompleteFile(inp, f, end, sl); }
  }

  /** At most one file fits the tokens. */
  lemma FileUnambiguous(inp: Input, f1: FileSyn, end1: nat, f2: FileSyn, end2: nat, sl: Switch)
    requires DerivesFile(inp, f1, end1, sl) && DerivesFile(inp, f2, end2, sl)
    ensures f1 == f2 && end1 == end2
  {
    hide RunFile, DerivesFile;
    CompleteFile(inp, f1, end1, sl);
    CompleteFile(inp, f2, end2, sl);
  }
}
