/** The parser on runs that record no diagnostic, as functions on positions. */
module ErrorFree {
  import opened Tokens
  import opened Trees
  import opened Grammar
  import opened Spelling

  datatype Res = Fail | Ok(syn: Syn, end: nat)
  datatype ListRes = LFail | LOk(items: Syns, trail: Switch, end: nat)
  datatype SegRes = SegFail | Segs(n: nat, end: nat)

  function Close(inp: Input, pos: nat, k: Kind, s: Syn): (r: Res)
    ensures r.Ok? ==> r.end == pos + 1 <= |inp.toks| && r.syn == s && KindAt(inp, pos) == k
  {
    if KindAt(inp, pos) == k && k != Eof then Ok(s, pos + 1) else Fail
  }

  function RunSegs(inp: Input, pos: nat): (r: SegRes)
    ensures r.Segs? ==> pos <= r.end && (r.end == pos || r.end <= |inp.toks|)
    decreases |inp.toks| - pos
  {
    if KindAt(inp, pos) != ColonColon then Segs(0, pos)
    else if KindAt(inp, pos + 1) != Identifier then SegFail
    else match RunSegs(inp, pos + 2)
      case SegFail => SegFail
      case Segs(n, z) => Segs(n + 1, z)
  }

  /////////////////////////// types ///////////////////////////

  function RunType(inp: Input, pos: nat, sl: Switch): (r: Res)
    ensures r.Ok? ==> pos < r.end <= |inp.toks|
    decreases |inp.toks| - pos, 1
  {
    var k := KindAt(inp, pos);
    if k == LParen then
      (match RunComma(inp, pos + 1, LTypes, sl)
       case LFail => Fail
       case LOk(items, tr, q) => Close(inp, q, RParen, Ty(TTuple(items, tr))))
    else if k == LSquare then RunArrayType(inp, pos, sl)
    else if k == KwTensor then RunTensorType(inp, pos, sl)
    else if k == Identifier || k == KwSelf then RunNamedType(inp, pos)
    else Fail
  }

  function RunArrayType(inp: Input, pos: nat, sl: Switch): (r: Res)
    requires KindAt(inp, pos) == LSquare
    ensures r.Ok? ==> pos < r.end <= |inp.toks|
    decreases |inp.toks| - pos, 0
  {
    match RunType(inp, pos + 1, sl)
    case Fail => Fail
    case Ok(e, q) =>
      if KindAt(inp, q) != Semi then Fail else
      match RunExpr(inp, q + 1, 0, sl)
      case Fail => Fail
      case Ok(n, z) => Close(inp, z, RSquare, Ty(TArray(e, n)))
  }

  function RunTensorType(inp: Input, pos: nat, sl: Switch): (r: Res)
    requires KindAt(inp, pos) == KwTensor
    ensures r.Ok? ==> pos < r.end <= |inp.toks|
    decreases |inp.toks| - pos, 0
  {
    if KindAt(inp, pos + 1) != LSquare then Fail else
    match RunType(inp, pos + 2, sl)
    case Fail => Fail
    case Ok(e, q) =>
      if KindAt(inp, q) != Semi then Fail else
      match RunComma(inp, q + 1, LDims, sl)
      case LFail => Fail
      case LOk(d, tr, z) => if d.Nil? then Fail else Close(inp, z, RSquare, Ty(TTensor(e, d, tr)))
  }

  function RunNamedType(inp: Input, pos: nat): (r: Res)
    requires pos < |inp.toks|
    ensures r.Ok? ==> pos < r.end <= |inp.toks|
  {
    match RunSegs(inp, pos + 1)
    case SegFail => Fail
    case Segs(n, q) => Ok(Ty(TNamed(n)), q)
  }

  /////////////////////////// patterns ///////////////////////////

  function RunPat(inp: Input, pos: nat, sl: Switch): (r: Res)
    ensures r.Ok? ==> pos < r.end <= |inp.toks|
    decreases |inp.toks| - pos, 1
  {
    var k := KindAt(inp, pos);
    if k == Identifier then (if TokText(inp, pos) == "_" then Ok(Pt(PWild), pos + 1) else RunPathPat(inp, pos, sl))
    else if k == LParen then RunTuplePat(inp, pos, Off, 0, sl)
    else if IsLiteral(k) then Ok(Pt(PLit), pos + 1)
    else Fail
  }

  function RunPathPat(inp: Input, pos: nat, sl: Switch): (r: Res)
    requires KindAt(inp, pos) == Identifier
    ensures r.Ok? ==> pos < r.end <= |inp.toks|
    decreases |inp.toks| - pos, 0
  {
    match RunSegs(inp, pos + 1)
    case SegFail => Fail
    case Segs(n, q) =>
      if KindAt(inp, q) == LParen then RunTuplePat(inp, q, On, n, sl)
      else if KindAt(inp, q) == LBrace then
        match RunComma(inp, q + 1, LFieldPats, sl)
        case LFail => Fail
        case LOk(fs, tr, z) => Close(inp, z, RBrace, Pt(PStruct(n, fs, tr)))
      else Ok(Pt(PName(n)), q)
  }

  function RunTuplePat(inp: Input, pos: nat, named: Switch, n: nat, sl: Switch): (r: Res)
    requires KindAt(inp, pos) == LParen
    ensures r.Ok? ==> pos < r.end <= |inp.toks|
    decreases |inp.toks| - pos, 0
  {
    match RunComma(inp, pos + 1, LPats, sl)
    case LFail => Fail
    case LOk(items, tr, z) => Close(inp, z, RParen, Pt(PTuple(named, n, items, tr)))
  }

  /////////////////////////// comma lists ///////////////////////////

  // An element introduced by a field name, with an optional value behind a colon.
  function RunField(inp: Input, pos: nat, pat: Switch, sl: Switch): (r: Res)
    ensures r.Ok? ==> pos < r.end <= |inp.toks|
    decreases |inp.toks| - pos, 0
  {
    if KindAt(inp, pos) != Identifier then Fail
    else if KindAt(inp, pos + 1) != Colon then Ok(if pat.On? then Fl(PFieldShort) else Fl(FShort), pos + 1)
    else match (if pat.On? then RunPat(inp, pos + 2, sl) else RunExpr(inp, pos + 2, 0, sl))
      case Fail => Fail
      case Ok(v, q) => Ok(if pat.On? then Fl(PField(v)) else Fl(FInit(v)), q)
  }

  function RunElem(inp: Input, pos: nat, c: Class, sl: Switch): (r: Res)
    ensures r.Ok? ==> pos < r.end <= |inp.toks|
    decreases |inp.toks| - pos, 4
  {
    match c
    case CExpr => RunExpr(inp, pos, 0, sl)
    case CType => RunType(inp, pos, sl)
    case CPat => RunPat(inp, pos, sl)
    case CFieldPat => RunField(inp, pos, On, sl)
    case CFieldInit => RunField(inp, pos, Off, sl)
  }

  function RunMore(inp: Input, pos: nat, lk: ListKind, sl: Switch): (r: ListRes)
    ensures r.LOk? ==> pos <= r.end && (r.end == pos || r.end <= |inp.toks|)
    decreases |inp.toks| - pos, 0
  {
    if KindAt(inp, pos) != Comma then LOk(Nil, Off, pos)
    else if IsStop(lk, KindAt(inp, pos + 1)) then LOk(Nil, On, pos + 1)
    else match RunElem(inp, pos + 1, ClassOf(lk), sl)
      case Fail => LFail
      case Ok(e, q) =>
        match RunMore(inp, q, lk, sl)
        case LFail => LFail
        case LOk(t, tr, z) => LOk(Cons(e, t), tr, z)
  }

  function RunItems(inp: Input, pos: nat, lk: ListKind, sl: Switch): (r: ListRes)
    ensures r.LOk? ==> pos < r.end <= |inp.toks| && r.items.Cons?
    decreases |inp.toks| - pos, 5
  {
    match RunElem(inp, pos, ClassOf(lk), sl)
    case Fail => LFail
    case Ok(e, q) =>
      match RunMore(inp, q, lk, sl)
      case LFail => LFail
      case LOk(t, tr, z) => LOk(Cons(e, t), tr, z)
  }

  function RunComma(inp: Input, pos: nat, lk: ListKind, sl: Switch): (r: ListRes)
    ensures r.LOk? ==> pos <= r.end && (r.end == pos || r.end <= |inp.toks|)
    decreases |inp.toks| - pos, 6
  {
    if IsStop(lk, KindAt(inp, pos)) || KindAt(inp, pos) == Eof then LOk(Nil, Off, pos)
    else RunItems(inp, pos, lk, sl)
  }

  /////////////////////////// expressions ///////////////////////////

  function RunExpr(inp: Input, pos: nat, m: int, sl: Switch): (r: Res)
    ensures r.Ok? ==> pos < r.end <= |inp.toks|
    decreases |inp.toks| - pos, 3
  {
    match RunPrefix(inp, pos, sl)
    case Fail => Fail
    case Ok(p, q) => RunLoop(inp, q, m, sl, p)
  }

  // The Pratt loop with `lhs` already read.
  function RunLoop(inp: Input, pos: nat, m: int, sl: Switch, lhs: Syn): (r: Res)
    ensures r.Ok? ==> pos <= r.end && (r.end == pos || r.end <= |inp.toks|)
    decreases |inp.toks| - pos, 2
  {
    match RunPostfix(inp, pos, sl, lhs)
    case Fail => Fail
    case Ok(e, q) => RunInfix(inp, q, m, sl, e)
  }

  function RunInfix(inp: Input, pos: nat, m: int, sl: Switch, lhs: Syn): (r: Res)
    ensures r.Ok? ==> pos <= r.end && (r.end == pos || r.end <= |inp.toks|)
    decreases |inp.toks| - pos, 1
  {
    var k := KindAt(inp, pos);
    if LeftPower(k) < m || k == Eof then Ok(lhs, pos) else
    match RunExpr(inp, pos + 1, RightPower(k), sl)
    case Fail => Fail
    case Ok(rhs, q) => RunLoop(inp, q, m, sl, Ex(EBin(lhs, k, rhs)))
  }

  function RunPostfix(inp: Input, pos: nat, sl: Switch, lhs: Syn): (r: Res)
    ensures r.Ok? ==> pos <= r.end && (r.end == pos || r.end <= |inp.toks|)
    decreases |inp.toks| - pos, 1
  {
    if !IsPostfix(KindAt(inp, pos)) then Ok(lhs, pos) else
    match RunPostfix1(inp, pos, sl, lhs)
    case Fail => Fail
    case Ok(e, q) => RunPostfix(inp, q, sl, e)
  }

  function RunPostfix1(inp: Input, pos: nat, sl: Switch, lhs: Syn): (r: Res)
    requires IsPostfix(KindAt(inp, pos))
    ensures r.Ok? ==> pos < r.end <= |inp.toks|
    decreases |inp.toks| - pos, 0
  {
    var k := KindAt(inp, pos);
    if k == LParen then RunCall(inp, pos + 1, lhs)
    else if k == Dot then RunDot(inp, pos + 1, lhs)
    else if k == LSquare then RunIndex(inp, pos + 1, lhs)
    else if k == Question then Ok(Ex(ETry(lhs)), pos + 1)
    else RunCast(inp, pos + 1, sl, lhs)
  }

  function RunCall(inp: Input, pos: nat, lhs: Syn): (r: Res)
    ensures r.Ok? ==> pos < r.end <= |inp.toks|
    decreases |inp.toks| - pos, 7
  {
    match RunArgs(inp, pos)
    case LFail => Fail
    case LOk(args, _, q) => Close(inp, q, RParen, Ex(ECall(lhs, args)))
  }

  function RunIndex(inp: Input, pos: nat, lhs: Syn): (r: Res)
    ensures r.Ok? ==> pos < r.end <= |inp.toks|
    decreases |inp.toks| - pos, 7
  {
    match RunItems(inp, pos, LIndex, On)
    case LFail => Fail
    case LOk(items, tr, q) => Close(inp, q, RSquare, Ex(EIndex(lhs, items, tr)))
  }

  function RunCast(inp: Input, pos: nat, sl: Switch, lhs: Syn): (r: Res)
    ensures r.Ok? ==> pos < r.end <= |inp.toks|
    decreases |inp.toks| - pos, 7
  {
    match RunType(inp, pos, sl)
    case Fail => Fail
    case Ok(ty, q) => Ok(Ex(ECast(lhs, ty)), q)
  }

  // What stands behind a dot.
  function RunDot(inp: Input, pos: nat, lhs: Syn): (r: Res)
    ensures r.Ok? ==> pos < r.end <= |inp.toks|
  {
    var k := KindAt(inp, pos);
    if k == Identifier then Ok(Ex(EField(lhs)), pos + 1)
    else if k == IntegerLiteral then Ok(Ex(ETupleIdx(lhs)), pos + 1)
    else if k != FloatLiteral then Fail
    else match FloatSplit(TokText(inp, pos))
      case NoSplit => Fail
      case One(_) => Ok(Ex(EFloatIdx(lhs, false)), pos + 1)
      case Two(_, _) => Ok(Ex(EFloatIdx(lhs, true)), pos + 1)
  }

  function RunArgs(inp: Input, pos: nat): (r: ListRes)
    ensures r.LOk? ==> pos <= r.end && (r.end == pos || r.end <= |inp.toks|)
    decreases |inp.toks| - pos, 6
  {
    if KindAt(inp, pos) == RParen then LOk(Nil, Off, pos) else RunItems(inp, pos, LArgs, On)
  }

  function RunPrefix(inp: Input, pos: nat, sl: Switch): (r: Res)
    ensures r.Ok? ==> pos < r.end <= |inp.toks|
    decreases |inp.toks| - pos, 2
  {
    var k := KindAt(inp, pos);
    if IsLiteral(k) then Ok(Ex(ELit), pos + 1)
    else if k == Identifier then RunNameExpr(inp, pos, sl)
    else if k == LParen then RunParen(inp, pos)
    else if k == LSquare then RunArray(inp, pos)
    else if k == KwIf then RunIf(inp, pos, sl)
    else if k == KwWhile then RunWhile(inp, pos, sl)
    else if k == KwMatch then RunMatch(inp, pos, sl)
    else if k == KwUnsafe then RunUnsafe(inp, pos, sl)
    else if k == LBrace then RunBlock(inp, pos, sl)
    else if k == KwTensor then RunTensor(inp, pos, sl)
    else if IsPrefixOp(k) then RunUnary(inp, pos, sl)
    else Fail
  }

  function RunNameExpr(inp: Input, pos: nat, sl: Switch): (r: Res)
    requires KindAt(inp, pos) == Identifier
    ensures r.Ok? ==> pos < r.end <= |inp.toks|
    decreases |inp.toks| - pos, 1
  {
    match RunSegs(inp, pos + 1)
    case SegFail => Fail
    case Segs(n, q) =>
      if !(sl.On? && KindAt(inp, q) == LBrace) then Ok(Ex(EName(n)), q) else
      match RunComma(inp, q + 1, LFieldInits, On)
      case LFail => Fail
      case LOk(fs, tr, z) => Close(inp, z, RBrace, Ex(EStruct(n, fs, tr)))
  }

  function RunUnary(inp: Input, pos: nat, sl: Switch): (r: Res)
    requires IsPrefixOp(KindAt(inp, pos))
    ensures r.Ok? ==> pos < r.end <= |inp.toks|
    decreases |inp.toks| - pos, 1
  {
    var k := KindAt(inp, pos);
    match RunExpr(inp, pos + 1, PrefixBindingPower(k), sl)
    case Fail => Fail
    case Ok(a, q) =>
      if !(k == Star && KindAt(inp, q) == Eq) then Ok(Ex(EUnary(k, a)), q) else
      match RunExpr(inp, q + 1, 0, sl)
      case Fail => Fail
      case Ok(b, z) => Ok(Ex(EProj(a, b)), z)
  }

  function RunParen(inp: Input, pos: nat): (r: Res)
    requires KindAt(inp, pos) == LParen
    ensures r.Ok? ==> pos < r.end <= |inp.toks|
    decreases |inp.toks| - pos, 1
  {
    if KindAt(inp, pos + 1) == RParen then Ok(Ex(ETuple(Nil, Off)), pos + 2) else
    match RunExpr(inp, pos + 1, 0, On)
    case Fail => Fail
    case Ok(e, q) =>
      if KindAt(inp, q) == Comma then RunTuple(inp, q, e) else Close(inp, q, RParen, Ex(EParen(e)))
  }

  // The rest of `(` value, ... `)`, at the first comma.
  function RunTuple(inp: Input, pos: nat, first: Syn): (r: Res)
    ensures r.Ok? ==> pos < r.end <= |inp.toks|
    decreases |inp.toks| - pos, 4
  {
    match RunMore(inp, pos, LTuple, On)
    case LFail => Fail
    case LOk(t, tr, z) => Close(inp, z, RParen, Ex(ETuple(Cons(first, t), tr)))
  }

  function RunArray(inp: Input, pos: nat): (r: Res)
    requires KindAt(inp, pos) == LSquare
    ensures r.Ok? ==> pos < r.end <= |inp.toks|
    decreases |inp.toks| - pos, 1
  {
    if KindAt(inp, pos + 1) == RSquare then Ok(Ex(EArray(Nil, Off)), pos + 2) else
    match RunExpr(inp, pos + 1, 0, On)
    case Fail => Fail
    case Ok(e, q) => if KindAt(inp, q) == Semi then RunRepeat(inp, q + 1, e) else RunList(inp, q, e)
  }

  // The rest of `[` value `;` count `]` and of `[` value, ... `]`.
  function RunRepeat(inp: Input, pos: nat, first: Syn): (r: Res)
    ensures r.Ok? ==> pos < r.end <= |inp.toks|
    decreases |inp.toks| - pos, 4
  {
    match RunExpr(inp, pos, 0, On)
    case Fail => Fail
    case Ok(n, z) => Close(inp, z, RSquare, Ex(ERepeat(first, n)))
  }

  function RunList(inp: Input, pos: nat, first: Syn): (r: Res)
    ensures r.Ok? ==> pos < r.end <= |inp.toks|
    decreases |inp.toks| - pos, 4
  {
    match RunMore(inp, pos, LArray, On)
    case LFail => Fail
    case LOk(t, tr, z) => Close(inp, z, RSquare, Ex(EArray(Cons(first, t), tr)))
  }

  function RunTensor(inp: Input, pos: nat, sl: Switch): (r: Res)
    requires KindAt(inp, pos) == KwTensor
    ensures r.Ok? ==> pos < r.end <= |inp.toks|
    decreases |inp.toks| - pos, 1
  {
    if KindAt(inp, pos + 1) != LSquare then Fail else
    match RunItems(inp, pos + 2, LTensorVals, On)
    case LFail => Fail
    case LOk(vs, vt, q) =>
      if KindAt(inp, q) != Semi then Fail else
      match RunComma(inp, q + 1, LDims, sl)
      case LFail => Fail
      case LOk(ds, dt, z) =>
        if Size(ds) % 0x1_0000 == 0 then Fail else Close(inp, z, RSquare, Ex(ETensor(vs, vt, ds, dt)))
  }

  /////////////////////////// control flow and statements ///////////////////////////

  function RunIf(inp: Input, pos: nat, sl: Switch): (r: Res)
    requires KindAt(inp, pos) == KwIf
    ensures r.Ok? ==> pos < r.end <= |inp.toks|
    decreases |inp.toks| - pos, 1
  {
    match RunExpr(inp, pos + 1, 0, Off)
    case Fail => Fail
    case Ok(c, q) =>
      match RunBlock(inp, q, sl)
      case Fail => Fail
      case Ok(t, z) =>
        if KindAt(inp, z) != KwElse then Ok(Ex(EIf(c, t, Absent)), z) else RunIfElse(inp, z + 1, c, t, sl)
  }

  function RunIfElse(inp: Input, pos: nat, c: Syn, t: Syn, sl: Switch): (r: Res)
    ensures r.Ok? ==> pos < r.end <= |inp.toks|
    decreases |inp.toks| - pos, 3
  {
    match RunElse(inp, pos, sl)
    case Fail => Fail
    case Ok(e, y) => Ok(Ex(EIf(c, t, e)), y)
  }

  function RunElse(inp: Input, pos: nat, sl: Switch): (r: Res)
    ensures r.Ok? ==> pos < r.end <= |inp.toks|
    decreases |inp.toks| - pos, 2
  {
    if KindAt(inp, pos) == KwIf then RunIf(inp, pos, sl) else RunBlock(inp, pos, sl)
  }

  function RunWhile(inp: Input, pos: nat, sl: Switch): (r: Res)
    requires KindAt(inp, pos) == KwWhile
    ensures r.Ok? ==> pos < r.end <= |inp.toks|
    decreases |inp.toks| - pos, 1
  {
    match RunExpr(inp, pos + 1, 0, Off)
    case Fail => Fail
    case Ok(c, q) =>
      match RunBlock(inp, q, sl)
      case Fail => Fail
      case Ok(b, z) => Ok(Ex(EWhile(c, b)), z)
  }

  function RunMatch(inp: Input, pos: nat, sl: Switch): (r: Res)
    requires KindAt(inp, pos) == KwMatch
    ensures r.Ok? ==> pos < r.end <= |inp.toks|
    decreases |inp.toks| - pos, 1
  {
    match RunExpr(inp, pos + 1, 0, Off)
    case Fail => Fail
    case Ok(c, q) =>
      if KindAt(inp, q) != LBrace then Fail else
      match RunArms(inp, q + 1, sl)
      case LFail => Fail
      case LOk(arms, _, z) => Close(inp, z, RBrace, Ex(EMatch(c, arms)))
  }

  function RunArms(inp: Input, pos: nat, sl: Switch): (r: ListRes)
    ensures r.LOk? ==> pos <= r.end && (r.end == pos || r.end <= |inp.toks|)
    decreases |inp.toks| - pos, 3
  {
    if KindAt(inp, pos) == RBrace || KindAt(inp, pos) == Eof then LOk(Nil, Off, pos) else
    match RunArm(inp, pos, sl)
    case Fail => LFail
    case Ok(a, q) =>
      match RunArms(inp, q, sl)
      case LFail => LFail
      case LOk(t, tr, z) => LOk(Cons(a, t), tr, z)
  }

  function RunArm(inp: Input, pos: nat, sl: Switch): (r: Res)
    ensures r.Ok? ==> pos < r.end <= |inp.toks|
    decreases |inp.toks| - pos, 2
  {
    match RunPat(inp, pos, sl)
    case Fail => Fail
    case Ok(p, q) =>
      if KindAt(inp, q) != FatArrow then Fail else
      match RunExpr(inp, q + 1, 0, sl)
      case Fail => Fail
      case Ok(v, z) =>
        if KindAt(inp, z) == Comma || KindAt(inp, z) == Semi then Ok(Ar(p, v, true), z + 1) else Ok(Ar(p, v, false), z)
  }

  function RunUnsafe(inp: Input, pos: nat, sl: Switch): (r: Res)
    requires KindAt(inp, pos) == KwUnsafe
    ensures r.Ok? ==> pos < r.end <= |inp.toks|
    decreases |inp.toks| - pos, 1
  {
    if KindAt(inp, pos + 1) != LBrace then Fail else
    match RunStmts(inp, pos + 2, sl)
    case LFail => Fail
    case LOk(st, _, z) => Close(inp, z, RBrace, Ex(EUnsafe(st)))
  }

  function RunBlock(inp: Input, pos: nat, sl: Switch): (r: Res)
    ensures r.Ok? ==> pos < r.end <= |inp.toks|
    decreases |inp.toks| - pos, 0
  {
    if KindAt(inp, pos) != LBrace then Fail else
    match RunStmts(inp, pos + 1, sl)
    case LFail => Fail
    case LOk(st, _, z) => Close(inp, z, RBrace, Ex(EBlock(st)))
  }

  function RunStmts(inp: Input, pos: nat, sl: Switch): (r: ListRes)
    ensures r.LOk? ==> pos <= r.end && (r.end == pos || r.end <= |inp.toks|)
    decreases |inp.toks| - pos, 6
  {
    if KindAt(inp, pos) == RBrace || KindAt(inp, pos) == Eof then LOk(Nil, Off, pos) else
    match RunStmt(inp, pos, sl)
    case Fail => LFail
    case Ok(s, q) =>
      match RunStmts(inp, q, sl)
      case LFail => LFail
      case LOk(t, tr, z) => LOk(Cons(s, t), tr, z)
  }

  // The tokens that open an expression statement.
  predicate IsExprStmtStart(k: Kind) {
    IsLiteral(k) || k == Identifier || k == LParen || k == LSquare || IsPrefixOp(k) || k == KwTensor || k == KwMatch
  }

  function AsItem(r: Res): (w: Res) { if r.Fail? then Fail else Ok(St(SItem(r.syn)), r.end) }

  function RunStmt(inp: Input, pos: nat, sl: Switch): (r: Res)
    ensures r.Ok? ==> pos < r.end <= |inp.toks|
    decreases |inp.toks| - pos, 5
  {
    var k := KindAt(inp, pos);
    if k == KwLet then RunLet(inp, pos, sl)
    else if k == KwIf then AsItem(RunIf(inp, pos, sl))
    else if k == KwFor then RunFor(inp, pos, sl)
    else if k == KwWhile then AsItem(RunWhile(inp, pos, sl))
    else if k == LBrace then AsItem(RunBlock(inp, pos, sl))
    else if k == KwRet then RunRet(inp, pos, sl)
    else if k == KwBreak then Close(inp, pos + 1, Semi, St(SBreak))
    else if k == KwContinue then Close(inp, pos + 1, Semi, St(SContinue))
    else if k == KwUnsafe then AsItem(RunUnsafe(inp, pos, sl))
    else if !IsExprStmtStart(k) then Fail
    else match RunExpr(inp, pos, 0, sl)
      case Fail => Fail
      case Ok(e, q) => Close(inp, q, Semi, St(SExpr(e)))
  }

  function RunRet(inp: Input, pos: nat, sl: Switch): (r: Res)
    requires KindAt(inp, pos) == KwRet
    ensures r.Ok? ==> pos < r.end <= |inp.toks|
    decreases |inp.toks| - pos, 1
  {
    match RunExpr(inp, pos + 1, 0, sl)
    case Fail => Fail
    case Ok(e, q) => Close(inp, q, Semi, St(SRet(e)))
  }

  function RunLet(inp: Input, pos: nat, sl: Switch): (r: Res)
    requires KindAt(inp, pos) == KwLet
    ensures r.Ok? ==> pos < r.end <= |inp.toks|
    decreases |inp.toks| - pos, 1
  {
    var reg := IsRegime(KindAt(inp, pos + 1));
    var name := if reg then pos + 2 else pos + 1;
    if KindAt(inp, name) != Identifier then Fail else
    match RunOptType(inp, name + 1, sl)
    case Fail => Fail
    case Ok(ty, q) =>
      match RunOptInit(inp, q, sl)
      case Fail => Fail
      case Ok(init, z) => Close(inp, z, Semi, St(SLet(reg, ty, init)))
  }

  function RunOptType(inp: Input, pos: nat, sl: Switch): (r: Res)
    ensures r.Ok? ==> pos <= r.end && (r.end == pos || r.end <= |inp.toks|)
    decreases |inp.toks| - pos, 0
  {
    if KindAt(inp, pos) == Colon then RunType(inp, pos + 1, sl) else Ok(Absent, pos)
  }

  function RunOptInit(inp: Input, pos: nat, sl: Switch): (r: Res)
    ensures r.Ok? ==> pos <= r.end && (r.end == pos || r.end <= |inp.toks|)
    decreases |inp.toks| - pos, 0
  {
    if KindAt(inp, pos) == Eq then RunExpr(inp, pos + 1, 0, sl) else Ok(Absent, pos)
  }

  function RunFor(inp: Input, pos: nat, sl: Switch): (r: Res)
    requires KindAt(inp, pos) == KwFor
    ensures r.Ok? ==> pos < r.end <= |inp.toks|
    decreases |inp.toks| - pos, 1
  {
    var reg := IsRegime(KindAt(inp, pos + 1));
    var name := if reg then pos + 2 else pos + 1;
    if KindAt(inp, name) != Identifier || KindAt(inp, name + 1) != KwIn then Fail else
    match RunExpr(inp, name + 2, 0, Off)
    case Fail => Fail
    case Ok(it, q) =>
      match RunBlock(inp, q, sl)
      case Fail => Fail
      case Ok(b, z) => Ok(St(SFor(reg, it, b)), z)
  }
}
