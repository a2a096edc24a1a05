/** `x.0.1.2`: the lexer fuses the numbers pairwise into float tokens, and the parser takes them apart. */
module ChainedIndex {
  import opened Tokens
  import opened Trees
  import opened Grammar
  import opened Spelling
  import opened ErrorFree
  import opened Outcomes
  import opened Productions
  import opened Lexing
  import opened LexerLaws
  import opened LexerTrips
  import opened LexerClasses
  import opened TokenStreams

  predicate IsRun(d: string) { d != "" && forall k :: 0 <= k < |d| ==> IsDigit(d[k]) }

  predicate AllRuns(ds: seq<string>) { forall k :: 0 <= k < |ds| ==> IsRun(ds[k]) }

  // `.d1.d2...`
  function Dots(ds: seq<string>): string { if ds == [] then "" else "." + (ds[0] + Dots(ds[1..])) }

  /////////////////////////// taking a float token apart ///////////////////////////

  // Digits behind the point at `z`, without the suffix.
  function FracText(t: string, z: nat): string
    requires z + 1 < |t|
  {
    if t[|t| - 1] == 'f' then t[z + 1..|t| - 1] else t[z + 1..]
  }

  // A separator stands behind the point at `z`.
  predicate LosesSecond(t: string, z: nat) { exists k :: z < k < |t| && t[k] == '_' }

  /** A float token with its point at `z` gives two indices, unless a separator stands behind the point:
      then its second part is lost. */
  lemma FractionSplit(t: string, z: nat)
    requires IsFraction(t, z)
    ensures FloatSplit(t) == if LosesSecond(t, z) then One(t[..z]) else Two(t[..z], FracText(t, z))
  {
    hide IsSeparated;
    PointAt(t, z);
    var (rest, frac) := (t[z + 1..], FracText(t, z));
    assert rest[..|rest| - 1] == t[z + 1..|t| - 1];
    if k :| z < k < |t| && t[k] == '_' { assert frac[k - z - 1] == '_'; }
  }

  lemma PointAt(t: string, z: nat)
    requires IsFraction(t, z)
    ensures Find(t, '.', 0) == z
  {
    SeparatedNoDot(t, 1, z, Off);
  }

  lemma {:induction false} SeparatedNoDot(t: string, i: nat, z: nat, und: Switch)
    requires i <= z <= |t| && IsSeparated(t, i, z, Off, und)
    ensures forall k :: i <= k < z ==> t[k] != '.'
    decreases z - i
  {
    if i < z { SeparatedNoDot(t, i + 1, z, if IsDigit(t[i]) then Off else On); }
  }

  /** What becomes of any float token behind a dot: without a point no index is made, and one number of
      two is dropped exactly when the token has a separator behind its point. */
  lemma SplitIff(t: string)
    requires IsLexeme(t, FloatLiteral)
    ensures FloatSplit(t).NoSplit? <==> IsSuffixed(t)
    ensures FloatSplit(t).One? <==> exists z: nat :: IsFraction(t, z) && LosesSecond(t, z)
  {
    hide IsLexeme, FloatSplit, IsSuffixed;
    FloatIff(t);
    if IsSuffixed(t) { SuffixedSplit(t); }
    forall z: nat | IsFraction(t, z)
      ensures FloatSplit(t) == if LosesSecond(t, z) then One(t[..z]) else Two(t[..z], FracText(t, z))
    {
      FractionSplit(t, z);
    }
  }

  lemma SuffixedSplit(t: string)
    requires IsSuffixed(t)
    ensures FloatSplit(t).NoSplit? && forall z :: !IsFraction(t, z)
  {
    SeparatedNoDot(t, 1, |t| - 1, Off);
  }

  // A float token that loses its second number.
  lemma SecondDropped()
    ensures IsLexeme("0.1_0", FloatLiteral) && FloatSplit("0.1_0") == One("0")
  {
    hide IsLexeme, FloatSplit;
    assert IsFraction("0.1_0", 1) && "0.1_0"[3] == '_' && "0.1_0"[..1] == "0";
    FloatIff("0.1_0");
    FractionSplit("0.1_0", 1);
  }

  /////////////////////////// lexing ///////////////////////////

  // The tokens of the dotted numbers from offset `p` on: two numbers to a float token.
  function DotItems(ds: seq<string>, p: nat): seq<Item> {
    if ds == [] then []
    else if |ds| == 1 then [Tok(Token(Dot, Span(p, p + 1))), Tok(Token(IntegerLiteral, Span(p + 1, p + 1 + |ds[0]|)))]
    else
      var z := p + 2 + |ds[0]| + |ds[1]|;
      [Tok(Token(Dot, Span(p, p + 1))), Tok(Token(FloatLiteral, Span(p + 1, z)))] + DotItems(ds[2..], z)
  }

  lemma {:induction false} RunsOfDigits(s: string, i: nat, z: nat)
    requires i <= z <= |s| && (forall k :: i <= k < z ==> IsDigit(s[k])) && (z < |s| ==> s[z] == '.')
    ensures IntPart(s, i, |s|, Off, Off) == IntScan(z, 0, false) && FracEnd(s, i, |s|) == z
    decreases z - i
  {
    if i < z { RunsOfDigits(s, i + 1, z); }
  }

  // A number with no number behind it, and one with.
  lemma LastNumber(s: string, p: nat, d: string)
    requires IsRun(d) && LexerTrips.Stands(s, p, d) && p + |d| == |s|
    ensures LexOne(s, p, |s|) == Lexeme([Tok(Token(IntegerLiteral, Span(p, |s|)))], |s|)
  {
    hide IntPart;
    assert s[p + 0] == d[0];
    forall k | p <= k < |s| ensures IsDigit(s[k]) { assert s[p + (k - p)] == d[k - p]; }
    RunsOfDigits(s, p + 1, |s|);
    assert s[|s| - 1] != '_';
  }

  lemma FusedNumbers(s: string, p: nat, d: string, f: string)
    requires IsRun(d) && IsRun(f) && LexerTrips.Stands(s, p, d + ("." + f))
    requires var z := p + |d| + 1 + |f|; z < |s| ==> s[z] == '.'
    ensures var z := p + |d| + 1 + |f|; LexOne(s, p, |s|) == Lexeme([Tok(Token(FloatLiteral, Span(p, z)))], z)
  {
    hide IntPart, FracEnd;
    LexerTrips.StandsCat(s, p, d, "." + f);
    LexerTrips.StandsCat(s, p + |d|, ".", f);
    var y := p + |d|;
    assert s[p + 0] == d[0] && s[y + 0] == "."[0] && s[y + 1 + 0] == f[0];
    forall k | p <= k < y ensures IsDigit(s[k]) { assert s[p + (k - p)] == d[k - p]; }
    forall k | y + 1 <= k < y + 1 + |f| ensures IsDigit(s[k]) { assert s[y + 1 + (k - y - 1)] == f[k - y - 1]; }
    IntRun(s, p + 1, y);
    RunsOfDigits(s, y + 1, y + 1 + |f|);
  }

  lemma {:induction false} IntRun(s: string, i: nat, z: nat)
    requires i <= z < |s| && (forall k :: i <= k < z ==> IsDigit(s[k])) && s[z] == '.'
    ensures IntPart(s, i, |s|, Off, Off) == IntScan(z, 0, false)
    decreases z - i
  {
    if i < z { IntRun(s, i + 1, z); }
  }

  lemma DotFirst(s: string, p: nat)
    requires p < |s| && s[p] == '.'
    ensures LexOne(s, p, |s|) == Lexeme([Tok(Token(Dot, Span(p, p + 1)))], p + 1) && SkipWs(s, p, |s|) == p
  {
  }

  lemma DigitFirst(s: string, p: nat)
    requires p < |s| && IsDigit(s[p])
    ensures SkipWs(s, p, |s|) == p
  {
  }

  lemma DotsHead(ds: seq<string>)
    requires ds != []
    ensures |Dots(ds)| > 0 && Dots(ds)[0] == '.'
  {
  }

  // The first number of the rest of the text, behind its dot, and what follows it.
  lemma DotStep(s: string, p: nat, ds: seq<string>)
    requires ds != [] && AllRuns(ds) && LexerTrips.Stands(s, p, Dots(ds)) && p + |Dots(ds)| == |s|
    ensures s[p] == '.' && LexerTrips.Stands(s, p + 1, ds[0]) && IsRun(ds[0]) && AllRuns(ds[1..])
    ensures LexerTrips.Stands(s, p + 1 + |ds[0]|, Dots(ds[1..])) && p + 1 + |ds[0]| + |Dots(ds[1..])| == |s|
  {
    LexerTrips.StandsCat(s, p, ".", ds[0] + Dots(ds[1..]));
    assert s[p + 0] == "."[0];
    LexerTrips.StandsCat(s, p + 1, ds[0], Dots(ds[1..]));
  }

  // The dot and the lexeme behind it.
  lemma DotTurn(s: string, p: nat, ds: seq<string>)
    requires ds != [] && AllRuns(ds) && LexerTrips.Stands(s, p, Dots(ds)) && p + |Dots(ds)| == |s|
    ensures p + 1 < |s|
    ensures var l := LexOne(s, p + 1, |s|);
            LexFrom(s, p, |s|) == [Tok(Token(Dot, Span(p, p + 1)))] + (l.items + LexFrom(s, l.end, |s|))
  {
    hide LexOne, LexFrom, SkipWs, LexerTrips.Stands, IsRun, IsDigit;
    DotStep(s, p, ds);
    DotFirst(s, p);
    LexTurn(s, p, |s|);
    RunFirst(s, p + 1, ds[0]);
    DigitFirst(s, p + 1);
    LexTurn(s, p + 1, |s|);
  }

  // Two numbers are one lexeme, and the other numbers stand behind it.
  lemma TwoNumbers(s: string, p: nat, ds: seq<string>)
    requires |ds| >= 2 && AllRuns(ds) && LexerTrips.Stands(s, p, Dots(ds)) && p + |Dots(ds)| == |s|
    ensures var z := p + 2 + |ds[0]| + |ds[1]|;
            && z + |Dots(ds[2..])| == |s| && LexerTrips.Stands(s, z, Dots(ds[2..])) && AllRuns(ds[2..])
            && LexOne(s, p + 1, |s|) == Lexeme([Tok(Token(FloatLiteral, Span(p + 1, z)))], z)
  {
    hide LexOne, LexerTrips.Stands, IsRun, IsDigit;
    var (d, f) := (ds[0], ds[1]);
    DotStep(s, p, ds);
    DotStep(s, p + 1 + |d|, ds[1..]);
    assert ds[1..][1..] == ds[2..];
    if |ds| > 2 { DotStep(s, p + 2 + |d| + |f|, ds[2..]); }
    Together(s, p + 1, d, f);
    FusedNumbers(s, p + 1, d, f);
  }

  lemma {:induction false} LexDots(s: string, p: nat, ds: seq<string>)
    requires AllRuns(ds) && LexerTrips.Stands(s, p, Dots(ds)) && p + |Dots(ds)| == |s|
    ensures LexFrom(s, p, |s|) == DotItems(ds, p)
    decreases |ds|
  {
    hide LexOne, LexFrom, LexerTrips.Stands, IsRun;
    if ds == [] { EmptyRange(s, p); return; }
    DotTurn(s, p, ds);
    if |ds| == 1 {
      DotStep(s, p, ds);
      LastNumber(s, p + 1, ds[0]);
      EmptyRange(s, |s|);
    } else {
      TwoNumbers(s, p, ds);
      LexDots(s, p + 2 + |ds[0]| + |ds[1]|, ds[2..]);
    }
  }

  lemma RunFirst(s: string, p: nat, d: string)
    requires IsRun(d) && LexerTrips.Stands(s, p, d)
    ensures p < |s| && IsDigit(s[p])
  {
    assert s[p + 0] == d[0];
  }

  lemma Together(s: string, p: nat, d: string, f: string)
    requires LexerTrips.Stands(s, p, d) && p + |d| < |s| && s[p + |d|] == '.' && LexerTrips.Stands(s, p + |d| + 1, f)
    ensures LexerTrips.Stands(s, p, d + ("." + f))
  {
    var t := d + ("." + f);
    forall k | 0 <= k < |t| ensures s[p + k] == t[k] {
      if k > |d| { assert s[p + |d| + 1 + (k - |d| - 1)] == f[k - |d| - 1]; }
    }
  }

  // A word in front.
  lemma NameFirst(s: string, x: string)
    requires IsWord(x) && !IsReserved(x) && WordKind(x) == Identifier && LexerTrips.Stands(s, 0, x)
    requires |x| < |s| ==> s[|x|] == '.'
    ensures SkipWs(s, 0, |s|) == 0 && LexOne(s, 0, |s|) == Lexeme([Tok(Token(Identifier, Span(0, |x|)))], |x|)
  {
    hide WordKind, IsReserved, WordEnd;
    assert s[0 + 0] == x[0];
    assert s[0..|x|] == x;
    WordStops(s, 1, x);
  }

  lemma {:induction false} WordStops(s: string, i: nat, x: string)
    requires IsWord(x) && LexerTrips.Stands(s, 0, x) && (|x| < |s| ==> s[|x|] == '.') && i <= |x|
    ensures WordEnd(s, i, |s|) == |x|
    decreases |x| - i
  {
    if i < |x| { assert s[0 + i] == x[i]; WordStops(s, i + 1, x); }
  }

  function Chain(x: string, ds: seq<string>): string { x + Dots(ds) }

  lemma LexChain(x: string, ds: seq<string>)
    requires IsWord(x) && !IsReserved(x) && WordKind(x) == Identifier && AllRuns(ds)
    ensures var s := Chain(x, ds);
            Lex(s, 0, |s|) == [Tok(Token(Identifier, Span(0, |x|)))] + DotItems(ds, |x|) + [EofItem(|s|)]
  {
    hide LexOne, LexFrom, SkipWs, WordKind, IsReserved, IsWord;
    var s := Chain(x, ds);
    LexerTrips.StandsCat(s, 0, x, Dots(ds));
    if ds != [] { DotsHead(ds); assert s[|x| + 0] == Dots(ds)[0]; }
    NameFirst(s, x);
    assert |x| > 0 by { Lengthy(x); }
    LexTurn(s, 0, |s|);
    LexDots(s, |x|, ds);
  }

  lemma Lengthy(x: string)
    requires IsWord(x)
    ensures |x| > 0
  {
  }

  /////////////////////////// tokens ///////////////////////////

  // The tokens from `pos` on are a dot and a number for each of `ds`, two numbers to a float.
  ghost predicate Dotted(inp: Input, pos: nat, ds: seq<string>)
    decreases |ds|
  {
    if ds == [] then KindAt(inp, pos) == Eof
    else if |ds| == 1 then
      KindAt(inp, pos) == Dot && KindAt(inp, pos + 1) == IntegerLiteral && TokText(inp, pos + 1) == ds[0]
        && KindAt(inp, pos + 2) == Eof
    else
      && KindAt(inp, pos) == Dot && KindAt(inp, pos + 1) == FloatLiteral
      && TokText(inp, pos + 1) == ds[0] + ("." + ds[1])
      && Dotted(inp, pos + 2, ds[2..])
  }

  predicate NoComments(items: seq<Item>) {
    forall k :: 0 <= k < |items| ==> items[k].Tok? && items[k].t.kind != CommentTok
  }

  lemma {:induction false} StreamAll(items: seq<Item>)
    requires NoComments(items)
    ensures |Stream(items)| == |items| && forall k :: 0 <= k < |items| ==> Stream(items)[k] == items[k].t
    decreases |items|
  {
    if items != [] {
      StreamAll(items[1..]);
      assert Stream(items) == [items[0].t] + Stream(items[1..]);
    }
  }

  lemma {:induction false} ItemsPlain(ds: seq<string>, p: nat)
    ensures NoComments(DotItems(ds, p))
    decreases |ds|
  {
    if |ds| > 1 { ItemsPlain(ds[2..], p + 2 + |ds[0]| + |ds[1]|); }
  }

  lemma TextAt(s: string, p: nat, t: string)
    requires LexerTrips.Stands(s, p, t) && |s| < 0x1_0000_0000
    ensures TextOf(s, Span(p, p + |t|)) == t
  {
    assert s[p..p + |t|] == t;
  }

  // The items sit in the stream from `pos` on, and the end of file behind them.
  lemma {:induction false} DottedStream(inp: Input, pos: nat, ds: seq<string>, p: nat)
    requires AllRuns(ds) && |inp.src| < 0x1_0000_0000
    requires LexerTrips.Stands(inp.src, p, Dots(ds)) && p + |Dots(ds)| == |inp.src|
    requires pos + |DotItems(ds, p)| < |inp.toks| && KindAt(inp, pos + |DotItems(ds, p)|) == Eof
    requires forall k :: 0 <= k < |DotItems(ds, p)| ==> DotItems(ds, p)[k] == Tok(inp.toks[pos + k])
    ensures Dotted(inp, pos, ds)
    decreases |ds|
  {
    hide LexerTrips.Stands, TextOf, Dots;
    if ds != [] {
      var items := DotItems(ds, p);
      var s := inp.src;
      DotStep(s, p, ds);
      assert items[0] == Tok(inp.toks[pos + 0]) && items[1] == Tok(inp.toks[pos + 1]);
      if |ds| == 1 {
        TextAt(s, p + 1, ds[0]);
      } else {
        var y := p + 1 + |ds[0]|;
        DotStep(s, y, ds[1..]);
        assert ds[1..][1..] == ds[2..];
        Together(s, p + 1, ds[0], ds[1]);
        TextAt(s, p + 1, ds[0] + ("." + ds[1]));
        var z := y + 1 + |ds[1]|;
        var rest := DotItems(ds[2..], z);
        forall k | 0 <= k < |rest| ensures rest[k] == Tok(inp.toks[pos + 2 + k]) {
          assert items[2 + k] == rest[k];
          assert items[2 + k] == Tok(inp.toks[pos + (2 + k)]);
        }
        DottedStream(inp, pos + 2, ds[2..], z);
      }
    }
  }

  /////////////////////////// parsing ///////////////////////////

  // The syntax that grows on `s` number by number, pair by pair.
  function Grow(s: Syn, ds: seq<string>): Syn
    decreases |ds|
  {
    if ds == [] then s else if |ds| == 1 then Ex(ETupleIdx(s)) else Grow(Ex(EFloatIdx(s, true)), ds[2..])
  }

  /** `n` nested tuple indices on `base`, with the texts of `ds` in order, the last outermost. */
  predicate IsIndexed(t: Tree, base: Tree, ds: seq<string>)
    decreases |ds|
  {
    if ds == [] then t == base else
    && t.Tree? && t.kind == TupleIndexExpr && t.payload == Name(ds[|ds| - 1]) && |t.kids| == 1
    && IsIndexed(t.kids[0], base, ds[..|ds| - 1])
  }

  lemma SplitFused(d: string, f: string)
    requires IsRun(d) && IsRun(f)
    ensures FloatSplit(d + ("." + f)) == Split.Two(d, f)
  {
    var t := d + ("." + f);
    var i := Find(t, '.', 0);
    assert t[|d|] == '.';
    assert forall k :: 0 <= k < |d| ==> t[k] == d[k] && IsDigit(d[k]);
    assert i == |d|;
    assert t[i + 1..] == f && t[..i] == d;
    assert IsDigit(f[|f| - 1]);
    assert AllDigits(f);
  }

  // Indices in a row are indices in a row.
  lemma {:induction false} IndexedMore(t: Tree, mid: Tree, base: Tree, a: seq<string>, b: seq<string>)
    requires IsIndexed(mid, base, a) && IsIndexed(t, mid, b)
    ensures IsIndexed(t, base, a + b)
    decreases |b|
  {
    if b == [] {
      assert a + b == a;
    } else {
      IndexedMore(t.kids[0], mid, base, a, b[..|b| - 1]);
      assert (a + b)[..|a + b| - 1] == a + b[..|b| - 1];
    }
  }

  lemma {:induction false} ParseDots(inp: Input, start: nat, pos: nat, sl: Switch, s: Syn, ds: seq<string>)
    returns (end: nat)
    requires AllRuns(ds) && Dotted(inp, pos, ds) && M(inp, start, s) == pos
    ensures RunPostfix(inp, pos, sl, s) == Ok(Grow(s, ds), end) && KindAt(inp, end) == Eof
    ensures M(inp, start, Grow(s, ds)) == end && IsIndexed(Ast(inp, start, Grow(s, ds)), Ast(inp, start, s), ds)
    decreases |ds|
  {
    hide M, Ast, TokText, FloatSplit, IsRun;
    if ds == [] {
      end := pos;
    } else if |ds| == 1 {
      end := pos + 2;
      OneIndex(inp, start, pos, s);
      StopsAtEof(inp, end, sl, Ex(ETupleIdx(s)));
      IndexedOnce(inp, start, s, ds);
    } else {
      SplitFused(ds[0], ds[1]);
      TwoIndices(inp, start, pos, s, ds[0], ds[1]);
      var next := Ex(EFloatIdx(s, true));
      end := ParseDots(inp, start, pos + 2, sl, next, ds[2..]);
      assert ds == ds[..2] + ds[2..];
      assert ds[..2] == [ds[0], ds[1]];
      IndexedMore(Ast(inp, start, Grow(s, ds)), Ast(inp, start, next), Ast(inp, start, s), ds[..2], ds[2..]);
    }
  }

  lemma StopsAtEof(inp: Input, pos: nat, sl: Switch, s: Syn)
    requires KindAt(inp, pos) == Eof
    ensures RunPostfix(inp, pos, sl, s) == Ok(s, pos)
  {
  }

  lemma OneIndex(inp: Input, start: nat, pos: nat, s: Syn)
    requires M(inp, start, s) == pos && KindAt(inp, pos) == Dot && KindAt(inp, pos + 1) == IntegerLiteral
    ensures RunDot(inp, pos + 1, s) == Ok(Ex(ETupleIdx(s)), pos + 2)
    ensures M(inp, start, Ex(ETupleIdx(s))) == pos + 2
    ensures Ast(inp, start, Ex(ETupleIdx(s)))
            == Node(TupleIndexExpr, SpanOf(Ast(inp, start, s)).start, EndOf(inp, pos + 1), Name(TokText(inp, pos + 1)),
                    [Ast(inp, start, s)])
  {
    var b := Out(true, pos, Ast(inp, start, s));
    var t := Node(TupleIndexExpr, SpanOf(b.tree).start, EndOf(inp, pos + 1), Name(TokText(inp, pos + 1)), [b.tree]);
    hide M, Ast, TokText;
    LinkTupleIndex(inp, start, s, b, Out(true, pos + 2, t));
  }

  lemma IndexedOnce(inp: Input, start: nat, s: Syn, ds: seq<string>)
    requires |ds| == 1 && M(inp, start, s) >= 0
    requires var t := Ast(inp, start, Ex(ETupleIdx(s)));
             t.Tree? && t.kind == TupleIndexExpr && t.payload == Name(ds[0]) && t.kids == [Ast(inp, start, s)]
    ensures IsIndexed(Ast(inp, start, Ex(ETupleIdx(s))), Ast(inp, start, s), ds)
  {
    hide M, Ast;
  }

  lemma TwoIndices(inp: Input, start: nat, pos: nat, s: Syn, d: string, f: string)
    requires M(inp, start, s) == pos && KindAt(inp, pos) == Dot && KindAt(inp, pos + 1) == FloatLiteral
    requires FloatSplit(TokText(inp, pos + 1)) == Split.Two(d, f)
    ensures RunDot(inp, pos + 1, s) == Ok(Ex(EFloatIdx(s, true)), pos + 2)
    ensures M(inp, start, Ex(EFloatIdx(s, true))) == pos + 2
    ensures IsIndexed(Ast(inp, start, Ex(EFloatIdx(s, true))), Ast(inp, start, s), [d, f])
  {
    hide M, Ast, TokText, FloatSplit;
    var b := Out(true, pos, Ast(inp, start, s));
    var inner := Node(TupleIndexExpr, SpanOf(b.tree).start, EndOf(inp, pos + 1), Name(d), [b.tree]);
    var outer := Node(TupleIndexExpr, SpanOf(b.tree).start, EndOf(inp, pos + 1), Name(f), [inner]);
    LinkFloatIndex(inp, start, s, b, Out(true, pos + 2, outer), inner);
    TwoLevels(outer, inner, b.tree, d, f);
  }

  lemma TwoLevels(outer: Tree, inner: Tree, base: Tree, d: string, f: string)
    requires outer.Tree? && outer.kind == TupleIndexExpr && outer.payload == Name(f) && outer.kids == [inner]
    requires inner.Tree? && inner.kind == TupleIndexExpr && inner.payload == Name(d) && inner.kids == [base]
    ensures IsIndexed(outer, base, [d, f])
  {
    assert [d, f][..1] == [d] && [d][..0] == [];
    assert IsIndexed(inner, base, [d]);
  }

  // A name at the start of the stream.
  lemma ParseName(inp: Input, sl: Switch)
    requires KindAt(inp, 0) == Identifier && KindAt(inp, 1) != ColonColon && KindAt(inp, 1) != LBrace
    ensures RunPrefix(inp, 0, sl) == Ok(Ex(EName(0)), 1) && M(inp, 0, Ex(EName(0))) == 1
    ensures var sp := Span(StartOf(inp, 0), EndOf(inp, 0));
            Ast(inp, 0, Ex(EName(0))) == Leaf(IdentExpr, sp, Name(TextOf(inp.src, sp)))
  {
    hide TextOf;
    PrefixCases(inp, 0, sl);
    var sp := Span(StartOf(inp, 0), EndOf(inp, 0));
    LinkName(inp, 0, sl, true, 0, 1, Leaf(IdentExpr, sp, Name(TextOf(inp.src, sp))));
  }

  // The tokens of the text: the name, then the dotted numbers up to the end.
  lemma ChainTokens(x: string, ds: seq<string>)
    requires IsWord(x) && !IsReserved(x) && WordKind(x) == Identifier && AllRuns(ds)
    requires |Chain(x, ds)| < 0x1_0000_0000
    ensures var s := Chain(x, ds);
            var items := Lex(s, 0, |s|);
            var inp := Input(Stream(items), s);
            && IsClean(items) && |inp.toks| > 0 && inp.toks[0] == Token(Identifier, Span(0, |x|))
            && TextOf(s, Span(0, |x|)) == x && Dotted(inp, 1, ds)
  {
    hide LexFrom, Lex, WordKind, IsReserved, IsWord, Stream, Dotted, Dots, TextOf, DotItems, IsRun,
         LexerTrips.Stands;
    var s := Chain(x, ds);
    var items := Lex(s, 0, |s|);
    LexChain(x, ds);
    ItemsPlain(ds, |x|);
    StreamAll(items);
    var inp := Input(Stream(items), s);
    LexerTrips.StandsCat(s, 0, x, Dots(ds));
    var mid := DotItems(ds, |x|);
    forall k | 0 <= k < |mid| ensures mid[k] == Tok(inp.toks[1 + k]) { assert items[1 + k] == mid[k]; }
    DottedStream(inp, 1, ds, |x|);
    TextAt(s, 0, x);
    assert inp.toks[0] == items[0].t;
  }

  /** For every name and every sequence of digit runs, the text `x.d1.d2...dn` lexes without errors,
      and its tokens parse without diagnostics, up to the end of the file, to `n` left-nested tuple
      indices on the name with the texts `d1` to `dn` in order. */
  lemma ChainedTupleIndices(x: string, ds: seq<string>, sl: Switch)
    requires IsWord(x) && !IsReserved(x) && WordKind(x) == Identifier && AllRuns(ds)
    requires |Chain(x, ds)| < 0x1_0000_0000
    ensures var s := Chain(x, ds);
            var items := Lex(s, 0, |s|);
            var inp := Input(Stream(items), s);
            var r := RunExpr(inp, 0, 0, sl);
            && IsClean(items) && r.Ok? && KindAt(inp, r.end) == Eof
            && IsIndexed(Ast(inp, 0, r.syn), Leaf(IdentExpr, Span(0, |x|), Name(x)), ds)
  {
    hide Lex, M, Ast, WordKind, IsReserved, IsWord, Stream, RunPostfix, RunPrefix, Dotted, IsIndexed, TextOf, Chain,
         IsClean, IsRun;
    var s := Chain(x, ds);
    var inp := Input(Stream(Lex(s, 0, |s|)), s);
    ChainTokens(x, ds);
    DottedFirst(inp, 1, ds);
    ParseName(inp, sl);
    var end := ParseDots(inp, 0, 1, sl, Ex(EName(0)), ds);
    LoopStep(inp, 1, 0, sl, Ex(EName(0)));
    Enough(inp, 0, sl);
  }

  lemma DottedFirst(inp: Input, pos: nat, ds: seq<string>)
    requires Dotted(inp, pos, ds)
    ensures KindAt(inp, pos) == Eof || KindAt(inp, pos) == Dot
  {
  }

  // The whole expression is the prefix and then the loop.
  lemma Enough(inp: Input, pos: nat, sl: Switch)
    ensures var p := RunPrefix(inp, pos, sl); p.Ok? ==> RunExpr(inp, pos, 0, sl) == RunLoop(inp, p.end, 0, sl, p.syn)
  {
    hide RunPrefix, RunLoop;
  }
}
