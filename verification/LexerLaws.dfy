/** What lexing promises: ranges that tile the source, tokens in order, and re-lexing of parts. */
module LexerLaws {
  import opened Tokens
  import opened Lexing

  /////////////////////////// tiling ///////////////////////////

  // The byte ranges that the turns of the main loop consume behind white space.
  function Ranges(s: string, i: nat, e: nat): seq<Span>
    requires i <= e <= |s|
    decreases e - i
  {
    var p := SkipWs(s, i, e);
    if p >= e then [] else
    var z := LexOne(s, p, e).end;
    [Span(p, z)] + Ranges(s, z, e)
  }

  ghost predicate Covered(rs: seq<Span>, k: nat) { exists j :: 0 <= j < |rs| && rs[j].start <= k < rs[j].end }

  // Proper ranges between two offsets, in order and disjoint, that start at no white space.
  ghost predicate Rising(s: string, rs: seq<Span>, lo: nat, hi: nat)
    requires hi <= |s|
  {
    && (forall j :: 0 <= j < |rs| ==> lo <= rs[j].start < rs[j].end <= hi && !IsSpace(s[rs[j].start]))
    && (forall j, k :: 0 <= j < k < |rs| ==> rs[j].end <= rs[k].start)
  }

  lemma {:induction false} RangesInOrder(s: string, i: nat, e: nat)
    requires i <= e <= |s|
    ensures Rising(s, Ranges(s, i, e), i, e)
    decreases e - i
  {
    hide LexOne, Rising;
    var p := SkipWs(s, i, e);
    if p < e {
      var z := LexOne(s, p, e).end;
      RangesInOrder(s, z, e);
      RisingCons(s, Ranges(s, z, e), i, p, z, e);
    } else {
      RisingNone(s, i, e);
    }
  }

  lemma RisingNone(s: string, lo: nat, hi: nat)
    requires hi <= |s|
    ensures Rising(s, [], lo, hi)
  {
  }

  lemma RisingCons(s: string, rest: seq<Span>, lo: nat, p: nat, z: nat, hi: nat)
    requires lo <= p < z <= hi <= |s| && !IsSpace(s[p]) && Rising(s, rest, z, hi)
    ensures Rising(s, [Span(p, z)] + rest, lo, hi)
  {
    var rs := [Span(p, z)] + rest;
    assert forall j :: 0 < j < |rs| ==> rs[j] == rest[j - 1];
  }

  lemma {:induction false} RangesCover(s: string, i: nat, e: nat, k: nat)
    requires i <= k < e <= |s| && !IsSpace(s[k])
    ensures Covered(Ranges(s, i, e), k)
    decreases e - i
  {
    hide LexOne;
    var p := SkipWs(s, i, e);
    var rs, z := Ranges(s, i, e), LexOne(s, p, e).end;
    assert rs[0] == Span(p, z);
    if k < z {
      assert rs[0].start <= k < rs[0].end;
    } else {
      RangesCover(s, z, e, k);
      var rest := Ranges(s, z, e);
      var j :| 0 <= j < |rest| && rest[j].start <= k < rest[j].end;
      assert rs[j + 1] == rest[j];
    }
  }

  /** The ranges are nonempty, in order and disjoint, start at no white space, and cover every byte
      that is no white space. */
  lemma Tiling(s: string, i: nat, e: nat)
    requires i <= e <= |s|
    ensures Rising(s, Ranges(s, i, e), i, e)
    ensures forall k :: i <= k < e && !IsSpace(s[k]) ==> Covered(Ranges(s, i, e), k)
  {
    hide LexOne, Ranges, Covered, Rising;
    RangesInOrder(s, i, e);
    forall k | i <= k < e && !IsSpace(s[k]) ensures Covered(Ranges(s, i, e), k) { RangesCover(s, i, e, k); }
  }

  /////////////////////////// tokens ///////////////////////////

  predicate IsClean(items: seq<Item>) { forall k :: 0 <= k < |items| ==> items[k].Tok? }

  // The token of a lexeme, if it has one, comes last and covers it exactly.
  lemma LexemeShape(s: string, p: nat, e: nat)
    requires p < e <= |s|
    ensures var l := LexOne(s, p, e);
            && |l.items| > 0
            && (forall k :: 0 <= k < |l.items| - 1 ==> l.items[k].Err?)
            && (var last := l.items[|l.items| - 1]; last.Tok? ==> last.t.span == Span(p, l.end) && last.t.kind != Eof)
  {
    hide BlockScan, WordEnd, IntPart, FracEnd, WordKind, IsReserved;
    var c := s[p];
    if c == '"' { QuoteErrs(s, p + 1, e, '"'); }
    else if c == '\'' { QuoteErrs(s, p + 1, e, '\''); }
    else if IsWordStart(c) { KeywordKind(s[p..LexOne(s, p, e).end]); }
  }

  lemma KeywordKind(w: string)
    ensures WordKind(w) != Eof
  {
  }

  lemma {:induction false} QuoteErrs(s: string, i: nat, e: nat, quote: char)
    requires i <= e <= |s|
    ensures forall k :: 0 <= k < |QuoteScan(s, i, e, quote).errs| ==> QuoteScan(s, i, e, quote).errs[k].Err?
    decreases e - i
  {
    if i < e && s[i] == '\\' && i + 1 < e {
      QuoteErrs(s, Escape(s, i, e).end, e, quote);
    } else if i < e && s[i] != quote && !IsNewline(s[i]) && s[i] != '\\' {
      QuoteErrs(s, i + 1, e, quote);
    }
  }

  // The tokens among the items.
  function TokensOf(items: seq<Item>): seq<Token> {
    if items == [] then [] else (if items[0].Tok? then [items[0].t] else []) + TokensOf(items[1..])
  }

  lemma {:induction false} TokensCat(a: seq<Item>, b: seq<Item>)
    ensures TokensOf(a + b) == TokensOf(a) + TokensOf(b)
    decreases |a|
  {
    if a == [] {
      assert a + b == b;
    } else {
      assert (a + b)[0] == a[0] && (a + b)[1..] == a[1..] + b;
      TokensCat(a[1..], b);
      var h := if a[0].Tok? then [a[0].t] else [];
      assert h + (TokensOf(a[1..]) + TokensOf(b)) == (h + TokensOf(a[1..])) + TokensOf(b);
    }
  }

  lemma {:induction false} ErrsOnly(items: seq<Item>)
    requires forall k :: 0 <= k < |items| ==> items[k].Err?
    ensures TokensOf(items) == []
    decreases |items|
  {
    if items != [] { ErrsOnly(items[1..]); }
  }

  // Nonempty, ordered and disjoint tokens between two offsets, none of them the end of file.
  ghost predicate Ordered(ts: seq<Token>, lo: nat, hi: nat) {
    && (forall j :: 0 <= j < |ts| ==> lo <= ts[j].span.start < ts[j].span.end <= hi && ts[j].kind != Eof)
    && (forall j, k :: 0 <= j < k < |ts| ==> ts[j].span.end <= ts[k].span.start)
  }

  lemma OrderedCons(t: Token, rest: seq<Token>, lo: nat, z: nat, hi: nat)
    requires lo <= t.span.start < t.span.end <= z <= hi && t.kind != Eof && Ordered(rest, z, hi)
    ensures Ordered([t] + rest, lo, hi)
  {
    var ts := [t] + rest;
    assert forall j :: 0 < j < |ts| ==> ts[j] == rest[j - 1];
  }

  /** Emitted tokens are nonempty, in order and disjoint, with errors in between or not. */
  lemma {:induction false} TokensInOrder(s: string, i: nat, e: nat)
    requires i <= e <= |s|
    ensures Ordered(TokensOf(LexFrom(s, i, e)), i, e)
    decreases e - i
  {
    hide LexOne, TokensOf, LexFrom;
    var p := SkipWs(s, i, e);
    if p >= e { NoItems(s, i, e); } else {
      var l := LexOne(s, p, e);
      LexemeShape(s, p, e);
      TokensInOrder(s, l.end, e);
      LexTurn(s, i, e);
      TokensCat(l.items, LexFrom(s, l.end, e));
      LastToken(l.items);
      var rest := TokensOf(LexFrom(s, l.end, e));
      var last := l.items[|l.items| - 1];
      if last.Tok? { OrderedCons(last.t, rest, i, l.end, e); } else { assert [] + rest == rest; }
    }
  }

  lemma NoItems(s: string, i: nat, e: nat)
    requires i <= e <= |s| && SkipWs(s, i, e) >= e
    ensures LexFrom(s, i, e) == [] && TokensOf([]) == []
  {
  }

  lemma LastToken(items: seq<Item>)
    requires |items| > 0 && forall k :: 0 <= k < |items| - 1 ==> items[k].Err?
    ensures var last := items[|items| - 1]; TokensOf(items) == if last.Tok? then [last.t] else []
  {
    var (front, last) := (items[..|items| - 1], items[|items| - 1]);
    assert items == front + [last];
    TokensCat(front, [last]);
    ErrsOnly(front);
  }

  /////////////////////////// re-lexing parts ///////////////////////////

  // No lexeme of the range `i` to `e` reaches across `b`.
  predicate Between(s: string, i: nat, e: nat, b: nat)
    requires i <= b <= e <= |s|
    decreases e - i
  {
    var p := SkipWs(s, i, e);
    b <= p || (p < e && LexOne(s, p, e).end <= b && Between(s, LexOne(s, p, e).end, e, b))
  }

  predicate IsAbandoned(s: string, p: nat, e: nat)
    requires p < e <= |s|
  {
    IsDigit(s[p]) && IntScanAt(s, p, e).dup
  }

  // The lexeme that ends at `b`, if there is one, is a numeral abandoned at `__`.
  predicate AbandonedAt(s: string, i: nat, e: nat, b: nat)
    requires i <= b <= e <= |s| && Between(s, i, e, b)
    decreases e - i
  {
    var p := SkipWs(s, i, e);
    p < b && (if LexOne(s, p, e).end == b then IsAbandoned(s, p, e) else AbandonedAt(s, LexOne(s, p, e).end, e, b))
  }

  lemma {:induction false} RunsBound(s: string, i: nat, b: nat, e: nat)
    requires i <= b <= e <= |s|
    ensures WordEnd(s, i, e) <= b ==> WordEnd(s, i, b) == WordEnd(s, i, e)
    ensures HexEnd(s, i, e) <= b ==> HexEnd(s, i, b) == HexEnd(s, i, e)
    ensures FracEnd(s, i, e) <= b ==> FracEnd(s, i, b) == FracEnd(s, i, e)
    decreases e - i
  {
    hide IsWordChar, IsHexDigit, IsDigit;
    if i < b { RunsBound(s, i + 1, b, e); }
  }

  lemma {:induction false} LinesBound(s: string, i: nat, b: nat, e: nat)
    requires i <= b <= e <= |s|
    ensures SlashEnd(s, i, e) <= b ==> SlashEnd(s, i, b) == SlashEnd(s, i, e)
    ensures LineEnd(s, i, e) <= b ==> LineEnd(s, i, b) == LineEnd(s, i, e)
    decreases e - i
  {
    hide IsNewline;
    if i < b { LinesBound(s, i + 1, b, e); }
  }

  lemma {:induction false} SkipBound(s: string, i: nat, b: nat, e: nat)
    requires i <= b <= e <= |s|
    ensures SkipWs(s, i, b) == if SkipWs(s, i, e) <= b then SkipWs(s, i, e) else b
    decreases e - i
  {
    hide IsSpace;
    if i < b { SkipBound(s, i + 1, b, e); }
  }

  lemma {:induction false} IntBound(s: string, i: nat, b: nat, e: nat, hex: Switch, und: Switch)
    requires i <= b <= e <= |s| && IntPart(s, i, e, hex, und).end <= b
    ensures var r := IntPart(s, i, e, hex, und);
            IntPart(s, i, b, hex, und) == if r.end == b then r.(dup := false) else r
    ensures var r := IntPart(s, i, e, hex, und);
            r.dup ==> if r.end == i then und.On? else s[r.end - 1] == '_'
    decreases e - i
  {
    if i < b {
      if hex.On? && IsHexDigit(s[i]) { IntBound(s, i + 1, b, e, hex, Off); }
      else if hex.Off? && IsDigit(s[i]) { IntBound(s, i + 1, b, e, hex, Off); }
      else if s[i] == '_' && und.Off? { IntBound(s, i + 1, b, e, hex, On); }
    }
  }

  lemma NumberBound(s: string, p: nat, b: nat, e: nat)
    requires p < b <= e <= |s| && LexNumber(s, p, e).end <= b && IsDigit(s[p])
    ensures !(IsAbandoned(s, p, e) && LexNumber(s, p, e).end == b) ==> LexNumber(s, p, b) == LexNumber(s, p, e)
    ensures IsAbandoned(s, p, e) && LexNumber(s, p, e).end == b ==>
            LexNumber(s, p, b) == Lexeme([Err(InvalidNumericLiteral, Span(p, b))], b)
            && LexNumber(s, p, e) == Lexeme([Err(InvalidNumericLiteral, Span(0, 0))], b)
  {
    hide FracEnd, IntPart;
    var n := IntScanAt(s, p, e);
    var start := if IsHexPrefix(s, p, e) then p + 2 else p + 1;
    IntBound(s, start, b, e, HexSwitch(s, p, e), Off);
    if n.end + 1 < b { RunsBound(s, n.end + 1, b, e); }
  }

  lemma EscapeBound(s: string, i: nat, b: nat, e: nat)
    requires i + 1 < e <= |s| && Escape(s, i, e).end <= b <= e
    ensures i + 1 < b && Escape(s, i, b) == Escape(s, i, e)
  {
    hide HexEnd;
    if IsUnicodeEscape(s, i + 1, e) { RunsBound(s, i + 3, b, e); }
  }

  lemma {:induction false} QuoteBound(s: string, i: nat, b: nat, e: nat, quote: char)
    requires i <= b <= e <= |s| && QuoteScan(s, i, e, quote).end <= b
    ensures QuoteScan(s, i, b, quote) == QuoteScan(s, i, e, quote)
    decreases e - i
  {
    hide Escape;
    if i < e && s[i] == '\\' {
      if i + 1 < e {
        var z := Escape(s, i, e).end;
        assert QuoteScan(s, i, e, quote).end == QuoteScan(s, z, e, quote).end;
        EscapeBound(s, i, b, e);
        QuoteBound(s, z, b, e, quote);
      }
    } else if i < e && s[i] != quote && !IsNewline(s[i]) {
      QuoteBound(s, i + 1, b, e, quote);
    }
  }

  lemma {:induction false} BlockBound(s: string, i: nat, b: nat, e: nat, depth: nat)
    requires i <= b <= e <= |s| && BlockScan(s, i, e, depth).0 <= b
    ensures BlockScan(s, i, b, depth) == BlockScan(s, i, e, depth)
    decreases e - i
  {
    if i < e && depth > 0 {
      if Opens(s, i, e) { BlockBound(s, i + 2, b, e, depth + 1); }
      else if Closes(s, i, e) { BlockBound(s, i + 2, b, e, depth - 1); }
      else { BlockBound(s, i + 1, b, e, depth); }
    }
  }

  lemma CommentBound(s: string, p: nat, b: nat, e: nat)
    requires p < b <= e <= |s| && IsComment(s, p, e) && LexComment(s, p, e).end <= b
    ensures IsComment(s, p, b) && LexComment(s, p, b) == LexComment(s, p, e)
  {
    hide BlockScan, LineEnd, SlashEnd;
    if s[p + 1] == '*' { BlockBound(s, p + 2, b, e, 1); } else { LinesBound(s, p + 2, b, e); }
  }

  /** A lexeme that ends by `b` is the same when lexing stops there, with the one exception of a
      numeral abandoned right at `b`: there the error has a proper range instead of none. */
  lemma LexOneBound(s: string, p: nat, b: nat, e: nat)
    requires p < b <= e <= |s| && LexOne(s, p, e).end <= b
    ensures !(IsAbandoned(s, p, e) && LexOne(s, p, e).end == b) ==> LexOne(s, p, b) == LexOne(s, p, e)
    ensures IsAbandoned(s, p, e) && LexOne(s, p, e).end == b ==>
            LexOne(s, p, b) == Lexeme([Err(InvalidNumericLiteral, Span(p, b))], b)
            && LexOne(s, p, e) == Lexeme([Err(InvalidNumericLiteral, Span(0, 0))], b)
  {
    hide LexNumber, QuoteScan, WordEnd, LexComment, Symbol, IntScanAt;
    var c := s[p];
    if IsComment(s, p, e) { CommentBound(s, p, b, e); }
    else if IsWordStart(c) { RunsBound(s, p + 1, b, e); }
    else if IsDigit(c) { NumberBound(s, p, b, e); }
    else if c == '"' || c == '\'' { QuoteBound(s, p + 1, b, e, c); }
    else { SymbolBound(s, p, b, e); }
  }

  lemma SymbolBound(s: string, p: nat, b: nat, e: nat)
    requires p < b <= e <= |s| && p + Symbol(s, p, e).1 <= b
    ensures Symbol(s, p, b) == Symbol(s, p, e)
  {
  }

  /** Lexing a range equals lexing its two parts one after the other, at every place that no lexeme
      reaches across, if and only if the lexeme that ends there is no numeral abandoned at `__`. */
  lemma {:induction false} Incremental(s: string, a: nat, b: nat, c: nat)
    requires a <= b <= c <= |s| && Between(s, a, c, b)
    ensures LexFrom(s, a, c) == LexFrom(s, a, b) + LexFrom(s, b, c) <==> !AbandonedAt(s, a, c, b)
    decreases c - a
  {
    hide LexOne, SkipWs, IsAbandoned, LexFrom;
    SkipBound(s, a, b, c);
    var p := SkipWs(s, a, c);
    if b <= p {
      SkipOn(s, a, b, c);
      assert [] + LexFrom(s, b, c) == LexFrom(s, b, c);
    } else {
      var l := LexOne(s, p, c);
      LexOneBound(s, p, b, c);
      LexTurn(s, a, b);
      LexTurn(s, a, c);
      if IsAbandoned(s, p, c) && l.end == b {
        EmptyRange(s, b);
        assert LexFrom(s, a, b)[0] == Err(InvalidNumericLiteral, Span(p, b));
        assert LexFrom(s, a, c)[0] == Err(InvalidNumericLiteral, Span(0, 0));
      } else {
        Incremental(s, l.end, b, c);
        var (x, y, z) := (LexFrom(s, l.end, c), LexFrom(s, l.end, b), LexFrom(s, b, c));
        assert (l.items + y) + z == l.items + (y + z);
        SameTail(l.items, x, y + z);
        if l.end == b { EndsThere(s, b, c); }
      }
    }
  }

  /** The shortest text at which re-lexing fails: its numeral is abandoned at offset 2. */
  lemma RelexingFails()
    ensures Between("1__2", 0, 4, 2) && AbandonedAt("1__2", 0, 4, 2)
    ensures LexFrom("1__2", 0, 4) != LexFrom("1__2", 0, 2) + LexFrom("1__2", 2, 4)
  {
    var s := "1__2";
    assert SkipWs(s, 0, 4) == 0 && IntScanAt(s, 0, 4).dup && LexOne(s, 0, 4).end == 2;
    assert SkipWs(s, 2, 4) == 2 && Between(s, 2, 4, 2);
    Incremental(s, 0, 2, 4);
  }

  // One turn of the main loop.
  lemma LexTurn(s: string, i: nat, e: nat)
    requires i <= e <= |s| && SkipWs(s, i, e) < e
    ensures var l := LexOne(s, SkipWs(s, i, e), e); LexFrom(s, i, e) == l.items + LexFrom(s, l.end, e)
  {
    hide LexOne, SkipWs;
  }

  lemma EndsThere(s: string, b: nat, c: nat)
    requires b <= c <= |s|
    ensures Between(s, b, c, b) && !AbandonedAt(s, b, c, b)
  {
    hide LexOne;
  }

  lemma SameTail(front: seq<Item>, x: seq<Item>, y: seq<Item>)
    ensures front + x == front + y <==> x == y
  {
    assert (front + x)[|front|..] == x && (front + y)[|front|..] == y;
  }

  lemma EmptyRange(s: string, b: nat)
    requires b <= |s|
    ensures LexFrom(s, b, b) == []
  {
  }

  lemma {:induction false} SkipOn(s: string, a: nat, b: nat, c: nat)
    requires a <= b <= c <= |s| && b <= SkipWs(s, a, c)
    ensures SkipWs(s, b, c) == SkipWs(s, a, c) && LexFrom(s, a, b) == [] && LexFrom(s, a, c) == LexFrom(s, b, c)
    decreases c - a
  {
    hide LexOne;
    SkipBound(s, a, b, c);
    if a < b { SkipOn(s, a + 1, b, c); }
  }
}
