/** A lexeme is the same wherever it stands, with white space behind it. */
module LexerTrips {
  import opened Tokens
  import opened Lexing
  import opened LexerLaws

  // Text `t` stands in `s` at `p`.
  predicate Stands(s: string, p: nat, t: string) { p + |t| <= |s| && forall k :: 0 <= k < |t| ==> s[p + k] == t[k] }

  /** A text that is one token of this kind, all of it and nothing else. */
  predicate IsLexeme(t: string, k: Kind) {
    |t| > 0 && LexOne(t, 0, |t|) == Lexeme([Tok(Token(k, Span(0, |t|)))], |t|)
  }

  /////////////////////////// the same text elsewhere ///////////////////////////

  lemma {:induction false} WordMoved(s: string, p: nat, t: string, i: nat)
    requires Stands(s, p, t) && i <= |t|
    ensures WordEnd(s, p + i, p + |t|) == p + WordEnd(t, i, |t|)
    decreases |t| - i
  {
    hide IsWordChar;
    if i < |t| { assert s[p + i] == t[i]; WordMoved(s, p, t, i + 1); }
  }

  lemma {:induction false} HexMoved(s: string, p: nat, t: string, i: nat)
    requires Stands(s, p, t) && i <= |t|
    ensures HexEnd(s, p + i, p + |t|) == p + HexEnd(t, i, |t|)
    decreases |t| - i
  {
    hide IsHexDigit;
    if i < |t| { assert s[p + i] == t[i]; HexMoved(s, p, t, i + 1); }
  }

  lemma {:induction false} FracMoved(s: string, p: nat, t: string, i: nat)
    requires Stands(s, p, t) && i <= |t|
    ensures FracEnd(s, p + i, p + |t|) == p + FracEnd(t, i, |t|)
    decreases |t| - i
  {
    hide IsDigit;
    if i < |t| { assert s[p + i] == t[i]; FracMoved(s, p, t, i + 1); }
  }

  lemma {:induction false} IntMoved(s: string, p: nat, t: string, i: nat, hex: Switch, und: Switch)
    requires Stands(s, p, t) && i <= |t|
    ensures var r := IntPart(t, i, |t|, hex, und); IntPart(s, p + i, p + |t|, hex, und) == r.(end := p + r.end)
    decreases |t| - i
  {
    hide IsDigit, IsHexDigit;
    if i < |t| {
      assert s[p + i] == t[i];
      if hex.On? && IsHexDigit(t[i]) { IntMoved(s, p, t, i + 1, hex, Off); }
      else if hex.Off? && IsDigit(t[i]) { IntMoved(s, p, t, i + 1, hex, Off); }
      else if t[i] == '_' && und.Off? { IntMoved(s, p, t, i + 1, hex, On); }
    }
  }

  // An escape without errors.
  lemma EscapeMoved(s: string, p: nat, t: string, i: nat)
    requires Stands(s, p, t) && i + 1 < |t|
    ensures var r := Escape(t, i, |t|);
            var m := Escape(s, p + i, p + |t|);
            m.end == p + r.end && (m.items == [] <==> r.items == [])
  {
    hide HexEnd;
    assert s[p + i + 1] == t[i + 1];
    if i + 2 < |t| { assert s[p + i + 2] == t[i + 2]; }
    if i + 3 <= |t| {
      HexMoved(s, p, t, i + 3);
      var h := HexEnd(t, i + 3, |t|);
      if h < |t| { assert s[p + h] == t[h]; }
    }
  }

  lemma {:induction false} QuoteMoved(s: string, p: nat, t: string, i: nat, quote: char)
    requires Stands(s, p, t) && i <= |t| && QuoteScan(t, i, |t|, quote).closed && QuoteScan(t, i, |t|, quote).errs == []
    ensures var r := QuoteScan(t, i, |t|, quote); QuoteScan(s, p + i, p + |t|, quote) == r.(end := p + r.end)
    decreases |t| - i
  {
    hide Escape;
    if i < |t| {
      assert s[p + i] == t[i];
      if t[i] == '\\' {
        if i + 1 < |t| {
          var u := Escape(t, i, |t|);
          assert QuoteScan(t, i, |t|, quote).errs == u.items + QuoteScan(t, u.end, |t|, quote).errs;
          EscapeMoved(s, p, t, i);
          QuoteMoved(s, p, t, u.end, quote);
        }
      } else if t[i] != quote && !IsNewline(t[i]) {
        QuoteMoved(s, p, t, i + 1, quote);
      }
    }
  }

  lemma NumberMoved(s: string, p: nat, t: string)
    requires Stands(s, p, t) && |t| > 0 && LexNumber(t, 0, |t|).items[0].Tok? && LexNumber(t, 0, |t|).end == |t|
    ensures LexNumber(s, p, p + |t|)
            == Lexeme([Tok(Token(LexNumber(t, 0, |t|).items[0].t.kind, Span(p, p + |t|)))], p + |t|)
  {
    hide IntPart, FracEnd;
    assert s[p] == t[0];
    if 1 < |t| { assert s[p + 1] == t[1]; }
    var start := if IsHexPrefix(t, 0, |t|) then 2 else 1;
    IntMoved(s, p, t, start, HexSwitch(t, 0, |t|), Off);
    var z := IntScanAt(t, 0, |t|).end;
    assert s[p + z - 1] == t[z - 1];
    if z < |t| { assert s[p + z] == t[z]; }
    if z + 1 < |t| {
      assert s[p + z + 1] == t[z + 1];
      FracMoved(s, p, t, z + 1);
      var f := FracEnd(t, z + 1, |t|);
      if f < |t| { assert s[p + f] == t[f]; }
    }
  }

  /** One lexeme is one lexeme wherever it stands, when lexing stops behind it. */
  lemma LexemeMoved(s: string, p: nat, t: string, k: Kind)
    requires Stands(s, p, t) && IsLexeme(t, k) && !IsCommentKind(k)
    ensures LexOne(s, p, p + |t|) == Lexeme([Tok(Token(k, Span(p, p + |t|)))], p + |t|)
  {
    hide LexNumber, QuoteScan, WordEnd, Symbol, IsReserved, WordKind, BlockScan, LineEnd, SlashEnd;
    var c := t[0];
    assert s[p] == c;
    if 1 < |t| { assert s[p + 1] == t[1]; }
    if IsComment(t, 0, |t|) { CommentKinds(t); }
    else if IsWordStart(c) { WordMoved(s, p, t, 1); assert s[p..p + |t|] == t[0..|t|]; }
    else if IsDigit(c) { NumberMoved(s, p, t); }
    else if c == '"' || c == '\'' { NoErrs(t, c); QuoteMoved(s, p, t, 1, c); }
    else { SymbolMoved(s, p, t); }
  }

  predicate IsCommentKind(k: Kind) { k == CommentTok || k == DocCommentTok || k == FileDocCommentTok }

  // A comment lexes to a comment.
  lemma CommentKinds(t: string)
    requires |t| > 0 && IsComment(t, 0, |t|)
    ensures var l := LexOne(t, 0, |t|).items; var last := l[|l| - 1]; |l| > 0 && last.Tok? && IsCommentKind(last.t.kind)
  {
    hide BlockScan, LineEnd, SlashEnd;
  }

  // A quoted literal that is one item has no errors inside, and ends with its quote.
  lemma NoErrs(t: string, c: char)
    requires |t| > 0 && (c == '"' || c == '\'') && t[0] == c && |LexOne(t, 0, |t|).items| == 1
    requires LexOne(t, 0, |t|).items[0].Tok?
    ensures QuoteScan(t, 1, |t|, c).errs == [] && QuoteScan(t, 1, |t|, c).closed
  {
    hide QuoteScan;
  }

  lemma SymbolMoved(s: string, p: nat, t: string)
    requires Stands(s, p, t) && |t| > 0
    ensures Symbol(s, p, p + |t|) == Symbol(t, 0, |t|)
  {
    assert s[p] == t[0];
    if 1 < |t| { assert s[p + 1] == t[1]; }
    if 2 < |t| { assert s[p + 2] == t[2]; }
  }

  /////////////////////////// white space behind it ///////////////////////////

  // Space, tab, line feed and carriage return.
  predicate IsBlank(c: char) { c as int == 0x20 || c as int == 0x09 || c as int == 0x0A || c as int == 0x0D }

  lemma {:induction false} WordSpaced(s: string, i: nat, b: nat, e: nat)
    requires i <= b < e <= |s| && IsBlank(s[b])
    ensures WordEnd(s, i, b) == b ==> WordEnd(s, i, e) == b
    ensures HexEnd(s, i, e) == if HexEnd(s, i, b) < b then HexEnd(s, i, b) else b
    ensures FracEnd(s, i, e) == if FracEnd(s, i, b) < b then FracEnd(s, i, b) else b
    decreases b - i
  {
    if i < b { WordSpaced(s, i + 1, b, e); }
  }

  lemma {:induction false} IntSpaced(s: string, i: nat, b: nat, e: nat, hex: Switch, und: Switch)
    requires i <= b < e <= |s| && IsBlank(s[b])
    ensures IntPart(s, i, e, hex, und) == IntPart(s, i, b, hex, und)
    decreases b - i
  {
    if i < b {
      if hex.On? && IsHexDigit(s[i]) { IntSpaced(s, i + 1, b, e, hex, Off); }
      else if hex.Off? && IsDigit(s[i]) { IntSpaced(s, i + 1, b, e, hex, Off); }
      else if s[i] == '_' && und.Off? { IntSpaced(s, i + 1, b, e, hex, On); }
    }
  }

  lemma NumberSpaced(s: string, p: nat, b: nat, e: nat)
    requires p < b < e <= |s| && IsBlank(s[b])
    ensures LexNumber(s, p, e) == LexNumber(s, p, b)
  {
    hide IntScanAt, FloatEnd, IsDigit;
    ScanSpaced(s, p, b, e);
    var z := IntScanAt(s, p, b).end;
    if z + 1 < b { FloatSpaced(s, z + 1, b, e); }
    BlankStops(s[b]);
  }

  lemma BlankStops(c: char)
    requires IsBlank(c)
    ensures !IsDigit(c) && c != '.' && c != 'f'
  {
  }

  lemma ScanSpaced(s: string, p: nat, b: nat, e: nat)
    requires p < b < e <= |s| && IsBlank(s[b])
    ensures IntScanAt(s, p, e) == IntScanAt(s, p, b) && IsHexPrefix(s, p, e) == IsHexPrefix(s, p, b)
  {
    hide IntPart;
    IntSpaced(s, if IsHexPrefix(s, p, b) then p + 2 else p + 1, b, e, HexSwitch(s, p, b), Off);
  }

  lemma FloatSpaced(s: string, i: nat, b: nat, e: nat)
    requires i <= b < e <= |s| && IsBlank(s[b])
    ensures FloatEnd(s, i, e) == FloatEnd(s, i, b)
  {
    hide FracEnd;
    WordSpaced(s, i, b, e);
  }

  lemma EscapeSpaced(s: string, i: nat, b: nat, e: nat)
    requires i + 1 < b < e <= |s| && IsBlank(s[b]) && Escape(s, i, b).end < b
    ensures Escape(s, i, e) == Escape(s, i, b)
  {
    hide HexEnd;
    if IsUnicodeEscape(s, i + 1, e) && i + 3 <= b { WordSpaced(s, i + 3, b, e); }
  }

  lemma {:induction false} QuoteSpaced(s: string, i: nat, b: nat, e: nat, quote: char)
    requires i <= b < e <= |s| && IsBlank(s[b]) && QuoteScan(s, i, b, quote).closed
    ensures QuoteScan(s, i, e, quote) == QuoteScan(s, i, b, quote)
    decreases b - i
  {
    hide Escape;
    if i < b {
      if s[i] == '\\' {
        if i + 1 < b {
          var z := Escape(s, i, b).end;
          assert QuoteScan(s, i, b, quote).closed == QuoteScan(s, z, b, quote).closed;
          EscapeSpaced(s, i, b, e);
          QuoteSpaced(s, z, b, e, quote);
        }
      } else if s[i] != quote && !IsNewline(s[i]) {
        QuoteSpaced(s, i + 1, b, e, quote);
      }
    }
  }

  /** White space ends a lexeme. */
  lemma LexemeSpaced(s: string, p: nat, b: nat, e: nat, k: Kind)
    requires p < b < e <= |s| && IsBlank(s[b]) && !IsCommentKind(k)
    requires LexOne(s, p, b) == Lexeme([Tok(Token(k, Span(p, b)))], b)
    ensures LexOne(s, p, e) == LexOne(s, p, b)
  {
    hide LexNumber, QuoteScan, WordEnd, Symbol, IsReserved, WordKind, BlockScan, LineEnd, SlashEnd;
    var c := s[p];
    if IsComment(s, p, b) { KindOfComment(s, p, b); }
    else if IsWordStart(c) { WordSpaced(s, p + 1, b, e); }
    else if IsDigit(c) { NumberSpaced(s, p, b, e); }
    else if c == '"' || c == '\'' { TokenCloses(s, p, b); QuoteSpaced(s, p + 1, b, e, c); }
    else { SymbolSpaced(s, p, b, e); }
  }

  lemma TokenCloses(s: string, p: nat, b: nat)
    requires p < b <= |s| && (s[p] == '"' || s[p] == '\'') && |LexOne(s, p, b).items| == 1
    requires LexOne(s, p, b).items[0].Tok?
    ensures QuoteScan(s, p + 1, b, s[p]).closed
  {
    hide QuoteScan;
  }

  lemma KindOfComment(s: string, p: nat, e: nat)
    requires p < e <= |s| && IsComment(s, p, e)
    ensures var l := LexOne(s, p, e).items; |l| > 0 && l[|l| - 1].Tok? && IsCommentKind(l[|l| - 1].t.kind)
  {
    hide BlockScan, LineEnd, SlashEnd;
  }

  lemma SymbolSpaced(s: string, p: nat, b: nat, e: nat)
    requires p < b < e <= |s| && IsBlank(s[b])
    ensures Symbol(s, p, e) == Symbol(s, p, b)
  {
  }

  /////////////////////////// where a lexeme starts ///////////////////////////

  lemma StandsCat(s: string, p: nat, t: string, u: string)
    requires Stands(s, p, t + u)
    ensures Stands(s, p, t) && Stands(s, p + |t|, u)
  {
    forall k | 0 <= k < |t| ensures s[p + k] == t[k] { assert (t + u)[k] == t[k]; }
    forall k | 0 <= k < |u| ensures s[p + |t| + k] == u[k] { assert s[p + (|t| + k)] == (t + u)[|t| + k]; }
  }

  // No lexeme starts with white space.
  lemma NoSpaceFirst(t: string, k: Kind)
    requires IsLexeme(t, k)
    ensures !IsSpace(t[0])
  {
    hide QuoteScan, LexNumber, WordEnd, BlockScan;
  }

  lemma NotEmpty(t: string, k: Kind)
    requires IsLexeme(t, k)
    ensures |t| > 0
  {
  }

  lemma StartsHere(s: string, p: nat)
    requires p < |s| && !IsSpace(s[p])
    ensures SkipWs(s, p, |s|) == p
  {
  }
}
