/** The lexing routines as they run: a cursor that moves, items that are appended. */
module LexerLoops {
  import opened Tokens
  import opened Lexing

  method SkipWhitespace(s: string, start: nat, e: nat) returns (cur: nat)
    requires start <= e <= |s|
    ensures cur == SkipWs(s, start, e)
  {
    cur := start;
    while cur < e
      invariant start <= cur <= e && SkipWs(s, cur, e) == SkipWs(s, start, e)
    {
      if !IsSpace(s[cur]) { return; }
      cur := cur + 1;
    }
  }

  // Behind the first character of a word.
  method LexIdentifier(s: string, tokStart: nat, e: nat) returns (t: Token, cur: nat)
    requires tokStart < e <= |s|
    ensures cur == WordEnd(s, tokStart + 1, e) && t == Token(WordKind(s[tokStart..cur]), Span(tokStart, cur))
  {
    cur := tokStart + 1;
    while cur < e && IsWordChar(s[cur])
      invariant tokStart < cur <= e && WordEnd(s, cur, e) == WordEnd(s, tokStart + 1, e)
    {
      cur := cur + 1;
    }
    t := Token(WordKind(s[tokStart..cur]), Span(tokStart, cur));
  }

  method LexIntPart(s: string, start: nat, e: nat, isHex: bool) returns (cur: nat, hexDigits: nat, abandoned: bool)
    requires start <= e <= |s|
    ensures IntPart(s, start, e, if isHex then On else Off, Off) == IntScan(cur, hexDigits, abandoned)
  {
    ghost var hex := if isHex then On else Off;
    ghost var whole := IntPart(s, start, e, hex, Off);
    cur, hexDigits, abandoned := start, 0, false;
    var prevWasUnderscore := false;
    while cur < e
      invariant start <= cur <= e && !abandoned
      invariant var rest := IntPart(s, cur, e, hex, if prevWasUnderscore then On else Off);
                whole == rest.(digits := rest.digits + hexDigits)
    {
      if isHex && IsHexDigit(s[cur]) {
        hexDigits := hexDigits + 1;
        cur := cur + 1;
        prevWasUnderscore := false;
      } else if !isHex && IsDigit(s[cur]) {
        cur := cur + 1;
        prevWasUnderscore := false;
      } else if s[cur] == '_' {
        if prevWasUnderscore {
          abandoned := true;
          return;
        }
        cur := cur + 1;
        prevWasUnderscore := true;
      } else {
        return;
      }
    }
  }

  /** A numeral: `valid` says whether it becomes a token. One abandoned at `__` keeps the empty range
      that the caller initialised. */
  method LexNumericLiteral(s: string, tokStart: nat, e: nat) returns (t: Token, valid: bool, cur: nat)
    requires tokStart < e <= |s|
    ensures LexNumber(s, tokStart, e)
            == Lexeme([if valid then Tok(t) else Err(InvalidNumericLiteral, t.span)], cur)
  {
    t := Token(IntegerLiteral, Span(0, 0));
    cur := tokStart + 1;
    var isHex := s[tokStart] == '0' && cur < e && (s[cur] == 'x' || s[cur] == 'X');
    if isHex { cur := cur + 1; }
    var hexDigits, abandoned;
    cur, hexDigits, abandoned := LexIntPart(s, cur, e, isHex);
    if abandoned { return t, false, cur; }
    if !isHex && cur < e && s[cur] == '.' {
      if cur + 1 < e && IsDigit(s[cur + 1]) {
        cur := cur + 1;
        ghost var p := cur;
        while cur < e && (IsDigit(s[cur]) || s[cur] == '_')
          invariant p <= cur <= e && FracEnd(s, cur, e) == FracEnd(s, p, e)
        {
          cur := cur + 1;
        }
        if cur < e && s[cur] == 'f' { cur := cur + 1; }
        return Token(FloatLiteral, Span(tokStart, cur)), true, cur;
      }
    }
    if !isHex && cur < e && s[cur] == 'f' {
      cur := cur + 1;
      return Token(FloatLiteral, Span(tokStart, cur)), true, cur;
    }
    t := Token(IntegerLiteral, Span(tokStart, cur));
    valid := !(isHex && hexDigits == 0) && s[cur - 1] != '_';
  }

  // Behind the opening of the escape at `b` hexadecimal digits, at least one, and the brace at `h`.
  predicate BracedDigits(s: string, b: nat, h: nat, e: nat)
    requires e <= |s|
  {
    b + 3 < h < e && s[h] == '}' && forall k :: b + 3 <= k < h ==> IsHexDigit(s[k])
  }

  /** A Unicode escape is well-formed exactly when at least one hexadecimal digit stands between its
      braces and nothing else does; it ends behind the brace. */
  lemma UnicodeEscapeIff(s: string, b: nat, e: nat)
    requires e <= |s| && IsUnicodeEscape(s, b + 1, e)
    ensures var r := UnicodeEscape(s, b, e);
            && (r.items == [] <==> exists h: nat :: BracedDigits(s, b, h, e))
            && (r.items == [] ==> BracedDigits(s, b, r.end - 1, e))
  {
    var z := HexEnd(s, b + 3, e);
    if h: nat :| BracedDigits(s, b, h, e) {
      assert !IsHexDigit(s[h]);
      assert z == h;
    }
    if UnicodeEscape(s, b, e).items == [] { assert BracedDigits(s, b, z, e); }
  }

  // Whether an escape starts at `cur`, behind its backslash; if so it is read.
  method LexUnicodeEscape(s: string, escapeStart: nat, e: nat, items: seq<Item>)
    returns (ok: bool, cur: nat, out: seq<Item>)
    requires escapeStart + 1 < e <= |s|
    ensures ok == IsUnicodeEscape(s, escapeStart + 1, e)
    ensures !ok ==> cur == escapeStart + 1 && out == items
    ensures ok ==> out == items + UnicodeEscape(s, escapeStart, e).items && cur == UnicodeEscape(s, escapeStart, e).end
  {
    cur, out := escapeStart + 1, items;
    if s[cur] != 'u' { return false, cur, out; }
    if cur + 1 >= e || s[cur + 1] != '{' { return false, cur, out; }
    cur := cur + 2;
    var digitsStart := cur;
    while cur < e && IsHexDigit(s[cur])
      invariant digitsStart <= cur <= e && HexEnd(s, cur, e) == HexEnd(s, digitsStart, e)
    {
      cur := cur + 1;
    }
    ok := true;
    var hasDigits := cur > digitsStart;
    if cur >= e || s[cur] != '}' {
      out := out + [Err(InvalidUnicodeEscape, Span(escapeStart, cur))];
      return;
    }
    cur := cur + 1;
    if !hasDigits { out := out + [Err(InvalidUnicodeEscape, Span(escapeStart, cur))]; }
  }

  // An escape, from its backslash on.
  method LexEscape(s: string, escapeStart: nat, e: nat, items: seq<Item>) returns (cur: nat, out: seq<Item>)
    requires escapeStart + 1 < e <= |s|
    ensures var esc := Escape(s, escapeStart, e); out == items + esc.items && cur == esc.end
  {
    hide UnicodeEscape;
    var unicode;
    unicode, cur, out := LexUnicodeEscape(s, escapeStart, e, items);
    if unicode { return; }
    if !IsSimpleEscape(s[cur]) { out := out + [Err(InvalidEscapeSequence, Span(escapeStart, cur + 1))]; }
    cur := cur + 1;
  }

  /** The inside of a literal behind its opening quote. The source has one copy of this loop for
      strings and one, which counts characters, for character literals. */
  method LexQuoted(s: string, start: nat, e: nat, quote: char, items: seq<Item>)
    returns (terminated: bool, cur: nat, charCount: nat, out: seq<Item>)
    requires start <= e <= |s|
    ensures var q := QuoteScan(s, start, e, quote);
            terminated == q.closed && cur == q.end && charCount == q.count && out == items + q.errs
  {
    hide Escape, QuoteScan;
    ghost var whole := QuoteScan(s, start, e, quote);
    ghost var errs := [];
    cur, charCount, out, terminated := start, 0, items, false;
    while cur < e
      invariant start <= cur <= e && out == items + errs && !terminated
      invariant whole == Lexing.After(errs, charCount, QuoteScan(s, cur, e, quote))
      decreases e - cur
    {
      var c := s[cur];
      QuoteTurn(s, cur, e, quote);
      cur := cur + 1;
      if c == '\\' {
        var escapeStart := cur - 1;
        if cur >= e {
          out := out + [Err(InvalidEscapeSequence, Span(escapeStart, cur))];
          return;
        }
        cur, out := LexEscape(s, escapeStart, e, out);
        ghost var esc := Escape(s, escapeStart, e);
        AfterAfter(errs, charCount, esc.items, 1, QuoteScan(s, cur, e, quote));
        charCount := charCount + 1;
        errs := errs + esc.items;
      } else if c == quote {
        terminated := true;
        return;
      } else if IsNewline(c) {
        return;
      } else {
        AfterAfter(errs, charCount, [], if IsContinuation(c) then 0 else 1, QuoteScan(s, cur, e, quote));
        if !IsContinuation(c) { charCount := charCount + 1; }
      }
    }
    QuoteOut(s, e, quote);
  }

  // One turn of the scan.
  lemma QuoteTurn(s: string, i: nat, e: nat, quote: char)
    requires i < e <= |s|
    ensures var (c, r) := (s[i], QuoteScan(s, i, e, quote));
            && (c == '\\' && i + 1 >= e ==> r == Quoted([Err(InvalidEscapeSequence, Span(i, i + 1))], i + 1, false, 0))
            && (c == '\\' && i + 1 < e ==>
                r == Lexing.After(Escape(s, i, e).items, 1, QuoteScan(s, Escape(s, i, e).end, e, quote)))
            && (c != '\\' && c == quote ==> r == Quoted([], i + 1, true, 0))
            && (c != '\\' && c != quote && IsNewline(c) ==> r == Quoted([], i + 1, false, 0))
            && (c != '\\' && c != quote && !IsNewline(c) ==>
                r == Lexing.After([], if IsContinuation(c) then 0 else 1, QuoteScan(s, i + 1, e, quote)))
  {
    hide Escape;
  }

  // At the end of the range.
  lemma QuoteOut(s: string, e: nat, quote: char)
    requires e <= |s|
    ensures QuoteScan(s, e, e, quote) == Quoted([], e, false, 0)
  {
  }

  lemma AfterAfter(a: seq<Item>, m: nat, b: seq<Item>, n: nat, q: Quoted)
    ensures Lexing.After(a, m, Lexing.After(b, n, q)) == Lexing.After(a + b, m + n, q)
  {
    assert a + (b + q.errs) == a + b + q.errs;
  }

  method LexBlockComment(s: string, tokStart: nat, e: nat, items: seq<Item>)
    returns (t: Token, cur: nat, out: seq<Item>)
    requires tokStart + 1 < e <= |s| && s[tokStart] == '/' && s[tokStart + 1] == '*'
    ensures out + [Tok(t)] == items + Lexing.LexComment(s, tokStart, e).items
    ensures cur == Lexing.LexComment(s, tokStart, e).end
  {
    cur, out := tokStart + 2, items;
    var nestingDepth := 1;
    while cur < e && nestingDepth > 0
      invariant tokStart + 2 <= cur <= e && 0 <= nestingDepth
      invariant BlockScan(s, cur, e, nestingDepth) == BlockScan(s, tokStart + 2, e, 1)
      decreases e - cur
    {
      if cur + 1 < e && s[cur] == '/' && s[cur + 1] == '*' {
        nestingDepth := nestingDepth + 1;
        cur := cur + 2;
      } else if cur + 1 < e && s[cur] == '*' && s[cur + 1] == '/' {
        nestingDepth := nestingDepth - 1;
        cur := cur + 2;
      } else {
        cur := cur + 1;
      }
    }
    if nestingDepth > 0 { out := out + [Err(UnterminatedBlockComment, Span(tokStart, cur))]; }
    t := Token(CommentTok, Span(tokStart, cur));
  }

  method LexLineComment(s: string, tokStart: nat, e: nat) returns (t: Token, cur: nat)
    requires tokStart + 1 < e <= |s| && s[tokStart] == '/' && s[tokStart + 1] == '/'
    ensures Lexing.LexComment(s, tokStart, e) == Lexeme([Tok(t)], cur)
  {
    var slashCount := 2;
    cur := tokStart + 2;
    while cur < e && s[cur] == '/'
      invariant tokStart + 2 <= cur <= e && slashCount == cur - tokStart
      invariant SlashEnd(s, cur, e) == SlashEnd(s, tokStart + 2, e) && LineEnd(s, cur, e) == LineEnd(s, tokStart + 2, e)
    {
      slashCount := slashCount + 1;
      cur := cur + 1;
    }
    var isFileDocComment := false;
    if slashCount == 2 && cur < e && s[cur] == '!' {
      isFileDocComment := true;
      cur := cur + 1;
    }
    while cur < e && !IsNewline(s[cur])
      invariant tokStart + 2 <= cur <= e && LineEnd(s, cur, e) == LineEnd(s, tokStart + 2, e)
    {
      cur := cur + 1;
    }
    var kind := if slashCount == 3 then DocCommentTok else if isFileDocComment then FileDocCommentTok else CommentTok;
    t := Token(kind, Span(tokStart, cur));
  }

  // One turn of the main loop at a character that is no white space.
  method LexLexeme(s: string, tokStart: nat, e: nat, items: seq<Item>) returns (cur: nat, out: seq<Item>)
    requires tokStart < e <= |s|
    ensures out == items + LexOne(s, tokStart, e).items && cur == LexOne(s, tokStart, e).end
  {
    hide QuoteScan, BlockScan, LexNumber, Symbol, WordKind, WordEnd;
    var c := s[tokStart];
    cur, out := tokStart + 1, items;
    var t;
    if c == '/' && cur < e && s[cur] == '*' {
      t, cur, out := LexBlockComment(s, tokStart, e, items);
      out := out + [Tok(t)];
    } else if c == '/' && cur < e && s[cur] == '/' {
      t, cur := LexLineComment(s, tokStart, e);
      out := out + [Tok(t)];
    } else if IsWordStart(c) {
      t, cur := LexIdentifier(s, tokStart, e);
      out := out + [if IsReserved(s[tokStart..cur]) then Err(ReservedKeyword, t.span) else Tok(t)];
    } else if IsDigit(c) {
      var valid;
      t, valid, cur := LexNumericLiteral(s, tokStart, e);
      out := out + [if valid then Tok(t) else Err(InvalidNumericLiteral, t.span)];
    } else if c == '"' || c == '\'' {
      cur, out := LexLiteral(s, tokStart, e, items);
    } else {
      var sym := Symbol(s, tokStart, e);
      cur := tokStart + sym.1;
      var sp := Span(tokStart, cur);
      out := out + [if sym.0 == Unknown then Err(InvalidCharacter, sp) else Tok(Token(sym.0, sp))];
    }
  }

  // A string or a character literal.
  method LexLiteral(s: string, tokStart: nat, e: nat, items: seq<Item>) returns (cur: nat, out: seq<Item>)
    requires tokStart < e <= |s| && (s[tokStart] == '"' || s[tokStart] == '\'')
    ensures var r := if s[tokStart] == '"' then LexString(s, tokStart, e) else LexChar(s, tokStart, e);
            out == items + r.items && cur == r.end
  {
    hide QuoteScan;
    var quote := s[tokStart];
    var terminated, charCount;
    terminated, cur, charCount, out := LexQuoted(s, tokStart + 1, e, quote, items);
    var sp := Span(tokStart, cur);
    if quote == '"' {
      out := out + [if terminated then Tok(Token(StringLiteral, sp)) else Err(UnterminatedStringLiteral, sp)];
    } else if terminated && charCount == 1 {
      out := out + [Tok(Token(CharLiteral, sp))];
    } else {
      out := out + [Err(if !terminated then UnterminatedCharLiteral
                        else if charCount == 0 then EmptyCharLiteral
                        else MultiCharCharLiteral, sp)];
    }
  }

  /** Lexing a range of a buffer, and the whole buffer. */
  method LexRange(s: string, a: nat, b: nat) returns (items: seq<Item>)
    ensures items == Lex(s, a, b)
  {
    hide LexOne;
    items := [];
    if a > |s| || b > |s| || a > b { return; }
    var cur := a;
    while cur < b
      invariant a <= cur <= b && items + LexFrom(s, cur, b) == LexFrom(s, a, b)
      decreases b - cur
    {
      ghost var p, before := cur, items;
      cur := SkipWhitespace(s, cur, b);
      if cur >= b { break; }
      ghost var l := LexOne(s, cur, b);
      assert LexFrom(s, p, b) == l.items + LexFrom(s, l.end, b);
      cur, items := LexLexeme(s, cur, b, items);
      assert before + l.items + LexFrom(s, cur, b) == before + (l.items + LexFrom(s, cur, b));
    }
    if a == 0 && b == |s| { items := items + [EofItem(|s|)]; }
  }

  method LexBuffer(s: string) returns (items: seq<Item>)
    ensures items == Lex(s, 0, |s|)
  {
    items := LexRange(s, 0, |s|);
  }
}
