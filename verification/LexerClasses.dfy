/** The classes of lexemes: each is one token wherever a space or the end follows it. */
module LexerClasses {
  import opened Tokens
  import opened Lexing
  import opened LexerTrips
  import opened LexerSymbols

  /////////////////////////// words ///////////////////////////

  predicate IsWord(t: string) { |t| > 0 && IsWordStart(t[0]) && forall k :: 0 <= k < |t| ==> IsWordChar(t[k]) }

  lemma {:induction false} WordRuns(t: string, i: nat)
    requires IsWord(t) && i <= |t|
    ensures WordEnd(t, i, |t|) == |t|
    decreases |t| - i
  {
    if i < |t| { WordRuns(t, i + 1); }
  }

  /** A word is an identifier or a keyword, unless it is reserved. */
  lemma WordLexeme(t: string)
    requires IsWord(t) && !IsReserved(t)
    ensures IsLexeme(t, WordKind(t))
  {
    hide WordKind, IsReserved, WordEnd;
    WordRuns(t, 1);
    assert t[0..|t|] == t;
  }

  function KeywordText(k: Kind): string {
    if k == KwAs then "as" else if k == KwBreak then "break" else if k == KwConst then "const"
    else if k == KwContinue then "continue" else if k == KwElse then "else" else if k == KwEnum then "enum"
    else if k == KwFalse then "false" else if k == KwImm then "imm" else if k == KwIn then "in"
    else if k == KwFn then "fn" else if k == KwFor then "for" else if k == KwIf then "if"
    else if k == KwLet then "let" else if k == KwMatch then "match" else if k == KwMod then "mod"
    else if k == KwMut then "mut" else if k == KwProj then "proj" else if k == KwPub then "pub"
    else if k == KwRet then "ret" else if k == KwStruct then "struct" else if k == KwTensor then "tensor"
    else if k == KwTrait then "trait" else if k == KwTrue then "true" else if k == KwUnion then "union"
    else if k == KwUnsafe then "unsafe" else if k == KwImpl then "impl" else if k == KwSelf then "Self"
    else if k == KwUse then "use" else if k == KwWhile then "while" else ""
  }

  lemma Keywords0(k: Kind)
    requires KwAs <= k <= KwFn
    ensures WordKind(KeywordText(k)) == k && !IsReserved(KeywordText(k)) && IsWord(KeywordText(k))
  {
  }

  lemma Keywords1(k: Kind)
    requires KwFor <= k <= KwMod
    ensures WordKind(KeywordText(k)) == k && !IsReserved(KeywordText(k)) && IsWord(KeywordText(k))
  {
  }

  lemma Keywords4(k: Kind)
    requires KwMut <= k <= KwStruct
    ensures WordKind(KeywordText(k)) == k && !IsReserved(KeywordText(k)) && IsWord(KeywordText(k))
  {
  }

  lemma Keywords2(k: Kind)
    requires KwTensor <= k <= KwUnsafe
    ensures WordKind(KeywordText(k)) == k && !IsReserved(KeywordText(k)) && IsWord(KeywordText(k))
  {
  }

  lemma Keywords3(k: Kind)
    requires KwImpl <= k <= KwWhile
    ensures WordKind(KeywordText(k)) == k && !IsReserved(KeywordText(k)) && IsWord(KeywordText(k))
  {
  }

  /** Every keyword lexes to its own kind. */
  lemma KeywordLexeme(k: Kind)
    requires KwAs <= k <= KwWhile
    ensures IsLexeme(KeywordText(k), k)
  {
    hide WordKind, IsReserved, KeywordText, IsWord;
    if k <= KwFn {
      Keywords0(k);
    } else if k <= KwMod {
      Keywords1(k);
    } else if k <= KwStruct {
      Keywords4(k);
    } else if k <= KwUnsafe {
      Keywords2(k);
    } else {
      Keywords3(k);
    }
    WordLexeme(KeywordText(k));
  }

  /////////////////////////// symbols ///////////////////////////

  lemma SymbolStart(k: Kind)
    requires SymbolText(k) != ""
    ensures var c := SymbolText(k)[0]; !IsWordStart(c) && !IsDigit(c) && c != '"' && c != '\'' && |SymbolText(k)| <= 3
    ensures SymbolText(k)[0] == '/' && |SymbolText(k)| > 1 ==> SymbolText(k)[1] == '='
  {
  }

  lemma SymbolSelf(k: Kind)
    requires SymbolText(k) != ""
    ensures var t := SymbolText(k); Symbol(t, 0, |t|) == (k, |t|) && k != Unknown
  {
    hide Symbol, SymbolText;
    var t := SymbolText(k);
    assert t[0..|t|] == t;
    LongestMatch(t, 0, |t|, k);
    var r := Symbol(t, 0, |t|);
    assert t[0..r.1] == t;
    Distinct(r.0, k);
    Unknowns();
  }

  lemma Unknowns()
    ensures SymbolText(Unknown) == ""
  {
  }

  lemma Distinct(j: Kind, k: Kind)
    requires SymbolText(j) == SymbolText(k) != ""
    ensures j == k
  {
    hide Single, Double, Triple, SymbolText;
    Lengths(j);
    Lengths(k);
    NonEmpty(j);
    NonEmpty(k);
    if Single(j) != "" { DistinctSingle(j, k); } else if Double(j) != "" { DistinctDouble(j, k); } else {
      DistinctTriple(j, k);
    }
  }

  lemma NonEmpty(k: Kind)
    requires SymbolText(k) != ""
    ensures Single(k) != "" || Double(k) != "" || Triple(k) != ""
  {
    hide Single, Double, Triple;
  }

  // The kind that a text belongs to.
  function SingleKind(c: char): Kind {
    if c == '(' then LParen else if c == ')' then RParen else if c == '{' then LBrace else if c == '}' then RBrace
    else if c == '[' then LSquare else if c == ']' then RSquare else if c == ',' then Comma else if c == ';' then Semi
    else if c == ':' then Colon else if c == '+' then Plus else if c == '-' then Minus else if c == '*' then Star
    else if c == '/' then Slash else if c == '%' then Percent else if c == '^' then Caret else if c == '|' then Pipe
    else if c == '&' then Amp else if c == '!' then Bang else if c == '<' then Less else if c == '>' then Greater
    else if c == '=' then Eq else if c == '.' then Dot else if c == '@' then At else Question
  }

  lemma DistinctSingle(j: Kind, k: Kind)
    requires Single(j) == Single(k) != ""
    ensures j == k
  {
    hide Single;
    SingleInverse(j);
    SingleInverse(k);
  }

  lemma SingleInverse(k: Kind)
    requires Single(k) != ""
    ensures SingleKind(Single(k)[0]) == k
  {
  }

  lemma DistinctDouble(j: Kind, k: Kind)
    requires Double(j) == Double(k) != ""
    ensures j == k
  {
    hide Double;
    DoubleInverse(j);
    DoubleInverse(k);
  }

  lemma DoubleInverse(k: Kind)
    requires Double(k) != ""
    ensures Operator(Double(k), 0, 2).0 == k || Double(k) == "=="
    ensures Double(k) == "==" ==> k == EqEq
  {
  }

  lemma DistinctTriple(j: Kind, k: Kind)
    requires Triple(j) == Triple(k) != ""
    ensures j == k
  {
    assert Triple(j)[0] == Triple(k)[0];
  }

  /** Every symbol lexes to its own kind. */
  lemma SymbolLexeme(k: Kind)
    requires SymbolText(k) != ""
    ensures IsLexeme(SymbolText(k), k)
  {
    hide Symbol, SymbolText;
    SymbolStart(k);
    SymbolSelf(k);
  }

  /////////////////////////// numerals ///////////////////////////

  // Digits and single separators; `und` tells whether a separator stands in front.
  predicate IsSeparated(t: string, i: nat, z: nat, hex: Switch, und: Switch)
    requires i <= z <= |t|
    decreases z - i
  {
    i == z || (if (if hex.On? then IsHexDigit(t[i]) else IsDigit(t[i])) then IsSeparated(t, i + 1, z, hex, Off)
               else t[i] == '_' && und.Off? && IsSeparated(t, i + 1, z, hex, On))
  }

  // The end of the integer part: the end of the text, or a decimal point or suffix.
  predicate IsIntEnd(t: string, z: nat, hex: Switch)
    requires z <= |t|
  {
    z == |t| || (hex.Off? && (t[z] == '.' || t[z] == 'f'))
  }

  lemma {:induction false} Separated(t: string, i: nat, z: nat, hex: Switch, und: Switch)
    requires i <= z <= |t| && IsSeparated(t, i, z, hex, und) && IsIntEnd(t, z, hex)
    ensures var r := IntPart(t, i, |t|, hex, und); r.end == z && !r.dup
    ensures hex.On? && i < z && t[z - 1] != '_' ==> IntPart(t, i, |t|, hex, und).digits > 0
    decreases z - i
  {
    if i < z {
      if hex.On? && IsHexDigit(t[i]) { Separated(t, i + 1, z, hex, Off); }
      else if hex.Off? && IsDigit(t[i]) { Separated(t, i + 1, z, hex, Off); }
      else { Separated(t, i + 1, z, hex, On); }
    }
  }

  lemma NoHexPrefix(t: string, z: nat)
    requires 1 <= z <= |t| && IsSeparated(t, 1, z, Off, Off) && IsIntEnd(t, z, Off)
    ensures !IsHexPrefix(t, 0, |t|)
  {
  }

  // A decimal numeral: digits, single separators inside.
  predicate IsDecimal(t: string) {
    |t| > 0 && IsDigit(t[0]) && IsSeparated(t, 1, |t|, Off, Off) && t[|t| - 1] != '_'
  }

  // A hexadecimal numeral: digits behind the prefix, and single separators, though not at the end.
  predicate IsHexadecimal(t: string) {
    && |t| > 2 && t[0] == '0' && (t[1] == 'x' || t[1] == 'X')
    && IsSeparated(t, 2, |t|, On, Off) && t[|t| - 1] != '_'
  }

  // Digits and separators that a suffix makes a fraction.
  predicate IsSuffixed(t: string) {
    |t| > 1 && IsDigit(t[0]) && IsSeparated(t, 1, |t| - 1, Off, Off) && t[|t| - 1] == 'f'
  }

  // Integer part, the point at `z`, a digit, then digits and separators, perhaps a suffix.
  predicate IsFraction(t: string, z: nat) {
    && 0 < z && z + 1 < |t| && IsDigit(t[0]) && IsSeparated(t, 1, z, Off, Off) && t[z] == '.' && IsDigit(t[z + 1])
    && forall k :: z < k < |t| ==> IsDigit(t[k]) || t[k] == '_' || (k == |t| - 1 && t[k] == 'f')
  }

  lemma DecimalLexeme(t: string)
    requires IsDecimal(t)
    ensures IsLexeme(t, IntegerLiteral)
  {
    hide IntPart;
    NoHexPrefix(t, |t|);
    Separated(t, 1, |t|, Off, Off);
  }

  lemma HexLexeme(t: string)
    requires IsHexadecimal(t)
    ensures IsLexeme(t, IntegerLiteral)
  {
    hide IntPart;
    Separated(t, 2, |t|, On, Off);
  }

  lemma SuffixLexeme(t: string)
    requires IsSuffixed(t)
    ensures IsLexeme(t, FloatLiteral)
  {
    hide IntPart;
    NoHexPrefix(t, |t| - 1);
    Separated(t, 1, |t| - 1, Off, Off);
  }

  lemma FloatLexeme(t: string, z: nat)
    requires IsFraction(t, z)
    ensures IsLexeme(t, FloatLiteral)
  {
    hide IntPart, FracEnd;
    NoHexPrefix(t, z);
    Separated(t, 1, z, Off, Off);
    FracRuns(t, z + 1);
  }

  // The scan of an integer part has read digits and single separators.
  lemma {:induction false} ScanSeparated(t: string, i: nat, hex: Switch, und: Switch)
    requires i <= |t| && !IntPart(t, i, |t|, hex, und).dup
    ensures IsSeparated(t, i, IntPart(t, i, |t|, hex, und).end, hex, und)
    ensures i == |t| ==> IntPart(t, i, |t|, hex, und).digits == 0
    decreases |t| - i
  {
    if i < |t| {
      if hex.On? && IsHexDigit(t[i]) { ScanSeparated(t, i + 1, hex, Off); }
      else if hex.Off? && IsDigit(t[i]) { ScanSeparated(t, i + 1, hex, Off); }
      else if t[i] == '_' { ScanSeparated(t, i + 1, hex, On); }
    }
  }

  // Nothing but a digit begins a numeral.
  lemma DigitFirst(t: string, k: Kind)
    requires IsLexeme(t, k) && (k == IntegerLiteral || k == FloatLiteral)
    ensures IsDigit(t[0]) && LexNumber(t, 0, |t|) == Lexeme([Tok(Token(k, Span(0, |t|)))], |t|)
  {
    hide LexNumber, QuoteScan, BlockScan, LineEnd, WordEnd, Symbol, SlashEnd;
    SymbolNotLiteral(t, 0, |t|);
    var items := LexOne(t, 0, |t|).items;
    assert items[|items| - 1] == Tok(Token(k, Span(0, |t|)));
  }

  lemma SymbolNotLiteral(s: string, p: nat, e: nat)
    requires p < e <= |s|
    ensures var k := Symbol(s, p, e).0; k != IntegerLiteral && k != FloatLiteral
  {
  }

  /** The integer tokens are the decimal and the hexadecimal numerals. */
  lemma IntegerIff(t: string)
    ensures IsLexeme(t, IntegerLiteral) <==> IsDecimal(t) || IsHexadecimal(t)
  {
    hide IntPart, FloatEnd, IsLexeme;
    if IsDecimal(t) { DecimalLexeme(t); }
    if IsHexadecimal(t) { HexLexeme(t); }
    if IsLexeme(t, IntegerLiteral) {
      DigitFirst(t, IntegerLiteral);
      var hex := IsHexPrefix(t, 0, |t|);
      if hex { ScanSeparated(t, 2, On, Off); } else { ScanSeparated(t, 1, Off, Off); }
    }
  }

  /** The fraction tokens are the numerals with a point and a digit behind it, and those with a suffix. */
  lemma FloatIff(t: string)
    ensures IsLexeme(t, FloatLiteral) <==> IsSuffixed(t) || exists z :: IsFraction(t, z)
  {
    hide IntPart, FracEnd, IsLexeme;
    if IsSuffixed(t) { SuffixLexeme(t); }
    if z :| IsFraction(t, z) { FloatLexeme(t, z); }
    if IsLexeme(t, FloatLiteral) {
      DigitFirst(t, FloatLiteral);
      ScanSeparated(t, 1, Off, Off);
      var z := IntScanAt(t, 0, |t|).end;
      if HasFraction(t, z, |t|) { assert IsFraction(t, z); }
    }
  }

  lemma {:induction false} FracRuns(t: string, i: nat)
    requires i <= |t| && forall k :: i <= k < |t| ==> IsDigit(t[k]) || t[k] == '_' || (k == |t| - 1 && t[k] == 'f')
    ensures FloatEnd(t, i, |t|) == |t|
    decreases |t| - i
  {
    if i < |t| && t[i] != 'f' { FracRuns(t, i + 1); }
  }

  /////////////////////////// quoted literals ///////////////////////////

  // What may stand between the quotes: a simple escape, a Unicode escape with digits, or bytes that
  // are neither quote, backslash nor line end.
  datatype Piece = Simple(c: char) | Unicode(digits: string) | Plain(c: char)

  predicate IsPiece(p: Piece, quote: char) {
    match p
    case Simple(c) => IsSimpleEscape(c)
    case Unicode(d) => |d| > 0 && forall k :: 0 <= k < |d| ==> IsHexDigit(d[k])
    case Plain(c) => c != '\\' && c != quote && !IsNewline(c)
  }

  function PieceText(p: Piece): string {
    match p
    case Simple(c) => ['\\', c]
    case Unicode(d) => "\\u{" + d + "}"
    case Plain(c) => [c]
  }

  function PiecesText(ps: seq<Piece>): string { if ps == [] then "" else PieceText(ps[0]) + PiecesText(ps[1..]) }

  // Characters: continuation bytes do not count.
  function PieceCount(ps: seq<Piece>): nat {
    if ps == [] then 0 else (if ps[0].Plain? && IsContinuation(ps[0].c) then 0 else 1) + PieceCount(ps[1..])
  }

  lemma HexRuns(t: string, i: nat, n: nat)
    requires i + n <= |t| && (forall k :: i <= k < i + n ==> IsHexDigit(t[k]))
             && (i + n < |t| ==> !IsHexDigit(t[i + n]))
    ensures HexEnd(t, i, |t|) == i + n
    decreases n
  {
    if n > 0 { HexRuns(t, i + 1, n - 1); }
  }

  lemma EscapeRead(t: string, i: nat, p: Piece, quote: char)
    requires IsPiece(p, quote) && !p.Plain? && Stands(t, i, PieceText(p)) && i + |PieceText(p)| < |t|
    ensures Escape(t, i, |t|) == Lexeme([], i + |PieceText(p)|)
  {
    hide HexEnd;
    var x := PieceText(p);
    assert t[i + 0] == x[0] && t[i + 1] == x[1];
    if p.Unicode? {
      var d := p.digits;
      assert t[i + 2] == x[2];
      forall k | i + 3 <= k < i + 3 + |d| ensures IsHexDigit(t[k]) {
        assert t[i + (k - i)] == x[k - i] == d[k - i - 3];
      }
      assert t[i + (3 + |d|)] == x[3 + |d|];
      HexRuns(t, i + 3, |d|);
    }
  }

  // A piece at the head of the scan.
  lemma PieceRead(t: string, i: nat, p: Piece, quote: char)
    requires IsPiece(p, quote) && (quote == '"' || quote == '\'') && Stands(t, i, PieceText(p))
    requires i + |PieceText(p)| < |t|
    ensures QuoteScan(t, i, |t|, quote)
            == Lexing.After([], if p.Plain? && IsContinuation(p.c) then 0 else 1,
                            QuoteScan(t, i + |PieceText(p)|, |t|, quote))
  {
    hide Escape;
    assert t[i + 0] == PieceText(p)[0];
    if !p.Plain? { EscapeRead(t, i, p, quote); }
  }

  lemma PiecesSplit(ps: seq<Piece>, quote: char)
    requires ps != []
    ensures PiecesText(ps) + [quote] == PieceText(ps[0]) + (PiecesText(ps[1..]) + [quote])
    ensures |PieceText(ps[0])| > 0
  {
  }

  lemma {:induction false} PiecesRead(t: string, i: nat, ps: seq<Piece>, quote: char)
    requires (forall k :: 0 <= k < |ps| ==> IsPiece(ps[k], quote)) && (quote == '"' || quote == '\'')
    requires Stands(t, i, PiecesText(ps) + [quote]) && i + |PiecesText(ps)| + 1 == |t|
    ensures QuoteScan(t, i, |t|, quote) == Quoted([], |t|, true, PieceCount(ps))
    decreases |ps|
  {
    hide Escape, Stands, PieceText, IsPiece;
    if ps == [] {
      LastQuote(t, i, quote);
    } else {
      hide QuoteScan;
      PiecesSplit(ps, quote);
      StandsCat(t, i, PieceText(ps[0]), PiecesText(ps[1..]) + [quote]);
      PiecesRead(t, i + |PieceText(ps[0])|, ps[1..], quote);
      PieceRead(t, i, ps[0], quote);
    }
  }

  lemma LastQuote(t: string, i: nat, quote: char)
    requires i + 1 == |t| && Stands(t, i, PiecesText([]) + [quote]) && quote != '\\'
    ensures QuoteScan(t, i, |t|, quote) == Quoted([], |t|, true, 0)
  {
    assert PiecesText([]) + [quote] == [quote];
    assert t[i + 0] == [quote][0];
  }

  lemma BodyStands(body: string, quote: char)
    ensures Stands([quote] + body, 1, body)
  {
  }

  lemma StringOne(t: string, n: nat)
    requires |t| > 0 && t[0] == '"' && QuoteScan(t, 1, |t|, '"') == Quoted([], |t|, true, n)
    ensures IsLexeme(t, StringLiteral)
  {
    hide QuoteScan, LexComment, LexWord, LexNumber, LexSymbol, LexChar;
  }

  lemma CharOne(t: string)
    requires |t| > 0 && t[0] == '\'' && QuoteScan(t, 1, |t|, '\'') == Quoted([], |t|, true, 1)
    ensures IsLexeme(t, CharLiteral)
  {
    hide QuoteScan, LexComment, LexWord, LexNumber, LexSymbol, LexString;
  }

  /** A string of valid pieces between double quotes. */
  lemma StringLexeme(ps: seq<Piece>)
    requires forall k :: 0 <= k < |ps| ==> IsPiece(ps[k], '"')
    ensures IsLexeme(['"'] + (PiecesText(ps) + ['"']), StringLiteral)
  {
    hide QuoteScan, PiecesText, PieceCount, Stands, IsPiece, IsLexeme;
    var body := PiecesText(ps) + ['"'];
    BodyStands(body, '"');
    PiecesRead(['"'] + body, 1, ps, '"');
    StringOne(['"'] + body, PieceCount(ps));
  }

  /** Valid pieces that are one character between single quotes. */
  lemma CharLexeme(ps: seq<Piece>)
    requires (forall k :: 0 <= k < |ps| ==> IsPiece(ps[k], '\'')) && PieceCount(ps) == 1
    ensures IsLexeme(['\''] + (PiecesText(ps) + ['\'']), CharLiteral)
  {
    hide QuoteScan, PiecesText, PieceCount, Stands, IsPiece, IsLexeme;
    var body := PiecesText(ps) + ['\''];
    BodyStands(body, '\'');
    PiecesRead(['\''] + body, 1, ps, '\'');
    CharOne(['\''] + body);
  }

  // The bytes of one scalar value as section 3 of RFC 3629 encodes it: a byte below 0x80, or a lead
  // byte and one to three continuation bytes.
  predicate IsScalar(b: string) {
    && 0 < |b| <= 4
    && (if |b| == 1 then b[0] as int < 0x80 && IsPiece(Plain(b[0]), '\'') else 0xC2 <= b[0] as int <= 0xF4)
    && forall k :: 0 < k < |b| ==> IsContinuation(b[k])
  }

  function Bytes(b: string): seq<Piece> { if b == "" then [] else [Plain(b[0])] + Bytes(b[1..]) }

  lemma {:induction false} BytesText(b: string)
    ensures PiecesText(Bytes(b)) == b
    decreases |b|
  {
    if b != "" {
      BytesText(b[1..]);
      assert Bytes(b)[0] == Plain(b[0]) && Bytes(b)[1..] == Bytes(b[1..]);
    }
  }

  lemma {:induction false} BytesAre(b: string)
    ensures |Bytes(b)| == |b| && forall k :: 0 <= k < |b| ==> Bytes(b)[k] == Plain(b[k])
    decreases |b|
  {
    if b != "" {
      var rest := b[1..];
      BytesAre(rest);
      forall k | 0 <= k < |b| ensures Bytes(b)[k] == Plain(b[k]) {
        if k > 0 { assert Bytes(b)[k] == Bytes(rest)[k - 1] == Plain(rest[k - 1]); }
      }
    }
  }

  lemma {:induction false} ContinuationsCount(b: string)
    requires forall k :: 0 <= k < |b| ==> IsContinuation(b[k])
    ensures PieceCount(Bytes(b)) == 0
    decreases |b|
  {
    hide IsContinuation;
    if b != "" {
      ContinuationsCount(b[1..]);
      assert Bytes(b)[0] == Plain(b[0]) && Bytes(b)[1..] == Bytes(b[1..]);
    }
  }

  /** One scalar value between single quotes is a character literal, however many bytes it takes. */
  lemma ScalarLexeme(b: string)
    requires IsScalar(b)
    ensures IsLexeme(['\''] + (b + ['\'']), CharLiteral)
  {
    hide QuoteScan, PiecesText, IsLexeme;
    var ps := Bytes(b);
    BytesText(b);
    BytesAre(b);
    assert forall k :: 0 < k < |b| ==> b[1..][k - 1] == b[k];
    ContinuationsCount(b[1..]);
    assert ps[1..] == Bytes(b[1..]);
    assert PieceCount(ps) == 1;
    CharLexeme(ps);
  }
}
