/** The lexer: from bytes to tokens and lexical errors, on any range of a buffer. */
module Lexing {
  import opened Tokens

  datatype LexError =
    | UnterminatedStringLiteral | UnterminatedCharLiteral | UnterminatedBlockComment
    | InvalidCharacter | InvalidEscapeSequence | InvalidUnicodeEscape
    | EmptyCharLiteral | MultiCharCharLiteral | InvalidNumericLiteral | ReservedKeyword

  datatype Item = Tok(t: Token) | Err(e: LexError, span: Span)

  // What one turn of the main loop adds to the items, and where it stops.
  datatype Lexeme = Lexeme(items: seq<Item>, end: nat)

  /////////////////////////// characters ///////////////////////////

  predicate IsSpace(c: char) { c == ' ' || c == '\t' || c == '\n' || c == '\r' }

  predicate IsAlpha(c: char) { 'a' <= c <= 'z' || 'A' <= c <= 'Z' }

  predicate IsHexDigit(c: char) { IsDigit(c) || 'a' <= c <= 'f' || 'A' <= c <= 'F' }

  predicate IsWordStart(c: char) { IsAlpha(c) || c == '_' }

  predicate IsWordChar(c: char) { IsAlpha(c) || IsDigit(c) || c == '_' }

  predicate IsNewline(c: char) { c == '\n' || c == '\r' }

  // A byte of the form 10xxxxxx, which continues a character (section 3 of RFC 3629).
  predicate IsContinuation(c: char) { 0x80 <= c as int < 0xC0 }

  predicate IsSimpleEscape(c: char) {
    c == 'n' || c == 't' || c == 'r' || c == '0' || c == '\\' || c == '"' || c == '\''
  }

  /////////////////////////// runs of characters ///////////////////////////

  function SkipWs(s: string, i: nat, e: nat): (r: nat)
    requires i <= e <= |s|
    ensures i <= r <= e && (r < e ==> !IsSpace(s[r])) && forall k :: i <= k < r ==> IsSpace(s[k])
    decreases e - i
  {
    if i < e && IsSpace(s[i]) then SkipWs(s, i + 1, e) else i
  }

  function WordEnd(s: string, i: nat, e: nat): (r: nat)
    requires i <= e <= |s|
    ensures i <= r <= e && (r < e ==> !IsWordChar(s[r])) && forall k :: i <= k < r ==> IsWordChar(s[k])
    decreases e - i
  {
    if i < e && IsWordChar(s[i]) then WordEnd(s, i + 1, e) else i
  }

  function HexEnd(s: string, i: nat, e: nat): (r: nat)
    requires i <= e <= |s|
    ensures i <= r <= e && (r < e ==> !IsHexDigit(s[r])) && forall k :: i <= k < r ==> IsHexDigit(s[k])
    decreases e - i
  {
    if i < e && IsHexDigit(s[i]) then HexEnd(s, i + 1, e) else i
  }

  // Digits and separators behind a decimal point.
  function FracEnd(s: string, i: nat, e: nat): (r: nat)
    requires i <= e <= |s|
    ensures i <= r <= e && (r < e ==> !IsDigit(s[r]) && s[r] != '_')
    ensures forall k :: i <= k < r ==> IsDigit(s[k]) || s[k] == '_'
    decreases e - i
  {
    if i < e && (IsDigit(s[i]) || s[i] == '_') then FracEnd(s, i + 1, e) else i
  }

  function SlashEnd(s: string, i: nat, e: nat): (r: nat)
    requires i <= e <= |s|
    ensures i <= r <= e && (r < e ==> s[r] != '/') && forall k :: i <= k < r ==> s[k] == '/'
    decreases e - i
  {
    if i < e && s[i] == '/' then SlashEnd(s, i + 1, e) else i
  }

  function LineEnd(s: string, i: nat, e: nat): (r: nat)
    requires i <= e <= |s|
    ensures i <= r <= e && (r < e ==> IsNewline(s[r])) && forall k :: i <= k < r ==> !IsNewline(s[k])
    decreases e - i
  {
    if i < e && !IsNewline(s[i]) then LineEnd(s, i + 1, e) else i
  }

  /////////////////////////// words ///////////////////////////

  // The keyword that a word is, or an identifier.
  function WordKind(w: string): Kind {
    if w == "as" then KwAs else if w == "break" then KwBreak else if w == "const" then KwConst
    else if w == "continue" then KwContinue else if w == "else" then KwElse else if w == "enum" then KwEnum
    else if w == "false" then KwFalse else if w == "imm" then KwImm else if w == "in" then KwIn
    else if w == "fn" then KwFn else if w == "for" then KwFor else if w == "if" then KwIf
    else if w == "let" then KwLet else if w == "match" then KwMatch else if w == "mod" then KwMod
    else if w == "mut" then KwMut else if w == "proj" then KwProj else if w == "pub" then KwPub
    else if w == "ret" then KwRet else if w == "struct" then KwStruct else if w == "tensor" then KwTensor
    else if w == "trait" then KwTrait else if w == "true" then KwTrue else if w == "union" then KwUnion
    else if w == "unsafe" then KwUnsafe else if w == "impl" then KwImpl else if w == "Self" then KwSelf
    else if w == "use" then KwUse else if w == "while" then KwWhile else Identifier
  }

  predicate IsReserved(w: string) {
    || w == "dim" || w == "ref" || w == "return" || w == "shape" || w == "sym" || w == "tsor" || w == "type"
    || w == "where"
  }

  function LexWord(s: string, p: nat, e: nat): (r: Lexeme)
    requires p < e <= |s|
    ensures p < r.end <= e
  {
    var z := WordEnd(s, p + 1, e);
    var w := s[p..z];
    Lexeme([if IsReserved(w) then Err(ReservedKeyword, Span(p, z)) else Tok(Token(WordKind(w), Span(p, z)))], z)
  }

  /////////////////////////// numerals ///////////////////////////

  // The integer part: its end, how many hexadecimal digits, and whether it was abandoned at a
  // second separator in a row.
  datatype IntScan = IntScan(end: nat, digits: nat, dup: bool)

  function IntPart(s: string, i: nat, e: nat, hex: Switch, und: Switch): (r: IntScan)
    requires i <= e <= |s|
    ensures i <= r.end <= e && (r.dup ==> r.end < e && s[r.end] == '_')
    decreases e - i
  {
    if i >= e then IntScan(i, 0, false)
    else if hex.On? && IsHexDigit(s[i]) then var r := IntPart(s, i + 1, e, hex, Off); r.(digits := r.digits + 1)
    else if hex.Off? && IsDigit(s[i]) then IntPart(s, i + 1, e, hex, Off)
    else if s[i] != '_' then IntScan(i, 0, false)
    else if und.On? then IntScan(i, 0, true)
    else IntPart(s, i + 1, e, hex, On)
  }

  predicate IsHexPrefix(s: string, p: nat, e: nat)
    requires p < e <= |s|
  {
    s[p] == '0' && p + 1 < e && (s[p + 1] == 'x' || s[p + 1] == 'X')
  }

  function HexSwitch(s: string, p: nat, e: nat): Switch
    requires p < e <= |s|
  {
    if IsHexPrefix(s, p, e) then On else Off
  }

  function IntScanAt(s: string, p: nat, e: nat): (r: IntScan)
    requires p < e <= |s|
    ensures p < r.end <= e
  {
    IntPart(s, if IsHexPrefix(s, p, e) then p + 2 else p + 1, e, HexSwitch(s, p, e), Off)
  }

  predicate HasFraction(s: string, z: nat, e: nat)
    requires e <= |s|
  {
    z + 1 < e && s[z] == '.' && IsDigit(s[z + 1])
  }

  function FloatEnd(s: string, i: nat, e: nat): (r: nat)
    requires i <= e <= |s|
    ensures i <= r <= e
  {
    var f := FracEnd(s, i, e);
    if f < e && s[f] == 'f' then f + 1 else f
  }

  // A numeral abandoned at `__` leaves before its range is set: its error has the range (0,0).
  function LexNumber(s: string, p: nat, e: nat): (r: Lexeme)
    requires p < e <= |s|
    ensures p < r.end <= e
  {
    var hex := IsHexPrefix(s, p, e);
    var n := IntScanAt(s, p, e);
    var z := n.end;
    if n.dup then Lexeme([Err(InvalidNumericLiteral, Span(0, 0))], z)
    else if !hex && HasFraction(s, z, e) then
      var f := FloatEnd(s, z + 1, e);
      Lexeme([Tok(Token(FloatLiteral, Span(p, f)))], f)
    else if !hex && z < e && s[z] == 'f' then Lexeme([Tok(Token(FloatLiteral, Span(p, z + 1)))], z + 1)
    else if (hex && n.digits == 0) || s[z - 1] == '_' then Lexeme([Err(InvalidNumericLiteral, Span(p, z))], z)
    else Lexeme([Tok(Token(IntegerLiteral, Span(p, z)))], z)
  }

  /////////////////////////// quoted literals ///////////////////////////

  // Inside quotes: the errors pushed, the end, whether the closing quote was found, and how many
  // characters there are.
  datatype Quoted = Quoted(errs: seq<Item>, end: nat, closed: bool, count: nat)

  function After(errs: seq<Item>, n: nat, q: Quoted): Quoted { Quoted(errs + q.errs, q.end, q.closed, n + q.count) }

  predicate IsUnicodeEscape(s: string, i: nat, e: nat)
    requires e <= |s|
  {
    i + 1 < e && s[i] == 'u' && s[i + 1] == '{'
  }

  // The escape `\\u{...}` whose backslash is at `b`: its end and its errors.
  function UnicodeEscape(s: string, b: nat, e: nat): (r: Lexeme)
    requires e <= |s| && IsUnicodeEscape(s, b + 1, e)
    ensures b + 2 < r.end <= e
  {
    var h := HexEnd(s, b + 3, e);
    if h >= e || s[h] != '}' then Lexeme([Err(InvalidUnicodeEscape, Span(b, h))], h)
    else Lexeme(if h == b + 3 then [Err(InvalidUnicodeEscape, Span(b, h + 1))] else [], h + 1)
  }

  // Any escape; it counts as one character whether it is valid or not.
  function Escape(s: string, b: nat, e: nat): (r: Lexeme)
    requires b + 1 < e <= |s|
    ensures b + 1 < r.end <= e
  {
    if IsUnicodeEscape(s, b + 1, e) then UnicodeEscape(s, b, e)
    else Lexeme(if IsSimpleEscape(s[b + 1]) then [] else [Err(InvalidEscapeSequence, Span(b, b + 2))], b + 2)
  }

  function QuoteScan(s: string, i: nat, e: nat, quote: char): (r: Quoted)
    requires i <= e <= |s|
    ensures i <= r.end <= e && (r.closed ==> i < r.end && s[r.end - 1] == quote)
    decreases e - i
  {
    if i >= e then Quoted([], i, false, 0)
    else if s[i] == '\\' then
      if i + 1 >= e then Quoted([Err(InvalidEscapeSequence, Span(i, i + 1))], i + 1, false, 0)
      else After(Escape(s, i, e).items, 1, QuoteScan(s, Escape(s, i, e).end, e, quote))
    else if s[i] == quote then Quoted([], i + 1, true, 0)
    else if IsNewline(s[i]) then Quoted([], i + 1, false, 0)
    else After([], if IsContinuation(s[i]) then 0 else 1, QuoteScan(s, i + 1, e, quote))
  }

  function LexString(s: string, p: nat, e: nat): (r: Lexeme)
    requires p < e <= |s|
    ensures p < r.end <= e
  {
    var q := QuoteScan(s, p + 1, e, '"');
    var sp := Span(p, q.end);
    Lexeme(q.errs + [if q.closed then Tok(Token(StringLiteral, sp)) else Err(UnterminatedStringLiteral, sp)], q.end)
  }

  function LexChar(s: string, p: nat, e: nat): (r: Lexeme)
    requires p < e <= |s|
    ensures p < r.end <= e
  {
    var q := QuoteScan(s, p + 1, e, '\'');
    var sp := Span(p, q.end);
    Lexeme(q.errs + [if !q.closed then Err(UnterminatedCharLiteral, sp)
                     else if q.count == 1 then Tok(Token(CharLiteral, sp))
                     else if q.count == 0 then Err(EmptyCharLiteral, sp)
                     else Err(MultiCharCharLiteral, sp)], q.end)
  }

  /////////////////////////// comments ///////////////////////////

  predicate Opens(s: string, i: nat, e: nat) requires e <= |s| { i + 1 < e && s[i] == '/' && s[i + 1] == '*' }

  predicate Closes(s: string, i: nat, e: nat) requires e <= |s| { i + 1 < e && s[i] == '*' && s[i + 1] == '/' }

  // Where a block comment ends that is `depth` levels deep at `i`, and how deep it still is there.
  function BlockScan(s: string, i: nat, e: nat, depth: nat): (r: (nat, nat))
    requires i <= e <= |s|
    ensures i <= r.0 <= e && (r.1 > 0 ==> r.0 == e)
    decreases e - i
  {
    if i >= e || depth == 0 then (i, depth)
    else if Opens(s, i, e) then BlockScan(s, i + 2, e, depth + 1)
    else if Closes(s, i, e) then BlockScan(s, i + 2, e, depth - 1)
    else BlockScan(s, i + 1, e, depth)
  }

  predicate IsComment(s: string, p: nat, e: nat)
    requires p < e <= |s|
  {
    s[p] == '/' && p + 1 < e && (s[p + 1] == '*' || s[p + 1] == '/')
  }

  // How many slashes tells a comment from documentation.
  function LineKind(s: string, p: nat, e: nat): Kind
    requires p + 1 < e <= |s|
  {
    var z := SlashEnd(s, p + 2, e);
    if z == p + 3 then DocCommentTok
    else if z == p + 2 && z < e && s[z] == '!' then FileDocCommentTok
    else CommentTok
  }

  function LexComment(s: string, p: nat, e: nat): (r: Lexeme)
    requires p < e <= |s| && IsComment(s, p, e)
    ensures p < r.end <= e
  {
    if s[p + 1] == '*' then
      var (z, depth) := BlockScan(s, p + 2, e, 1);
      var errs := if depth > 0 then [Err(UnterminatedBlockComment, Span(p, z))] else [];
      Lexeme(errs + [Tok(Token(CommentTok, Span(p, z)))], z)
    else
      var z := LineEnd(s, p + 2, e);
      Lexeme([Tok(Token(LineKind(s, p, e), Span(p, z)))], z)
  }

  /////////////////////////// symbols ///////////////////////////

  predicate Sees(s: string, i: nat, e: nat, c: char) requires e <= |s| { i < e && s[i] == c }

  // The symbol at `p` and its length; `Unknown` and 1 where there is none.
  function Symbol(s: string, p: nat, e: nat): (r: (Kind, nat))
    requires p < e <= |s|
    ensures 1 <= r.1 && p + r.1 <= e
  {
    var c := s[p];
    if c == '(' then (LParen, 1) else if c == ')' then (RParen, 1)
    else if c == '{' then (LBrace, 1) else if c == '}' then (RBrace, 1)
    else if c == '[' then (LSquare, 1) else if c == ']' then (RSquare, 1)
    else if c == ',' then (Comma, 1) else if c == ';' then (Semi, 1)
    else if c == '.' then (Dot, 1) else if c == '?' then (Question, 1) else if c == '@' then (At, 1)
    else Operator(s, p, e)
  }

  function Operator(s: string, p: nat, e: nat): (r: (Kind, nat))
    requires p < e <= |s|
    ensures 1 <= r.1 && p + r.1 <= e
  {
    var c := s[p];
    if c == ':' then (if Sees(s, p + 1, e, ':') then (ColonColon, 2) else (Colon, 1))
    else if c == '+' then
      (if Sees(s, p + 1, e, '+') then (PlusPlus, 2) else if Sees(s, p + 1, e, '=') then (PlusEq, 2) else (Plus, 1))
    else if c == '-' then
      (if Sees(s, p + 1, e, '-') then (MinusMinus, 2) else if Sees(s, p + 1, e, '=') then (MinusEq, 2)
       else if Sees(s, p + 1, e, '>') then (Arrow, 2) else (Minus, 1))
    else if c == '*' then (if Sees(s, p + 1, e, '=') then (StarEq, 2) else (Star, 1))
    else if c == '/' then (if Sees(s, p + 1, e, '=') then (SlashEq, 2) else (Slash, 1))
    else if c == '%' then (if Sees(s, p + 1, e, '=') then (PercentEq, 2) else (Percent, 1))
    else if c == '&' then
      (if Sees(s, p + 1, e, '&') then (AmpAmp, 2) else if Sees(s, p + 1, e, '=') then (AmpEq, 2) else (Amp, 1))
    else if c == '|' then
      (if Sees(s, p + 1, e, '|') then (PipePipe, 2) else if Sees(s, p + 1, e, '=') then (PipeEq, 2) else (Pipe, 1))
    else if c == '^' then (if Sees(s, p + 1, e, '=') then (CaretEq, 2) else (Caret, 1))
    else Relation(s, p, e)
  }

  function Relation(s: string, p: nat, e: nat): (r: (Kind, nat))
    requires p < e <= |s|
    ensures 1 <= r.1 && p + r.1 <= e
  {
    var c := s[p];
    if c == '<' then
      (if Sees(s, p + 1, e, '<') then (if Sees(s, p + 2, e, '=') then (LessLessEq, 3) else (LessLess, 2))
       else if Sees(s, p + 1, e, '=') then (LessEq, 2) else (Less, 1))
    else if c == '>' then
      (if Sees(s, p + 1, e, '>') then (if Sees(s, p + 2, e, '=') then (GreaterGreaterEq, 3) else (GreaterGreater, 2))
       else if Sees(s, p + 1, e, '=') then (GreaterEq, 2) else (Greater, 1))
    else if c == '=' then
      (if Sees(s, p + 1, e, '=') then (EqEq, 2) else if Sees(s, p + 1, e, '>') then (FatArrow, 2) else (Eq, 1))
    else if c == '!' then (if Sees(s, p + 1, e, '=') then (BangEq, 2) else (Bang, 1))
    else (Unknown, 1)
  }

  function LexSymbol(s: string, p: nat, e: nat): (r: Lexeme)
    requires p < e <= |s|
    ensures p < r.end <= e
  {
    var (k, n) := Symbol(s, p, e);
    Lexeme([if k == Unknown then Err(InvalidCharacter, Span(p, p + n)) else Tok(Token(k, Span(p, p + n)))], p + n)
  }

  /////////////////////////// the main loop ///////////////////////////

  // The lexeme that starts at `p`, when lexing stops at `e`.
  function LexOne(s: string, p: nat, e: nat): (r: Lexeme)
    requires p < e <= |s|
    ensures p < r.end <= e
  {
    var c := s[p];
    if IsComment(s, p, e) then LexComment(s, p, e)
    else if IsWordStart(c) then LexWord(s, p, e)
    else if IsDigit(c) then LexNumber(s, p, e)
    else if c == '"' then LexString(s, p, e)
    else if c == '\'' then LexChar(s, p, e)
    else LexSymbol(s, p, e)
  }

  function LexFrom(s: string, i: nat, e: nat): seq<Item>
    requires i <= e <= |s|
    decreases e - i
  {
    var p := SkipWs(s, i, e);
    if p >= e then [] else
    var l := LexOne(s, p, e);
    l.items + LexFrom(s, l.end, e)
  }

  function EofItem(n: nat): Item { Tok(Token(Eof, Span(n, n))) }

  /** The items of the range `a` to `b`; an end-of-file token only for the whole buffer. */
  function Lex(s: string, a: nat, b: nat): seq<Item> {
    if a > |s| || b > |s| || a > b then []
    else LexFrom(s, a, b) + (if a == 0 && b == |s| then [EofItem(|s|)] else [])
  }
}
