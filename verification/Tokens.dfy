/** Spans, token kinds and the token input that the lexer hands to the parser. */
module Tokens {

  // A half-open range of byte offsets into a source buffer.
  datatype Span = Span(start: nat, end: nat)

  // The token kinds, numbered as the enumeration numbers them: special tokens, literals,
  // punctuation, operators, keywords, then eight reserved words that no token carries, and the arrow.
  newtype Kind = n: int | 0 <= n < 94

  const Unknown: Kind := 0
  const Eof: Kind := 1
  const DocCommentTok: Kind := 2
  const FileDocCommentTok: Kind := 3
  const CommentTok: Kind := 4
  const Identifier: Kind := 5
  const IntegerLiteral: Kind := 6
  const FloatLiteral: Kind := 7
  const CharLiteral: Kind := 8
  const StringLiteral: Kind := 9
  const LParen: Kind := 10
  const RParen: Kind := 11
  const LBrace: Kind := 12
  const RBrace: Kind := 13
  const LSquare: Kind := 14
  const RSquare: Kind := 15
  const Comma: Kind := 16
  const Semi: Kind := 17
  const Colon: Kind := 18
  const ColonColon: Kind := 19
  const Plus: Kind := 20
  const Minus: Kind := 21
  const Star: Kind := 22
  const Slash: Kind := 23
  const Percent: Kind := 24
  const Caret: Kind := 25
  const PlusPlus: Kind := 26
  const MinusMinus: Kind := 27
  const Pipe: Kind := 28
  const LessLess: Kind := 29
  const GreaterGreater: Kind := 30
  const Amp: Kind := 31
  const AmpAmp: Kind := 32
  const PipePipe: Kind := 33
  const Bang: Kind := 34
  const EqEq: Kind := 35
  const BangEq: Kind := 36
  const Less: Kind := 37
  const Greater: Kind := 38
  const LessEq: Kind := 39
  const GreaterEq: Kind := 40
  const Eq: Kind := 41
  const PlusEq: Kind := 42
  const MinusEq: Kind := 43
  const StarEq: Kind := 44
  const SlashEq: Kind := 45
  const PercentEq: Kind := 46
  const AmpEq: Kind := 47
  const PipeEq: Kind := 48
  const CaretEq: Kind := 49
  const LessLessEq: Kind := 50
  const GreaterGreaterEq: Kind := 51
  const Dot: Kind := 52
  const FatArrow: Kind := 53
  const At: Kind := 54
  const Question: Kind := 55
  const KwAs: Kind := 56
  const KwBreak: Kind := 57
  const KwConst: Kind := 58
  const KwContinue: Kind := 59
  const KwElse: Kind := 60
  const KwEnum: Kind := 61
  const KwFalse: Kind := 62
  const KwImm: Kind := 63
  const KwIn: Kind := 64
  const KwFn: Kind := 65
  const KwFor: Kind := 66
  const KwIf: Kind := 67
  const KwLet: Kind := 68
  const KwMatch: Kind := 69
  const KwMod: Kind := 70
  const KwMut: Kind := 71
  const KwProj: Kind := 72
  const KwPub: Kind := 73
  const KwRet: Kind := 74
  const KwStruct: Kind := 75
  const KwTensor: Kind := 76
  const KwTrait: Kind := 77
  const KwTrue: Kind := 78
  const KwUnion: Kind := 79
  const KwUnsafe: Kind := 80
  const KwImpl: Kind := 81
  const KwSelf: Kind := 82
  const KwUse: Kind := 83
  const KwWhile: Kind := 84
  const Arrow: Kind := 93

  datatype Token = Token(kind: Kind, span: Span)

  // What the parser reads: the tokens left after comments are dropped, and the buffer.
  datatype Input = Input(toks: seq<Token>, src: string)

  // The kind of token `i`; past either end of the stream it is end of file.
  function KindAt(inp: Input, i: int): Kind {
    if 0 <= i < |inp.toks| then inp.toks[i].kind else Eof
  }

  // Token `i`; past the end a synthetic end-of-file token behind the last one.
  function TokenAt(inp: Input, i: int): Token {
    if 0 <= i < |inp.toks| then inp.toks[i] else
    var endOff := if |inp.toks| == 0 then 0 else inp.toks[|inp.toks| - 1].span.end;
    Token(Eof, Span(endOff, endOff))
  }

  function StartOf(inp: Input, i: int): nat { TokenAt(inp, i).span.start }

  function EndOf(inp: Input, i: int): nat { TokenAt(inp, i).span.end }

  // A flag that recursive definitions take as a parameter.
  datatype Switch = On | Off

  function Min(a: int, b: int): int { if a < b then a else b }

  predicate IsDigit(c: char) { '0' <= c <= '9' }

  // The text under a span. A reversed span wraps around in 32 bits and reaches the end.
  function TextOf(src: string, s: Span): string {
    var b := Min(s.start, |src|);
    src[b..b + Min((s.end - s.start) % 0x1_0000_0000, |src| - b)]
  }

  predicate IsLiteral(k: Kind) {
    k == IntegerLiteral || k == FloatLiteral || k == CharLiteral || k == StringLiteral || k == KwTrue || k == KwFalse
  }

  // Token spans as an error-free lexer run emits them: well-formed, in order, disjoint.
  ghost predicate InOrder(toks: seq<Token>) {
    && (forall i :: 0 <= i < |toks| ==> toks[i].span.start <= toks[i].span.end)
    && (forall i, j :: 0 <= i < j < |toks| ==> toks[i].span.end <= toks[j].span.start)
  }
}
