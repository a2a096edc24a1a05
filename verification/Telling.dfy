/** The printed words of a tree are the texts of the tokens it was read from. */
module Telling {
  import opened Tokens
  import opened Trees
  import opened Grammar
  import opened Spelling
  import opened Layouts
  import opened LexerSymbols
  import opened LexerClasses
  import opened Printing

  /////////////////////////// tokens and words ///////////////////////////

  // The text of a keyword or a symbol; other kinds have none of their own.
  function KindText(k: Kind): string { if KwAs <= k <= KwWhile then KeywordText(k) else SymbolText(k) }

  // Every keyword and symbol among the tokens has its text.
  ghost predicate Worded(inp: Input) {
    forall i :: 0 <= i < |inp.toks| && KindText(inp.toks[i].kind) != "" ==>
                TokText(inp, i) == KindText(inp.toks[i].kind)
  }

  // A piece of the input: a token, the tokens of a path, a float token that is two indices, a field in
  // shorthand, or a `self` without a type.
  datatype Piece = Lone(i: nat) | Path(i: nat, j: nat) | Fused(i: nat) | Doubled(i: nat) | SelfOnly(i: nat)

  function PieceWords(inp: Input, p: Piece): seq<string> {
    var t := TokText(inp, p.i);
    match p
    case Lone(_) => [t]
    case Path(i, j) => [TextOf(inp.src, Span(StartOf(inp, i), EndOf(inp, j - 1)))]
    case Fused(_) => (match FloatSplit(t) case NoSplit => [] case One(a) => [a] case Two(a, b) => [a] + ["."] + [b])
    case Doubled(_) => [t] + [":"] + [t]
    case SelfOnly(_) => [t] + [":"] + ["Self"]
  }

  function PieceEnd(p: Piece): nat { if p.Path? then p.j else p.i + 1 }

  predicate InPath(k: Kind) { k == Identifier || k == KwSelf || k == ColonColon || k == Star || k == KwAs }

  predicate PieceOk(inp: Input, p: Piece) {
    && PieceEnd(p) <= |inp.toks| && p.i < PieceEnd(p)
    && match p
       case Lone(i) => KindAt(inp, i) != Unknown && KindAt(inp, i) != Eof
       case Path(i, j) => forall k :: i <= k < j ==> InPath(KindAt(inp, k))
       case Fused(i) => KindAt(inp, i) == FloatLiteral
       case Doubled(i) => KindAt(inp, i) == Identifier
       case SelfOnly(i) => KindAt(inp, i) == Identifier && TokText(inp, i) == "self"
  }

  // The tokens that leave nothing behind: commas, separators and grouping parentheses.
  predicate IsDropped(k: Kind) { k == LParen || k == RParen || k == Comma || k == Semi }

  predicate AllDropped(inp: Input, lo: nat, hi: nat) { forall i :: lo <= i < hi ==> IsDropped(KindAt(inp, i)) }

  /** The pieces are in order and are all tokens from `lo` to `hi` but dropped ones. */
  predicate Cover(inp: Input, ps: seq<Piece>, lo: nat, hi: nat)
    decreases |ps|
  {
    if ps == [] then lo <= hi && AllDropped(inp, lo, hi) else
    lo <= ps[0].i && AllDropped(inp, lo, ps[0].i) && PieceOk(inp, ps[0]) && Cover(inp, ps[1..], PieceEnd(ps[0]), hi)
  }

  function Words(inp: Input, ps: seq<Piece>): seq<string> {
    if ps == [] then [] else PieceWords(inp, ps[0]) + Words(inp, ps[1..])
  }

  // Tokens told so far: those from `lo` to `hi`, their pieces and words.
  datatype Tale = Tale(ps: seq<Piece>, ts: seq<string>, lo: nat, hi: nat)

  predicate True(inp: Input, a: Tale) {
    a.hi <= |inp.toks| && Cover(inp, a.ps, a.lo, a.hi) && Words(inp, a.ps) == a.ts
  }

  lemma {:induction false} CoverCat(inp: Input, a: seq<Piece>, lo: nat, mid: nat, b: seq<Piece>, hi: nat)
    requires Cover(inp, a, lo, mid) && Cover(inp, b, mid, hi)
    ensures Cover(inp, a + b, lo, hi) && Words(inp, a + b) == Words(inp, a) + Words(inp, b)
    decreases |a|
  {
    hide PieceOk, PieceWords, IsDropped;
    if a == [] {
      assert a + b == b;
      assert [] + Words(inp, b) == Words(inp, b);
    } else {
      CoverCat(inp, a[1..], PieceEnd(a[0]), mid, b, hi);
      assert (a + b)[0] == a[0] && (a + b)[1..] == a[1..] + b;
    }
  }

  lemma Start(inp: Input, pos: nat) returns (r: Tale)
    requires pos <= |inp.toks|
    ensures True(inp, r) && r.lo == pos == r.hi && r.ts == []
  {
    r := Tale([], [], pos, pos);
  }

  lemma Join(inp: Input, a: Tale, b: Tale) returns (r: Tale)
    requires True(inp, a) && True(inp, b) && a.hi == b.lo
    ensures True(inp, r) && r.lo == a.lo && r.hi == b.hi && r.ts == a.ts + b.ts
  {
    hide Cover, Words;
    CoverCat(inp, a.ps, a.lo, a.hi, b.ps, b.hi);
    r := Tale(a.ps + b.ps, a.ts + b.ts, a.lo, b.hi);
  }

  lemma OnePiece(inp: Input, p: Piece) returns (r: Tale)
    requires PieceOk(inp, p)
    ensures True(inp, r) && r.lo == p.i && r.hi == PieceEnd(p) && r.ts == PieceWords(inp, p)
  {
    hide PieceWords;
    r := Tale([p], PieceWords(inp, p), p.i, PieceEnd(p));
    assert [p][1..] == [] && Words(inp, []) == [] && Cover(inp, [], PieceEnd(p), PieceEnd(p));
    assert PieceWords(inp, p) + [] == PieceWords(inp, p);
  }

  // A dropped token in front, and behind.
  lemma Ahead(inp: Input, pos: nat, a: Tale) returns (r: Tale)
    requires True(inp, a) && a.lo == pos + 1 && IsDropped(KindAt(inp, pos))
    ensures True(inp, r) && r.lo == pos && r.hi == a.hi && r.ts == a.ts
  {
    hide PieceOk, IsDropped;
    r := a.(lo := pos);
  }

  lemma Behind(inp: Input, a: Tale) returns (r: Tale)
    requires True(inp, a) && IsDropped(KindAt(inp, a.hi))
    ensures True(inp, r) && r.lo == a.lo && r.hi == a.hi + 1 && r.ts == a.ts
  {
    hide Cover, Words;
    DropOne(inp, a.hi);
    CoverCat(inp, a.ps, a.lo, a.hi, [], a.hi + 1);
    assert a.ps + [] == a.ps;
    r := a.(hi := a.hi + 1);
  }

  lemma DropOne(inp: Input, pos: nat)
    requires IsDropped(KindAt(inp, pos))
    ensures Cover(inp, [], pos, pos + 1) && pos < |inp.toks|
  {
  }

  // A token whose text is known, behind what is told.
  lemma Word(inp: Input, a: Tale, text: string) returns (r: Tale)
    requires True(inp, a) && a.hi < |inp.toks| && KindAt(inp, a.hi) != Unknown && KindAt(inp, a.hi) != Eof
    requires TokText(inp, a.hi) == text
    ensures True(inp, r) && r.lo == a.lo && r.hi == a.hi + 1 && r.ts == a.ts + [text]
  {
    hide Cover, Words, True;
    var p := OnePiece(inp, Lone(a.hi));
    r := Join(inp, a, p);
  }

  lemma KindWord(inp: Input, i: nat, k: Kind)
    requires Worded(inp) && i < |inp.toks| && inp.toks[i].kind == k && KindText(k) != ""
    ensures TokText(inp, i) == KindText(k)
  {
  }

  // The same for a keyword or a symbol.
  lemma Key(inp: Input, a: Tale, k: Kind, text: string) returns (r: Tale)
    requires Worded(inp) && True(inp, a) && KindAt(inp, a.hi) == k && k != Unknown && k != Eof
    requires text != "" && KindText(k) == text
    ensures True(inp, r) && r.lo == a.lo && r.hi == a.hi + 1 && r.ts == a.ts + [text]
  {
    hide Cover, Words, True, KindText, Worded;
    KindWord(inp, a.hi, k);
    r := Word(inp, a, text);
  }

  lemma First(inp: Input, pos: nat, k: Kind, text: string) returns (r: Tale)
    requires Worded(inp) && KindAt(inp, pos) == k && k != Unknown && k != Eof && text != "" && KindText(k) == text
    ensures True(inp, r) && r.lo == pos && r.hi == pos + 1 && r.ts == [text]
  {
    hide Cover, Words, True, KindText, Worded, PieceOk;
    KindWord(inp, pos, k);
    PlainOk(inp, pos);
    r := OnePiece(inp, Lone(pos));
  }

  lemma PlainOk(inp: Input, pos: nat)
    requires pos < |inp.toks| && KindAt(inp, pos) != Unknown && KindAt(inp, pos) != Eof
    ensures PieceOk(inp, Lone(pos))
  {
  }

  // Punctuation and keywords, as they are written.
  lemma Sign(k: Kind)
    requires Single(k) != ""
    ensures KindText(k) == Single(k)
  {
    hide SymbolText, KeywordText, Double, Triple;
    Lengths(k);
  }

  lemma Signs()
    ensures KindText(LParen) == "(" && KindText(RParen) == ")" && KindText(LBrace) == "{" && KindText(RBrace) == "}"
    ensures KindText(LSquare) == "[" && KindText(RSquare) == "]" && KindText(Semi) == ";" && KindText(Colon) == ":"
    ensures KindText(Dot) == "." && KindText(Question) == "?" && KindText(FatArrow) == "=>" && KindText(Eq) == "="
    ensures KindText(Star) == "*" && KindText(Less) == "<" && KindText(Greater) == ">"
  {
    hide KindText, SymbolText;
    Sign(LParen); Sign(RParen); Sign(LBrace); Sign(RBrace); Sign(LSquare); Sign(RSquare); Sign(Semi); Sign(Colon);
    Sign(Dot); Sign(Question); Sign(Eq); Sign(Star); Sign(Less); Sign(Greater);
    Arrows();
  }

  lemma Arrows()
    ensures KindText(FatArrow) == "=>"
  {
    hide SymbolText;
    Lengths(FatArrow);
  }

  lemma StatementWords()
    ensures KindText(KwLet) == "let" && KindText(KwRet) == "ret" && KindText(KwFor) == "for" && KindText(KwIn) == "in"
    ensures KindText(KwWhile) == "while" && KindText(KwBreak) == "break" && KindText(KwContinue) == "continue"
    ensures KindText(KwUnsafe) == "unsafe" && KindText(KwIf) == "if" && KindText(KwElse) == "else"
    ensures KindText(KwMatch) == "match" && KindText(KwAs) == "as" && KindText(KwTensor) == "tensor"
    ensures KindText(KwImm) == "imm" && KindText(KwMut) == "mut" && KindText(KwProj) == "proj"
  {
  }

  lemma DeclarationWords()
    ensures KindText(KwFn) == "fn" && KindText(KwStruct) == "struct" && KindText(KwEnum) == "enum"
    ensures KindText(KwUnion) == "union" && KindText(KwTrait) == "trait" && KindText(KwImpl) == "impl"
    ensures KindText(KwMod) == "mod" && KindText(KwUse) == "use" && KindText(KwConst) == "const"
    ensures KindText(KwPub) == "pub" && KindText(KwUnsafe) == "unsafe" && KindText(KwFor) == "for"
  {
  }

  lemma OperatorWords(k: Kind)
    requires LeftPower(k) >= 0 || IsPrefixOp(k)
    ensures OperatorText(k) != "" && KindText(k) == OperatorText(k) && k != Unknown && k != Eof
  {
    hide SymbolText, KeywordText;
    Lengths(k);
  }

  /////////////////////////// several trees ///////////////////////////

  function AllWords(ts: seq<Tree>): seq<string> { if ts == [] then [] else Show(ts[0]) + AllWords(ts[1..]) }

  lemma {:induction false} FromAll(t: Tree, i: nat)
    requires t.Tree? && i <= |t.kids|
    ensures ShowFrom(t, i) == AllWords(t.kids[i..])
    decreases |t.kids| - i
  {
    hide Show;
    if i < |t.kids| {
      FromAll(t, i + 1);
      assert t.kids[i..][1..] == t.kids[i + 1..];
    }
  }

  lemma ConsWords(x: Tree, ts: seq<Tree>)
    ensures AllWords([x] + ts) == Show(x) + AllWords(ts)
  {
    hide Show;
    assert ([x] + ts)[1..] == ts;
  }

  lemma NoWords()
    ensures AllWords([]) == []
  {
  }

  lemma {:induction false} CatWords(a: seq<Tree>, b: seq<Tree>)
    ensures AllWords(a + b) == AllWords(a) + AllWords(b)
    decreases |a|
  {
    hide Show;
    if a == [] {
      assert a + b == b;
    } else {
      CatWords(a[1..], b);
      assert (a + b)[0] == a[0] && (a + b)[1..] == a[1..] + b;
    }
  }
}
