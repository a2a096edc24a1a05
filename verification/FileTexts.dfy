/** From a text to the tree and back: the tree of a clean parse gives the text of every token, and the
    lexer found no error either. */
module FileTexts {
  import opened Tokens
  import opened Trees
  import opened Lexing
  import opened LexerLaws
  import opened LexerSymbols
  import opened LexerClasses
  import opened TokenStreams
  import opened DeclGrammar
  import opened Printing
  import Spelling
  import T = Telling
  import DeclTexts

  /////////////////////////// the stream ///////////////////////////

  predicate IsComment(i: Item) { i.Tok? && i.t.kind == CommentTok }

  // How many items are no comments.
  function Standing(items: seq<Item>): nat {
    if items == [] then 0 else (if IsComment(items[0]) then 0 else 1) + Standing(items[1..])
  }

  /** Every item but a comment stands in the stream, at the place that the items before it leave it: a
      token as it is, an error as an unknown token over its range. The stream has nothing else. */
  lemma {:induction false} EveryItemStands(items: seq<Item>, k: nat)
    requires k < |items| && !IsComment(items[k])
    ensures Standing(items[..k]) < |Stream(items)| == Standing(items)
    ensures var t := Stream(items)[Standing(items[..k])];
            if items[k].Tok? then t == items[k].t else t.kind == Unknown && t.span == items[k].span
    decreases |items|
  {
    StreamSize(items);
    if k > 0 {
      EveryItemStands(items[1..], k - 1);
      assert items[1..][..k - 1] == items[..k][1..];
      assert items[..k][0] == items[0];
    }
  }

  lemma {:induction false} StreamSize(items: seq<Item>)
    ensures |Stream(items)| == Standing(items)
    decreases |items|
  {
    if items != [] { StreamSize(items[1..]); }
  }

  // An error among the items is an unknown token in the stream.
  lemma {:induction false} ErrorLeaves(items: seq<Item>)
    requires ErrorsOf(items) != []
    ensures exists j :: 0 <= j < |Stream(items)| && Stream(items)[j].kind == Unknown
    decreases |items|
  {
    if items[0].Err? {
      assert Stream(items)[0].kind == Unknown;
    } else {
      ErrorLeaves(items[1..]);
      var j :| 0 <= j < |Stream(items[1..])| && Stream(items[1..])[j].kind == Unknown;
      assert Stream(items)[|Kept(items[0])| + j] == Stream(items[1..])[j];
    }
  }

  /////////////////////////// the texts of tokens ///////////////////////////

  lemma WordText(w: string)
    ensures WordKind(w) != Identifier ==> KwAs <= WordKind(w) <= KwWhile && KeywordText(WordKind(w)) == w
  {
  }

  lemma ShortTexts(k: Kind)
    ensures |T.KindText(k)| <= 8
  {
    hide Single, Double, Triple, SymbolText;
    Lengths(k);
    if !(KwAs <= k <= KwWhile) { ShortSymbol(k); }
  }

  lemma ShortSymbol(k: Kind)
    ensures |SymbolText(k)| <= 3
  {
    hide Single, Double, Triple;
    Lengths(k);
  }

  lemma NoText(k: Kind)
    requires k <= StringLiteral
    ensures T.KindText(k) == ""
  {
  }

  // A token inside the text whose kind has a text of its own has that text.
  predicate TextFits(s: string, t: Token) {
    && t.kind != Eof
    && (T.KindText(t.kind) != "" ==>
        t.span.start <= t.span.end <= |s| && s[t.span.start..t.span.end] == T.KindText(t.kind))
  }

  predicate AllFit(s: string, ts: seq<Token>) { forall j :: 0 <= j < |ts| ==> TextFits(s, ts[j]) }

  lemma WordFits(s: string, p: nat, e: nat)
    requires p < e <= |s|
    ensures var i := LexWord(s, p, e).items[0]; i.Tok? ==> TextFits(s, i.t)
  {
    hide WordKind, KeywordText, SymbolText, WordEnd;
    var l := LexWord(s, p, e);
    WordText(s[p..l.end]);
    NoText(Identifier);
  }

  lemma SymbolFits(s: string, p: nat, e: nat)
    requires p < e <= |s|
    ensures var i := LexSymbol(s, p, e).items[0]; i.Tok? ==> TextFits(s, i.t)
  {
    hide Symbol, KeywordText, SymbolText;
    var k := Symbol(s, p, e).0;
    LongestMatch(s, p, e, k);
    NoSymbol(k);
    NoText(Eof);
  }

  lemma NoSymbol(k: Kind)
    ensures KwAs <= k <= KwWhile ==> SymbolText(k) == ""
  {
  }

  lemma LexemeFits(s: string, p: nat, e: nat)
    requires p < e <= |s|
    ensures var l := LexOne(s, p, e);
            && (forall k :: 0 <= k < |l.items| ==> l.items[k].Tok? ==> TextFits(s, l.items[k].t))
  {
    hide LexWord, LexSymbol, BlockScan, IntPart, FracEnd, LineEnd, QuoteScan, SymbolText, KeywordText, TextFits;
    var c, l := s[p], LexOne(s, p, e);
    LexemeShape(s, p, e);
    var last := l.items[|l.items| - 1];
    if Lexing.IsComment(s, p, e) { LiteralFits(s, last); }
    else if IsWordStart(c) { WordFits(s, p, e); OneItem(s, p, e); }
    else if IsDigit(c) || c == '"' || c == '\'' { LiteralFits(s, last); }
    else { SymbolFits(s, p, e); OneItem(s, p, e); }
  }

  lemma OneItem(s: string, p: nat, e: nat)
    requires p < e <= |s|
    ensures |LexWord(s, p, e).items| == 1 && |LexSymbol(s, p, e).items| == 1
  {
    hide WordEnd, Symbol, WordKind;
  }

  lemma LiteralFits(s: string, i: Item)
    requires i.Tok? ==> i.t.kind <= StringLiteral && i.t.kind != Eof
    ensures i.Tok? ==> TextFits(s, i.t)
  {
    hide SymbolText, KeywordText;
    if i.Tok? { NoText(i.t.kind); }
  }

  lemma {:induction false} KeptFits(s: string, items: seq<Item>)
    requires forall k :: 0 <= k < |items| ==> items[k].Tok? ==> TextFits(s, items[k].t)
    ensures AllFit(s, Stream(items))
    decreases |items|
  {
    hide TextFits;
    if items != [] {

      if items[0].Err? { LiteralFits(s, Tok(Token(Unknown, items[0].span))); }
      KeptFits(s, items[1..]);
    }
  }

  lemma FitsCat(s: string, a: seq<Token>, b: seq<Token>)
    requires AllFit(s, a) && AllFit(s, b)
    ensures AllFit(s, a + b)
  {
    hide TextFits;
  }

  lemma {:induction false} LexedFits(s: string, i: nat, e: nat)
    requires i <= e <= |s|
    ensures AllFit(s, Stream(LexFrom(s, i, e)))
    decreases e - i
  {
    hide LexOne, Stream, LexFrom, AllFit, TextFits;
    var p := SkipWs(s, i, e);
    if p >= e {
      NoItems(s, i, e);
      KeptFits(s, []);
    } else {
      var l := LexOne(s, p, e);
      LexemeFits(s, p, e);
      KeptFits(s, l.items);
      LexedFits(s, l.end, e);
      LexTurn(s, i, e);
      StreamCat(l.items, LexFrom(s, l.end, e));
      FitsCat(s, Stream(l.items), Stream(LexFrom(s, l.end, e)));
    }
  }

  function InputOf(text: string): Input { Input(Stream(Lex(text, 0, |text|)), text) }

  lemma StreamShape(text: string)
    ensures var ts := Stream(LexFrom(text, 0, |text|));
            InputOf(text).toks == ts + [Token(Eof, Span(|text|, |text|))] && AllFit(text, ts)
  {
    hide LexFrom, Stream, AllFit;
    var items := LexFrom(text, 0, |text|);
    assert Lex(text, 0, |text|) == items + [EofItem(|text|)];
    StreamCat(items, [EofItem(|text|)]);
    StreamOne(EofItem(|text|));
    LexedFits(text, 0, |text|);
  }

  // The end of the file is the last token, and there only.
  lemma EofLast(text: string, i: nat)
    ensures |InputOf(text).toks| > 0 && (KindAt(InputOf(text), i) == Eof <==> i >= |InputOf(text).toks| - 1)
  {
    hide LexFrom, Stream, Lex;
    var ts := Stream(LexFrom(text, 0, |text|));
    StreamShape(text);
    if i < |ts| { assert TextFits(text, ts[i]); }
  }

  /** Every keyword and symbol of a text has its own spelling. */
  lemma LexedWords(text: string)
    ensures T.Worded(InputOf(text))
  {
    hide LexFrom, Stream, Lex, T.KindText;
    var inp := InputOf(text);
    var ts := Stream(LexFrom(text, 0, |text|));
    StreamShape(text);
    NoText(Eof);
    forall i | 0 <= i < |inp.toks| && T.KindText(inp.toks[i].kind) != ""
      ensures Spelling.TokText(inp, i) == T.KindText(inp.toks[i].kind)
    {
      assert TextFits(text, ts[i]);
      ShortTexts(ts[i].kind);
    }
  }

  /////////////////////////// back to the text ///////////////////////////

  /** The pieces of the whole input, in order and without commas, semicolons and parentheses that leave no
      node, say what the tree says. */
  ghost predicate Retells(inp: Input, t: Tree) {
    |inp.toks| > 0 && exists ps: seq<T.Piece> :: T.Cover(inp, ps, 0, |inp.toks| - 1) && T.Words(inp, ps) == Show(t)
  }

  lemma {:induction false} CoverKnown(inp: Input, ps: seq<T.Piece>, lo: nat, hi: nat, i: nat)
    requires T.Cover(inp, ps, lo, hi) && lo <= i < hi
    ensures KindAt(inp, i) != Unknown && KindAt(inp, i) != Eof
    decreases |ps|
  {
    if ps != [] && i >= T.PieceEnd(ps[0]) { CoverKnown(inp, ps[1..], T.PieceEnd(ps[0]), hi, i); }
  }

  /** A text whose tokens spell a file: the file's tree gives back what every token says, and there was no
      lexical error. */
  lemma FileRetold(text: string, f: FileSyn, end: nat)
    requires DerivesFile(InputOf(text), f, end, On)
    ensures end == |InputOf(text).toks| - 1 && Retells(InputOf(text), AstFile(InputOf(text), f))
    ensures ErrorsOf(Lex(text, 0, |text|)) == []
  {
    hide Lex, Stream, ErrorsOf, DerivesFile, AstFile, Show, T.Cover, T.Words, T.Worded;
    var inp := InputOf(text);
    LexedWords(text);
    var r := DeclTexts.TellFile(inp, f, end, On);
    EndsFile(inp, f, end);
    EofLast(text, end);
    EofLast(text, |inp.toks| - 1);
    if end == |inp.toks| { CoverKnown(inp, r.ps, 0, end, |inp.toks| - 1); }
    assert T.Cover(inp, r.ps, 0, |inp.toks| - 1) && T.Words(inp, r.ps) == Show(AstFile(inp, f));
    if ErrorsOf(Lex(text, 0, |text|)) != [] {
      ErrorLeaves(Lex(text, 0, |text|));
      var j :| 0 <= j < |inp.toks| && inp.toks[j].kind == Unknown;
      EofLast(text, j);
      CoverKnown(inp, r.ps, 0, end, j);
    }
  }

  lemma EndsFile(inp: Input, f: FileSyn, end: nat)
    requires DerivesFile(inp, f, end, On)
    ensures KindAt(inp, end) == Eof
  {
  }
}
