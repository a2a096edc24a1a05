/** The character classes and the tables of kinds, each told apart from where it is used: by byte values, by
    texts, or by what the grammar does with a token. */
module Tables {
  import opened Tokens
  import opened Grammar
  import opened Spelling
  import opened Productions
  import opened ErrorFree
  import opened Declarations
  import opened Lexing
  import opened LexerLaws
  import opened LexerClasses
  import opened Recovery
  import opened Cuts
  import opened Telling
  import Trees
  import CleanRuns
  import LexerSymbols

  /////////////////////////// characters ///////////////////////////

  predicate InRange(c: char, lo: int, hi: int) { lo <= c as int <= hi }

  /** Letters, digits and the underscore make words; a digit begins none. */
  lemma WordBytes(c: char)
    ensures IsWordStart(c) <==> InRange(c, 0x41, 0x5A) || InRange(c, 0x61, 0x7A) || c as int == 0x5F
    ensures IsWordChar(c) <==> IsWordStart(c) || InRange(c, 0x30, 0x39)
    ensures IsDigit(c) <==> InRange(c, 0x30, 0x39)
    ensures IsHexDigit(c) <==> InRange(c, 0x30, 0x39) || InRange(c, 0x41, 0x46) || InRange(c, 0x61, 0x66)
  {
  }

  /** Line feed and carriage return end a line comment and an open literal; the bytes after a backslash; the
      bytes that continue a character. */
  lemma OtherBytes(c: char)
    ensures IsNewline(c) <==> c as int == 0x0A || c as int == 0x0D
    ensures IsContinuation(c) <==> InRange(c, 0x80, 0xBF)
    ensures IsSimpleEscape(c) <==> c as int in {0x6E, 0x74, 0x72, 0x30, 0x5C, 0x22, 0x27}
  {
  }

  /////////////////////////// words ///////////////////////////

  const Reserved: seq<string> := ["dim", "ref", "return", "shape", "sym", "tsor", "type", "where"]

  /** A word is an error exactly when it is one of the eight reserved ones. */
  lemma ReservedIff(s: string, p: nat, e: nat)
    requires p < e <= |s| && IsWordStart(s[p])
    ensures var l := LexOne(s, p, e);
            && |l.items| == 1
            && (l.items[0].Err? <==> exists i :: 0 <= i < |Reserved| && s[p..l.end] == Reserved[i])
            && (l.items[0].Err? ==> l.items[0] == Err(ReservedKeyword, Span(p, l.end)))
  {
    hide WordKind, WordEnd;
    var w := s[p..LexOne(s, p, e).end];
    ReservedWord(w);
  }

  lemma ReservedWord(w: string)
    ensures IsReserved(w) <==> exists i :: 0 <= i < |Reserved| && w == Reserved[i]
  {
    if IsReserved(w) {
      var i := if w == "dim" then 0 else if w == "ref" then 1 else if w == "return" then 2 else if w == "shape" then 3
               else if w == "sym" then 4 else if w == "tsor" then 5 else if w == "type" then 6 else 7;
      assert w == Reserved[i];
    }
  }

  /////////////////////////// tokens ///////////////////////////

  /** The parser takes a token for a literal exactly when its text begins with a digit or a quote, or is
      `true` or `false`. */
  lemma LiteralIff(s: string, p: nat, e: nat)
    requires p < e <= |s|
    ensures var l := LexOne(s, p, e);
            var last := l.items[|l.items| - 1];
            |l.items| > 0 && (last.Tok? ==>
              (IsLiteral(last.t.kind) <==>
               IsDigit(s[p]) || s[p] == '"' || s[p] == '\'' || s[p..l.end] == "true" || s[p..l.end] == "false"))
  {
    hide BlockScan, IntPart, FracEnd, LineEnd, QuoteScan, WordKind, IsReserved, WordEnd, Symbol, KeywordText;
    LexemeShape(s, p, e);
    var l := LexOne(s, p, e);
    var w := s[p..l.end];
    assert w[0] == s[p];
    if IsComment(s, p, e) {
    } else if IsWordStart(s[p]) {
      TruthIff(w);
    } else if !(IsDigit(s[p]) || s[p] == '"' || s[p] == '\'') {
      NoLiteralSymbol(s, p, e);
    }
  }

  lemma TruthIff(w: string)
    ensures WordKind(w) == KwTrue <==> w == "true"
    ensures WordKind(w) == KwFalse <==> w == "false"
    ensures IsLiteral(WordKind(w)) ==> WordKind(w) == KwTrue || WordKind(w) == KwFalse
  {
  }

  lemma NoLiteralSymbol(s: string, p: nat, e: nat)
    requires p < e <= |s|
    ensures !IsLiteral(Symbol(s, p, e).0)
  {
  }

  /** The regimes are the three keywords `imm`, `mut` and `proj`. */
  lemma RegimeIff(k: Kind)
    ensures IsRegime(k) <==> KindText(k) == "imm" || KindText(k) == "mut" || KindText(k) == "proj"
  {
    hide LexerSymbols.SymbolText;
    if !(KwAs <= k <= KwWhile) { ShortKind(k); }
  }

  lemma ShortKind(k: Kind)
    ensures var t := LexerSymbols.SymbolText(k); t != "imm" && t != "mut" && t != "proj"
  {
    LexerSymbols.Lengths(k);
    var t := LexerSymbols.SymbolText(k);
    if LexerSymbols.Triple(k) != "" { assert t[2] == '=' && "imm"[2] == 'm' && "mut"[2] == 't'; }
  }

  /////////////////////////// recovery ///////////////////////////

  /** Recovery stops in front of a closing brace, of whatever opens a declaration, of whatever but a brace
      opens a statement of its own, and of `match`. */
  lemma SyncIff(k: Kind)
    ensures IsSyncStart(k) <==> k == RBrace || OpensDecl(k) || (StartsStmt(k) && k != LBrace) || k == KwMatch
  {
  }

  /** A failing expression leaves the tokens that close or separate something. */
  lemma LeftIff(k: Kind)
    ensures IsSync(k) <==> k == Comma || k == Semi || exists e: Elem :: CloseOf(e) == k
  {
    assert CloseOf(AType) == RParen && CloseOf(AField) == RBrace && CloseOf(AConst) == RSquare;
  }

  /** What opens a declaration or a statement, by what the grammar reads there. */
  lemma OpensIff(inp: Input, pos: nat, sl: Switch)
    requires pos <= |inp.toks|
    ensures !OpensDecl(KindAt(inp, pos)) && KindAt(inp, pos) != DocCommentTok && KindAt(inp, pos) != KwPub ==>
            forall d :: !DerivesDecl(inp, pos, d, sl)
    ensures !StartsStmt(KindAt(inp, pos)) && !IsExprStmtStart(KindAt(inp, pos)) ==>
            forall s :: !DerivesStmt(inp, pos, s, sl)
  {
    hide DerivesDecl, DerivesStmt, TakeDecl, TakeStmt;
    if !OpensDecl(KindAt(inp, pos)) && KindAt(inp, pos) != DocCommentTok && KindAt(inp, pos) != KwPub {
      DocStop(inp, pos, DocCommentTok, Trees.DocComment);
      StopsNoDecl(inp, pos, sl);
      DeclIff(inp, pos, sl);
      CleanRuns.CleanDecl(inp, pos, sl);
    }
    if !StartsStmt(KindAt(inp, pos)) && !IsExprStmtStart(KindAt(inp, pos)) {
      StopsNoStmt(inp, pos, sl);
      StmtTurn(inp, pos, sl);
    }
  }
}
