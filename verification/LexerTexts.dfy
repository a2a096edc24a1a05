/** Whole texts: lexemes, white space and comments in any order, undone by lexing. */
module LexerTexts {
  import opened Tokens
  import opened Lexing
  import opened LexerLaws
  import LexerComments
  import opened LexerTrips

  // What a text is made of. A line comment is its slashes and what stands behind them.
  datatype Part =
    | Blank(t: string)
    | Word(kind: Kind, t: string)
    | LineNote(slashes: nat, rest: string)
    | BlockNote(body: LexerComments.Body)

  function Slashes(n: nat): (r: string)
    ensures |r| == n && forall k :: 0 <= k < n ==> r[k] == '/'
  {
    if n == 0 then "" else "/" + Slashes(n - 1)
  }

  function PartText(x: Part): string {
    match x
    case Blank(t) => t
    case Word(_, t) => t
    case LineNote(n, rest) => Slashes(n) + rest
    case BlockNote(b) => LexerComments.Print(LexerComments.Nested(b, LexerComments.Done))
  }

  // Three slashes make documentation, two and an exclamation mark documentation of the file.
  function NoteKind(slashes: nat, rest: string): Kind {
    if slashes == 3 then DocCommentTok
    else if slashes == 2 && rest != "" && rest[0] == '!' then FileDocCommentTok
    else CommentTok
  }

  predicate EndsLine(c: char) { c as int == 0x0A || c as int == 0x0D }

  predicate IsPart(x: Part) {
    match x
    case Blank(t) => t != "" && forall k :: 0 <= k < |t| ==> IsBlank(t[k])
    case Word(k, t) => IsLexeme(t, k) && !IsCommentKind(k)
    case LineNote(n, rest) =>
      n >= 2 && (rest != "" ==> rest[0] != '/') && forall k :: 0 <= k < |rest| ==> !EndsLine(rest[k])
    case BlockNote(b) => LexerComments.IsBody(b)
  }

  // White space stands behind every lexeme, and a line end behind every line comment.
  predicate Follows(x: Part, y: Part) {
    && (x.Word? ==> y.Blank?)
    && (x.LineNote? ==> y.Blank? && y.t != "" && EndsLine(y.t[0]))
  }

  predicate IsText(xs: seq<Part>) {
    && (forall k :: 0 <= k < |xs| ==> IsPart(xs[k]))
    && (forall k :: 0 <= k < |xs| - 1 ==> Follows(xs[k], xs[k + 1]))
  }

  function Print(xs: seq<Part>): string { if xs == [] then "" else PartText(xs[0]) + Print(xs[1..]) }

  function ItemsOf(x: Part, p: nat): seq<Item> {
    var sp := Span(p, p + |PartText(x)|);
    match x
    case Blank(_) => []
    case Word(k, _) => [Tok(Token(k, sp))]
    case LineNote(n, rest) => [Tok(Token(NoteKind(n, rest), sp))]
    case BlockNote(_) => [Tok(Token(CommentTok, sp))]
  }

  // The tokens that they should be, from offset `p` on.
  function Expected(xs: seq<Part>, p: nat): seq<Item> {
    if xs == [] then [] else ItemsOf(xs[0], p) + Expected(xs[1..], p + |PartText(xs[0])|)
  }

  /////////////////////////// one part ///////////////////////////

  lemma {:induction false} SkipBlank(s: string, p: nat, t: string, k: nat)
    requires k <= |t| && Stands(s, p, t) && forall j :: 0 <= j < |t| ==> IsBlank(t[j])
    ensures SkipWs(s, p + k, |s|) == SkipWs(s, p + |t|, |s|)
    decreases |t| - k
  {
    if k < |t| {
      assert s[p + k] == t[k];
      SkipBlank(s, p, t, k + 1);
    }
  }

  lemma BlankPart(s: string, p: nat, t: string)
    requires Stands(s, p, t) && IsPart(Blank(t))
    ensures LexFrom(s, p, |s|) == LexFrom(s, p + |t|, |s|)
  {
    hide LexOne;
    SkipBlank(s, p, t, 0);
  }

  // A turn of the main loop whose lexeme is `l`.
  lemma OneTurn(s: string, p: nat, item: Item, z: nat)
    requires p < |s| && !IsSpace(s[p]) && LexOne(s, p, |s|) == Lexeme([item], z)
    ensures LexFrom(s, p, |s|) == [item] + LexFrom(s, z, |s|)
  {
    hide LexOne;
    StartsHere(s, p);
    LexTurn(s, p, |s|);
  }

  lemma WordPart(s: string, p: nat, k: Kind, t: string)
    requires Stands(s, p, t) && IsPart(Word(k, t)) && (p + |t| < |s| ==> IsBlank(s[p + |t|]))
    ensures LexFrom(s, p, |s|) == ItemsOf(Word(k, t), p) + LexFrom(s, p + |t|, |s|)
  {
    hide LexOne, IsLexeme, LexFrom;
    NoSpaceFirst(t, k);
    NotEmpty(t, k);
    assert s[p] == t[0];
    LexemeMoved(s, p, t, k);
    if p + |t| < |s| { LexemeSpaced(s, p, p + |t|, |s|, k); }
    OneTurn(s, p, Tok(Token(k, Span(p, p + |t|))), p + |t|);
  }

  lemma BlockPart(s: string, p: nat, b: LexerComments.Body)
    requires Stands(s, p, PartText(BlockNote(b))) && IsPart(BlockNote(b))
    ensures LexFrom(s, p, |s|) == ItemsOf(BlockNote(b), p) + LexFrom(s, p + |PartText(BlockNote(b))|, |s|)
  {
    hide LexOne, LexFrom, LexerComments.IsBody;
    var t := PartText(BlockNote(b));
    assert s[p..p + |t|] == t;
    BlockMarks(b);
    assert s[p + 0] == t[0];
    LexerComments.CommentRoundTrip(s, p, |s|, b);
    OneTurn(s, p, Tok(Token(CommentTok, Span(p, p + |t|))), p + |t|);
  }

  lemma BlockMarks(b: LexerComments.Body)
    ensures var t := PartText(BlockNote(b)); |t| > 0 && t[0] == '/'
  {
    hide LexerComments.Print;
    BlockText(b);
  }

  lemma BlockText(b: LexerComments.Body)
    ensures PartText(BlockNote(b)) == "/*" + (LexerComments.Print(b) + ("*/" + ""))
  {
  }

  lemma {:induction false} SlashRun(s: string, i: nat, z: nat)
    requires i <= z <= |s| && (forall k :: i <= k < z ==> s[k] == '/') && (z < |s| ==> s[z] != '/')
    ensures SlashEnd(s, i, |s|) == z
    decreases z - i
  {
    if i < z { SlashRun(s, i + 1, z); }
  }

  lemma {:induction false} LineRun(s: string, i: nat, z: nat)
    requires i <= z <= |s| && (forall k :: i <= k < z ==> !EndsLine(s[k])) && (z < |s| ==> EndsLine(s[z]))
    ensures LineEnd(s, i, |s|) == z
    decreases z - i
  {
    if i < z { LineRun(s, i + 1, z); }
  }

  lemma LineAt(s: string, p: nat, n: nat, rest: string)
    requires Stands(s, p, Slashes(n) + rest) && IsPart(LineNote(n, rest))
    ensures p + n + |rest| <= |s| && forall k :: p <= k < p + n ==> s[k] == '/'
    ensures forall k :: 0 <= k < |rest| ==> s[p + n + k] == rest[k]
    ensures forall k :: p <= k < p + n + |rest| ==> !EndsLine(s[k])
  {
    StandsCat(s, p, Slashes(n), rest);
    forall k | p <= k < p + n ensures s[k] == '/' { assert s[p + (k - p)] == Slashes(n)[k - p]; }
    forall k | p + n <= k < p + n + |rest| ensures !EndsLine(s[k]) { assert s[p + n + (k - p - n)] == rest[k - p - n]; }
  }

  lemma LineLexeme(s: string, p: nat, n: nat, rest: string)
    requires Stands(s, p, Slashes(n) + rest) && IsPart(LineNote(n, rest))
    requires var z := p + n + |rest|; z < |s| ==> EndsLine(s[z])
    ensures p + 1 < |s| && s[p] == '/'
    ensures var z := p + n + |rest|; LexOne(s, p, |s|) == Lexeme([Tok(Token(NoteKind(n, rest), Span(p, z)))], z)
  {
    hide Slashes, LexWord, LexNumber, LexString, LexChar, LexSymbol, SlashEnd, LineEnd, BlockScan;
    LineAt(s, p, n, rest);
    var z := p + n + |rest|;
    if rest != "" { assert s[p + n + 0] == rest[0]; }
    SlashRun(s, p + 2, p + n);
    LineRun(s, p + 2, z);
  }

  lemma LinePart(s: string, p: nat, n: nat, rest: string)
    requires Stands(s, p, Slashes(n) + rest) && IsPart(LineNote(n, rest))
    requires var z := p + n + |rest|; z < |s| ==> EndsLine(s[z])
    ensures LexFrom(s, p, |s|) == ItemsOf(LineNote(n, rest), p) + LexFrom(s, p + n + |rest|, |s|)
  {
    hide LexOne, LexFrom, NoteKind;
    LineLexeme(s, p, n, rest);
    OneTurn(s, p, Tok(Token(NoteKind(n, rest), Span(p, p + n + |rest|))), p + n + |rest|);
  }

  /////////////////////////// a text ///////////////////////////

  lemma {:induction false} LexParts(s: string, p: nat, xs: seq<Part>)
    requires IsText(xs) && Stands(s, p, Print(xs)) && p + |Print(xs)| == |s|
    ensures LexFrom(s, p, |s|) == Expected(xs, p)
    decreases |xs|
  {
    hide LexFrom, IsPart, PartText, ItemsOf, Follows;
    if xs == [] { NoItems(s, p, |s|); return; }
    var (x, rest) := (xs[0], xs[1..]);
    StandsCat(s, p, PartText(x), Print(rest));
    assert IsText(rest) by {
      forall k | 0 <= k < |rest| - 1 ensures Follows(rest[k], rest[k + 1]) { assert Follows(xs[k + 1], xs[k + 2]); }
    }
    LexParts(s, p + |PartText(x)|, rest);
    if rest != [] { FirstChar(s, p + |PartText(x)|, rest); assert Follows(xs[0], xs[1]); }
    PartLexes(s, p, x, rest);
  }

  // The first character of what stands behind a part.
  lemma FirstChar(s: string, p: nat, xs: seq<Part>)
    requires IsText(xs) && xs != [] && Stands(s, p, Print(xs))
    ensures xs[0].Blank? ==> p < |s| && xs[0].t != "" && s[p] == xs[0].t[0] && IsBlank(s[p])
  {
    StandsCat(s, p, PartText(xs[0]), Print(xs[1..]));
    assert IsPart(xs[0]);
    if xs[0].Blank? { assert s[p + 0] == xs[0].t[0]; }
  }

  lemma PartLexes(s: string, p: nat, x: Part, rest: seq<Part>)
    requires IsPart(x) && Stands(s, p, PartText(x)) && (rest != [] ==> Follows(x, rest[0]))
    requires var z := p + |PartText(x)|; if rest == [] then z == |s| else
             rest[0].Blank? ==> z < |s| && rest[0].t != "" && s[z] == rest[0].t[0] && IsBlank(s[z])
    ensures LexFrom(s, p, |s|) == ItemsOf(x, p) + LexFrom(s, p + |PartText(x)|, |s|)
  {
    hide LexFrom, LexerComments.Print;
    match x
    case Blank(t) => BlankPart(s, p, t); assert [] + LexFrom(s, p + |t|, |s|) == LexFrom(s, p + |t|, |s|);
    case Word(k, t) => WordPart(s, p, k, t);
    case LineNote(n, r) => LinePart(s, p, n, r);
    case BlockNote(b) => BlockPart(s, p, b);
  }

  /** Any text of lexemes, runs of white space and comments lexes to exactly the tokens of the lexemes
      and of the comments, with exactly those texts, and the end of the file. */
  lemma TextRoundTrip(xs: seq<Part>)
    requires IsText(xs)
    ensures var s := Print(xs); Lex(s, 0, |s|) == Expected(xs, 0) + [EofItem(|s|)]
  {
    hide LexFrom, IsText;
    LexParts(Print(xs), 0, xs);
  }

  /////////////////////////// every byte ///////////////////////////

  function SpanOfItem(i: Item): Span { if i.Tok? then i.t.span else i.span }

  ghost predicate InAnItem(items: seq<Item>, k: nat) {
    exists j :: 0 <= j < |items| && SpanOfItem(items[j]).start <= k < SpanOfItem(items[j]).end
  }

  // Offset `k` lies in a numeral abandoned at `__`.
  predicate InAbandoned(s: string, i: nat, e: nat, k: nat)
    requires i <= e <= |s|
    decreases e - i
  {
    var p := SkipWs(s, i, e);
    p < e && (if k < LexOne(s, p, e).end then p <= k && IsAbandoned(s, p, e)
              else InAbandoned(s, LexOne(s, p, e).end, e, k))
  }

  // The items of one lexeme lie in its range, and the last of them is all of it, unless it is an
  // abandoned numeral, whose one item is empty.
  lemma LexemeItems(s: string, p: nat, e: nat)
    requires p < e <= |s|
    ensures var l := LexOne(s, p, e);
            && |l.items| > 0
            && (IsAbandoned(s, p, e) ==> l.items == [Err(InvalidNumericLiteral, Span(0, 0))])
            && (!IsAbandoned(s, p, e) ==> SpanOfItem(l.items[|l.items| - 1]) == Span(p, l.end))
            && forall j :: 0 <= j < |l.items| ==>
                 var sp := SpanOfItem(l.items[j]); sp == Span(0, 0) || (p <= sp.start <= sp.end <= l.end)
  {
    hide BlockScan, WordEnd, IntPart, FracEnd, WordKind, IsReserved, QuoteScan;
    var c := s[p];
    if c == '"' || c == '\'' { QuoteItems(s, p + 1, e, c); }
    var l := LexOne(s, p, e);
    if (c == '"' || c == '\'') && !IsComment(s, p, e) {
      assert l.items[..|l.items| - 1] == QuoteScan(s, p + 1, e, c).errs;
      forall j | 0 <= j < |l.items| - 1
        ensures var sp := SpanOfItem(l.items[j]); p <= sp.start <= sp.end <= l.end
      {
        assert l.items[j] == QuoteScan(s, p + 1, e, c).errs[j];
      }
    }
  }

  predicate Within(items: seq<Item>, lo: nat, hi: nat) {
    forall k :: 0 <= k < |items| ==> lo <= SpanOfItem(items[k]).start <= SpanOfItem(items[k]).end <= hi
  }

  lemma EscapeItems(s: string, b: nat, e: nat)
    requires b + 1 < e <= |s|
    ensures Within(Escape(s, b, e).items, b, Escape(s, b, e).end)
  {
    hide HexEnd;
  }

  lemma WithinCat(a: seq<Item>, b: seq<Item>, lo: nat, mid: nat, hi: nat)
    requires Within(a, lo, mid) && Within(b, mid, hi) && lo <= mid <= hi
    ensures Within(a + b, lo, hi)
  {
    forall k | 0 <= k < |a + b|
      ensures lo <= SpanOfItem((a + b)[k]).start <= SpanOfItem((a + b)[k]).end <= hi
    {
      if k < |a| { assert (a + b)[k] == a[k]; } else { assert (a + b)[k] == b[k - |a|]; }
    }
  }

  lemma {:induction false} QuoteItems(s: string, i: nat, e: nat, quote: char)
    requires i <= e <= |s|
    ensures Within(QuoteScan(s, i, e, quote).errs, i, QuoteScan(s, i, e, quote).end)
    decreases e - i
  {
    hide Escape, Within;
    if i < e && s[i] == '\\' {
      if i + 1 >= e { OneWithin(i, i + 1); } else {
        var z := Escape(s, i, e).end;
        EscapeItems(s, i, e);
        QuoteItems(s, z, e, quote);
        WithinCat(Escape(s, i, e).items, QuoteScan(s, z, e, quote).errs, i, z, QuoteScan(s, z, e, quote).end);
      }
    } else if i < e && s[i] != quote && !IsNewline(s[i]) {
      QuoteItems(s, i + 1, e, quote);
      Nothing(i, i + 1);
      WithinCat([], QuoteScan(s, i + 1, e, quote).errs, i, i + 1, QuoteScan(s, i + 1, e, quote).end);
    }
    Nothing(i, QuoteScan(s, i, e, quote).end);
  }

  lemma Nothing(lo: nat, hi: nat)
    ensures Within([], lo, hi)
  {
  }

  lemma OneWithin(lo: nat, hi: nat)
    requires lo <= hi
    ensures Within([Err(InvalidEscapeSequence, Span(lo, hi))], lo, hi)
  {
  }

  lemma {:induction false} ItemsFrom(s: string, i: nat, e: nat)
    requires i <= e <= |s|
    ensures var items := LexFrom(s, i, e);
            forall j :: 0 <= j < |items| ==> var sp := SpanOfItem(items[j]); sp == Span(0, 0) || i <= sp.start
    decreases e - i
  {
    hide LexOne, LexFrom;
    var p := SkipWs(s, i, e);
    if p < e {
      LexTurn(s, i, e);
      LexemeItems(s, p, e);
      ItemsFrom(s, LexOne(s, p, e).end, e);
    } else {
      NoItems(s, i, e);
    }
  }

  lemma InCat(a: seq<Item>, b: seq<Item>, k: nat)
    ensures InAnItem(a + b, k) <==> InAnItem(a, k) || InAnItem(b, k)
  {
    var ab := a + b;
    if j :| 0 <= j < |a| && SpanOfItem(a[j]).start <= k < SpanOfItem(a[j]).end { assert ab[j] == a[j]; }
    if j :| 0 <= j < |b| && SpanOfItem(b[j]).start <= k < SpanOfItem(b[j]).end { assert ab[|a| + j] == b[j]; }
    if j :| 0 <= j < |ab| && SpanOfItem(ab[j]).start <= k < SpanOfItem(ab[j]).end {
      if j < |a| { assert ab[j] == a[j]; } else { assert ab[j] == b[j - |a|]; }
    }
  }

  /** Every byte but space, tab, line feed and carriage return lies in the range of an item, exactly but
      for those of numerals abandoned at `__`. */
  lemma {:induction false} EveryByte(s: string, i: nat, e: nat, k: nat)
    requires i <= k < e <= |s| && !IsBlank(s[k])
    ensures InAnItem(LexFrom(s, i, e), k) <==> !InAbandoned(s, i, e, k)
    decreases e - i
  {
    hide LexOne, LexFrom, InAnItem, IsAbandoned;
    var p := SkipWs(s, i, e);
    BlanksOnly(s, i, e);
    var l := LexOne(s, p, e);
    LexTurn(s, i, e);
    LexemeItems(s, p, e);
    ItemsFrom(s, l.end, e);
    InCat(l.items, LexFrom(s, l.end, e), k);
    if k < l.end {
      InFirst(s, p, e, k);
      NotLater(LexFrom(s, l.end, e), l.end, k);
    } else {
      NotEarlier(l.items, l.end, k);
      EveryByte(s, l.end, e, k);
    }
  }

  lemma BlanksOnly(s: string, i: nat, e: nat)
    requires i <= e <= |s|
    ensures forall j :: i <= j < SkipWs(s, i, e) ==> IsBlank(s[j])
  {
  }

  lemma InFirst(s: string, p: nat, e: nat, k: nat)
    requires p < e <= |s| && p <= k < LexOne(s, p, e).end
    ensures InAnItem(LexOne(s, p, e).items, k) <==> !IsAbandoned(s, p, e)
  {
    hide LexOne, IsAbandoned;
    LexemeItems(s, p, e);
    var items := LexOne(s, p, e).items;
    assert SpanOfItem(items[|items| - 1]) == Span(p, LexOne(s, p, e).end) || IsAbandoned(s, p, e);
  }

  lemma NotLater(items: seq<Item>, z: nat, k: nat)
    requires k < z
    requires forall j :: 0 <= j < |items| ==> SpanOfItem(items[j]) == Span(0, 0) || z <= SpanOfItem(items[j]).start
    ensures !InAnItem(items, k)
  {
  }

  lemma NotEarlier(items: seq<Item>, z: nat, k: nat)
    requires z <= k
    requires forall j :: 0 <= j < |items| ==> SpanOfItem(items[j]).end <= z
    ensures !InAnItem(items, k)
  {
  }
}
