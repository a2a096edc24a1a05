/** Block comments nest: where one ends, and that printing one is undone by lexing. */
module LexerComments {
  import opened Tokens
  import opened Lexing

  // One step of reading marks greedily from left to right.
  function Mark(s: string, i: nat, e: nat): int requires e <= |s| {
    if Opens(s, i, e) then 1 else if Closes(s, i, e) then -1 else 0
  }

  function NextPos(s: string, i: nat, e: nat): nat requires e <= |s| { if Mark(s, i, e) == 0 then i + 1 else i + 2 }

  function PosAfter(s: string, i: nat, e: nat, n: nat): nat
    requires e <= |s|
    decreases n
  {
    if n == 0 then i else PosAfter(s, NextPos(s, i, e), e, n - 1)
  }

  /** `n` steps, and no fewer, close all `depth` levels open at `i`. */
  predicate Closed(s: string, i: nat, e: nat, depth: int, n: nat)
    requires e <= |s|
    decreases n
  {
    if n == 0 then depth == 0 else depth > 0 && i < e && Closed(s, NextPos(s, i, e), e, depth + Mark(s, i, e), n - 1)
  }

  /** The depth counter stops exactly at the end of the shortest balanced prefix ... */
  lemma {:induction false} StopsAtBalance(s: string, i: nat, e: nat, depth: nat, n: nat)
    requires i <= e <= |s| && Closed(s, i, e, depth, n)
    ensures BlockScan(s, i, e, depth) == (PosAfter(s, i, e, n), 0)
    decreases n
  {
    if n > 0 { StopsAtBalance(s, NextPos(s, i, e), e, depth + Mark(s, i, e), n - 1); }
  }

  /** ... and runs to the end of the range, still open, only if there is none. */
  lemma {:induction false} BalanceFound(s: string, i: nat, e: nat, depth: nat) returns (n: nat)
    requires i <= e <= |s| && BlockScan(s, i, e, depth).1 == 0
    ensures Closed(s, i, e, depth, n)
    decreases e - i
  {
    if depth == 0 {
      n := 0;
    } else {
      var m := BalanceFound(s, NextPos(s, i, e), e, depth + Mark(s, i, e));
      n := m + 1;
    }
  }

  // The first `n` steps behind the opening mark at `p` balance it.
  predicate Balances(s: string, p: nat, e: nat, n: nat) requires e <= |s| { Closed(s, p + 2, e, 1, n) }

  /** A block comment is reported as unterminated if and only if no prefix of what follows its
      opening mark balances it; if one does, the comment ends with it. */
  lemma UnterminatedIff(s: string, p: nat, e: nat)
    requires p + 1 < e <= |s| && s[p] == '/' && s[p + 1] == '*'
    ensures Err(UnterminatedBlockComment, Span(p, LexOne(s, p, e).end)) in LexOne(s, p, e).items
            <==> forall n: nat :: !Balances(s, p, e, n)
    ensures forall n: nat :: Balances(s, p, e, n) ==>
            var z := PosAfter(s, p + 2, e, n); LexOne(s, p, e) == Lexeme([Tok(Token(CommentTok, Span(p, z)))], z)
  {
    hide BlockScan, Closed, PosAfter;
    var r := BlockScan(s, p + 2, e, 1);
    forall n: nat | Balances(s, p, e, n) ensures r == (PosAfter(s, p + 2, e, n), 0) {
      StopsAtBalance(s, p + 2, e, 1, n);
    }
    if r.1 == 0 {
      var n := BalanceFound(s, p + 2, e, 1);
      assert Balances(s, p, e, n);
    } else {
      assert LexOne(s, p, e).items[0] == Err(UnterminatedBlockComment, Span(p, LexOne(s, p, e).end));
    }
  }

  /////////////////////////// printing comments ///////////////////////////

  // What stands between the marks of a comment: text and comments.
  datatype Body = Done | Text(t: string, rest: Body) | Nested(inner: Body, rest: Body)

  function Print(b: Body): string {
    match b
    case Done => ""
    case Text(t, rest) => t + Print(rest)
    case Nested(inner, rest) => "/*" + (Print(inner) + ("*/" + Print(rest)))
  }

  // Text without marks, and without half a mark at its end.
  predicate IsPlain(t: string) {
    && (forall k :: 0 <= k < |t| ==> !Opens(t, k, |t|) && !Closes(t, k, |t|))
    && (t != "" ==> t[|t| - 1] != '/' && t[|t| - 1] != '*')
  }

  predicate IsBody(b: Body) {
    match b
    case Done => true
    case Text(t, rest) => IsPlain(t) && IsBody(rest)
    case Nested(inner, rest) => IsBody(inner) && IsBody(rest)
  }

  // `t` stands in `s` at `i`.
  predicate Stands(s: string, i: nat, t: string) { i + |t| <= |s| && s[i..i + |t|] == t }

  lemma StandsCat(s: string, i: nat, t: string, u: string)
    requires Stands(s, i, t + u)
    ensures Stands(s, i, t) && Stands(s, i + |t|, u)
  {
    assert s[i..i + |t|] == s[i..i + |t + u|][..|t|];
    assert s[i + |t|..i + |t| + |u|] == s[i..i + |t + u|][|t|..];
  }

  lemma {:induction false} ScanText(s: string, i: nat, e: nat, depth: nat, t: string, k: nat)
    requires k <= |t| && i + |t| <= e <= |s| && Stands(s, i, t) && IsPlain(t) && depth > 0
    ensures BlockScan(s, i + k, e, depth) == BlockScan(s, i + |t|, e, depth)
    decreases |t| - k
  {
    if k < |t| {
      var u := s[i..i + |t|];
      assert u[k] == s[i + k];
      if k + 1 < |t| {
        assert u[k + 1] == s[i + k + 1];
        assert !Opens(t, k, |t|) && !Closes(t, k, |t|);
      }
      ScanText(s, i, e, depth, t, k + 1);
    }
  }

  lemma {:induction false} ScanBody(s: string, i: nat, e: nat, depth: nat, b: Body)
    requires IsBody(b) && Stands(s, i, Print(b)) && i + |Print(b)| <= e <= |s| && depth > 0
    ensures BlockScan(s, i, e, depth) == BlockScan(s, i + |Print(b)|, e, depth)
    decreases b
  {
    hide BlockScan, Stands, Opens;
    match b
    case Done =>
    case Text(t, rest) =>
      StandsCat(s, i, t, Print(rest));
      ScanText(s, i, e, depth, t, 0);
      ScanBody(s, i + |t|, e, depth, rest);
    case Nested(inner, rest) =>
      var j := i + 2 + |Print(inner)|;
      StandsCat(s, i, "/*", Print(inner) + ("*/" + Print(rest)));
      StandsCat(s, i + 2, Print(inner), "*/" + Print(rest));
      StandsCat(s, j, "*/", Print(rest));
      ScanMark(s, i, e, depth, 1);
      ScanBody(s, i + 2, e, depth + 1, inner);
      ScanMark(s, j, e, depth + 1, -1);
      ScanBody(s, j + 2, e, depth, rest);
  }

  lemma ScanMark(s: string, i: nat, e: nat, depth: nat, d: int)
    requires Stands(s, i, if d == 1 then "/*" else "*/") && i + 2 <= e <= |s| && depth > 0 && (d == 1 || d == -1)
    ensures BlockScan(s, i, e, depth) == BlockScan(s, i + 2, e, depth + d)
  {
    var t := if d == 1 then "/*" else "*/";
    assert s[i..i + 2][0] == t[0] && s[i..i + 2][1] == t[1];
  }

  /** Wherever a printed comment stands, with whatever behind it, it lexes to one comment token that
      covers exactly its text. */
  lemma CommentRoundTrip(s: string, p: nat, e: nat, b: Body)
    requires IsBody(b) && Stands(s, p, Print(Nested(b, Done))) && p + |Print(Nested(b, Done))| <= e <= |s|
    ensures var z := p + |Print(Nested(b, Done))|;
            LexOne(s, p, e) == Lexeme([Tok(Token(CommentTok, Span(p, z)))], z)
  {
    hide BlockScan, Stands, IsBody, LexWord, LexNumber, LexString, LexChar, LexSymbol;
    var text := Print(b);
    assert Print(Nested(b, Done)) == "/*" + (text + ("*/" + ""));
    StandsCat(s, p, "/*", text + ("*/" + ""));
    StandsCat(s, p + 2, text, "*/" + "");
    StandsCat(s, p + 2 + |text|, "*/", "");
    StandsMark(s, p);
    ScanBody(s, p + 2, e, 1, b);
    ScanMark(s, p + 2 + |text|, e, 1, -1);
    ScanStop(s, p + 4 + |text|, e);
  }

  lemma StandsMark(s: string, p: nat)
    requires Stands(s, p, "/*")
    ensures p + 1 < |s| && s[p] == '/' && s[p + 1] == '*'
  {
    assert s[p..p + 2][0] == '/' && s[p..p + 2][1] == '*';
  }

  lemma ScanStop(s: string, i: nat, e: nat)
    requires i <= e <= |s|
    ensures BlockScan(s, i, e, 0) == (i, 0)
  {
  }
}
