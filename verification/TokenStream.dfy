/** From lexer items to the tokens the parser reads. */
module TokenStreams {
  import opened Tokens
  import opened Lexing
  import opened LexerLaws

  // Comments are dropped, documentation is kept, an error leaves an unknown token in its place.
  function Kept(i: Item): seq<Token> {
    match i
    case Tok(t) => if t.kind == CommentTok then [] else [t]
    case Err(_, sp) => [Token(Unknown, sp)]
  }

  function Stream(items: seq<Item>): seq<Token> { if items == [] then [] else Kept(items[0]) + Stream(items[1..]) }

  function ErrorsOf(items: seq<Item>): seq<Item> {
    if items == [] then [] else (if items[0].Err? then [items[0]] else []) + ErrorsOf(items[1..])
  }

  lemma {:induction false} StreamCat(a: seq<Item>, b: seq<Item>)
    ensures Stream(a + b) == Stream(a) + Stream(b) && ErrorsOf(a + b) == ErrorsOf(a) + ErrorsOf(b)
    decreases |a|
  {
    if a == [] {
      assert a + b == b;
    } else {
      assert (a + b)[0] == a[0] && (a + b)[1..] == a[1..] + b;
      StreamCat(a[1..], b);
    }
  }

  lemma StreamOne(i: Item)
    ensures Stream([i]) == Kept(i) && ErrorsOf([i]) == if i.Err? then [i] else []
  {
    assert Stream([i]) == Kept(i) + Stream([]);
  }

  /** The constructor of the stream: one pass that fills the tokens and the errors. */
  method Load(items: seq<Item>, source: string) returns (inp: Input, lexErrors: seq<Item>)
    ensures inp == Input(Stream(items), source) && lexErrors == ErrorsOf(items)
  {
    hide Stream, ErrorsOf;
    var tokens: seq<Token> := [];
    lexErrors := [];
    var i := 0;
    LoadStart();
    while i < |items|
      invariant i <= |items| && tokens == Stream(items[..i]) && lexErrors == ErrorsOf(items[..i])
    {
      StreamOne(items[i]);
      StreamCat(items[..i], [items[i]]);
      assert items[..i + 1] == items[..i] + [items[i]];
      if items[i].Tok? {
        if items[i].t.kind != CommentTok { tokens := tokens + [items[i].t]; }
      } else {
        tokens := tokens + [Token(Unknown, items[i].span)];
        lexErrors := lexErrors + [items[i]];
      }
      i := i + 1;
    }
    assert items[..i] == items;
    inp := Input(tokens, source);
  }

  lemma LoadStart()
    ensures Stream([]) == [] && ErrorsOf([]) == []
  {
  }

  // Tokens without the comments.
  function WithoutComments(ts: seq<Token>): seq<Token> {
    if ts == [] then [] else (if ts[0].kind == CommentTok then [] else [ts[0]]) + WithoutComments(ts[1..])
  }

  lemma {:induction false} CleanStreamTokens(items: seq<Item>)
    requires IsClean(items)
    ensures Stream(items) == WithoutComments(TokensOf(items))
    decreases |items|
  {
    if items != [] {
      CleanStreamTokens(items[1..]);
      var rest := TokensOf(items[1..]);
      assert TokensOf(items) == [items[0].t] + rest;
      assert TokensOf(items)[1..] == rest;
    }
  }

  lemma {:induction false} StillOrdered(ts: seq<Token>, lo: nat, hi: nat)
    requires Ordered(ts, lo, hi)
    ensures Ordered(WithoutComments(ts), lo, hi)
    decreases |ts|
  {
    if ts != [] {
      var z := ts[0].span.end;
      assert Ordered(ts[1..], z, hi);
      StillOrdered(ts[1..], z, hi);
      var rest := WithoutComments(ts[1..]);
      if ts[0].kind != CommentTok { OrderedCons(ts[0], rest, lo, z, hi); } else { assert [] + rest == rest; }
    }
  }

  /** Lexing a whole buffer without errors gives the parser tokens in order, the last of them the
      end of the file. */
  lemma CleanLexInOrder(s: string)
    requires IsClean(Lex(s, 0, |s|))
    ensures var ts := Stream(Lex(s, 0, |s|));
            InOrder(ts) && |ts| > 0 && ts[|ts| - 1] == Token(Eof, Span(|s|, |s|))
            && forall j :: 0 <= j < |ts| - 1 ==> ts[j].kind != Eof
  {
    hide LexFrom, Stream, WithoutComments, TokensOf;
    var items := LexFrom(s, 0, |s|);
    assert Lex(s, 0, |s|) == items + [EofItem(|s|)];
    assert forall k :: 0 <= k < |items| ==> Lex(s, 0, |s|)[k] == items[k];
    StreamCat(items, [EofItem(|s|)]);
    StreamOne(EofItem(|s|));
    CleanStreamTokens(items);
    TokensInOrder(s, 0, |s|);
    StillOrdered(TokensOf(items), 0, |s|);
  }
}
