/** The symbol switch picks the longest symbol. */
module LexerSymbols {
  import opened Tokens
  import opened Lexing

  // The texts of the symbols, by length; empty for every other kind.
  function Single(k: Kind): string {
    if k == LParen then "(" else if k == RParen then ")" else if k == LBrace then "{" else if k == RBrace then "}"
    else if k == LSquare then "[" else if k == RSquare then "]" else if k == Comma then "," else if k == Semi then ";"
    else if k == Colon then ":" else if k == Plus then "+" else if k == Minus then "-" else if k == Star then "*"
    else if k == Slash then "/" else if k == Percent then "%" else if k == Caret then "^" else if k == Pipe then "|"
    else if k == Amp then "&" else if k == Bang then "!" else if k == Less then "<" else if k == Greater then ">"
    else if k == Eq then "=" else if k == Dot then "." else if k == At then "@" else if k == Question then "?"
    else ""
  }

  function Double(k: Kind): string {
    if k == ColonColon then "::" else if k == PlusPlus then "++" else if k == MinusMinus then "--"
    else if k == LessLess then "<<" else if k == GreaterGreater then ">>" else if k == AmpAmp then "&&"
    else if k == PipePipe then "||" else if k == EqEq then "==" else if k == BangEq then "!="
    else if k == LessEq then "<=" else if k == GreaterEq then ">=" else if k == PlusEq then "+="
    else if k == MinusEq then "-=" else if k == StarEq then "*=" else if k == SlashEq then "/="
    else if k == PercentEq then "%=" else if k == AmpEq then "&=" else if k == PipeEq then "|="
    else if k == CaretEq then "^=" else if k == FatArrow then "=>" else if k == Arrow then "->" else ""
  }

  function Triple(k: Kind): string { if k == LessLessEq then "<<=" else if k == GreaterGreaterEq then ">>=" else "" }

  function SymbolText(k: Kind): string { Single(k) + Double(k) + Triple(k) }

  // Symbol `k` is a prefix of what is left of the range.
  predicate Fits(s: string, p: nat, e: nat, k: Kind)
    requires p <= e <= |s|
  {
    SymbolText(k) != "" && p + |SymbolText(k)| <= e && s[p..p + |SymbolText(k)|] == SymbolText(k)
  }

  // The three texts of one kind never overlap.
  lemma Lengths(k: Kind)
    ensures Single(k) != "" ==> Double(k) == "" && Triple(k) == "" && |SymbolText(k)| == 1 && SymbolText(k) == Single(k)
    ensures Double(k) != "" ==> Single(k) == "" && Triple(k) == "" && |SymbolText(k)| == 2 && SymbolText(k) == Double(k)
    ensures Triple(k) != "" ==> Single(k) == "" && Double(k) == "" && |SymbolText(k)| == 3 && SymbolText(k) == Triple(k)
    ensures Unknown == k ==> SymbolText(k) == ""
  {
  }

  lemma SinglePicked(s: string, p: nat, e: nat, k: Kind)
    requires p < e <= |s| && Single(k) != "" && s[p] == Single(k)[0]
    ensures Symbol(s, p, e).0 != Unknown
  {
  }

  lemma DoublePicked(s: string, p: nat, e: nat, k: Kind)
    requires p + 1 < e <= |s| && Double(k) != "" && s[p] == Double(k)[0] && s[p + 1] == Double(k)[1]
    ensures Symbol(s, p, e).0 != Unknown && Symbol(s, p, e).1 >= 2
  {
  }

  lemma TriplePicked(s: string, p: nat, e: nat, k: Kind)
    requires p + 2 < e <= |s| && Triple(k) != "" && s[p] == Triple(k)[0] && s[p + 1] == Triple(k)[1]
    requires s[p + 2] == Triple(k)[2]
    ensures Symbol(s, p, e) == (k, 3)
  {
  }

  // What the switch returns is the text of a symbol.
  lemma PickedSingle(s: string, p: nat, e: nat)
    requires p < e <= |s| && Symbol(s, p, e).0 != Unknown && Symbol(s, p, e).1 == 1
    ensures Single(Symbol(s, p, e).0) == [s[p]]
  {
  }

  lemma PickedDouble(s: string, p: nat, e: nat)
    requires p < e <= |s| && Symbol(s, p, e).1 == 2
    ensures Double(Symbol(s, p, e).0) == [s[p], s[p + 1]]
  {
  }

  lemma PickedTriple(s: string, p: nat, e: nat)
    requires p < e <= |s| && Symbol(s, p, e).1 == 3
    ensures Triple(Symbol(s, p, e).0) == [s[p], s[p + 1], s[p + 2]]
  {
  }

  lemma AtMostThree(s: string, p: nat, e: nat)
    requires p < e <= |s|
    ensures 1 <= Symbol(s, p, e).1 <= 3 && (Symbol(s, p, e).0 == Unknown ==> Symbol(s, p, e).1 == 1)
  {
  }

  /** The switch returns the longest symbol that is a prefix of the remaining text, and nothing
      exactly when no symbol is. */
  lemma LongestMatch(s: string, p: nat, e: nat, k: Kind)
    requires p < e <= |s|
    ensures var r := Symbol(s, p, e);
            && (r.0 != Unknown ==> Fits(s, p, e, r.0) && |SymbolText(r.0)| == r.1)
            && (Fits(s, p, e, k) ==> r.0 != Unknown && |SymbolText(k)| <= r.1)
  {
    hide Symbol, Single, Double, Triple, SymbolText;
    var r := Symbol(s, p, e);
    AtMostThree(s, p, e);
    Lengths(r.0);
    Lengths(k);
    if r.0 != Unknown {
      if r.1 == 1 { PickedSingle(s, p, e); assert s[p..p + 1] == [s[p]]; }
      else if r.1 == 2 { PickedDouble(s, p, e); assert s[p..p + 2] == [s[p], s[p + 1]]; }
      else { PickedTriple(s, p, e); assert s[p..p + 3] == [s[p], s[p + 1], s[p + 2]]; }
    }
    if Fits(s, p, e, k) { FitsPicked(s, p, e, k); }
  }

  lemma FitsPicked(s: string, p: nat, e: nat, k: Kind)
    requires p < e <= |s| && Fits(s, p, e, k)
    ensures Symbol(s, p, e).0 != Unknown && |SymbolText(k)| <= Symbol(s, p, e).1
  {
    hide Symbol, Single, Double, Triple;
    Lengths(k);
    AtMostThree(s, p, e);
    var t := SymbolText(k);
    var u := s[p..p + |t|];
    if Single(k) != "" { assert u[0] == t[0]; SinglePicked(s, p, e, k); }
    else if Double(k) != "" { assert u[0] == t[0] && u[1] == t[1]; DoublePicked(s, p, e, k); }
    else if Triple(k) != "" { assert u[0] == t[0] && u[1] == t[1] && u[2] == t[2]; TriplePicked(s, p, e, k); }
  }
}
