/** Printing a stored tree: the tokens it was read from, all but commas, grouping parentheses and the
    separators of arms and expression statements. */
module Printing {
  import opened Tokens
  import opened Trees
  import opened Layouts

  // The texts of the operators, as they are written.
  function OperatorText(k: Kind): string {
    if k == Plus then "+" else if k == Minus then "-" else if k == Star then "*" else if k == Slash then "/"
    else if k == Percent then "%" else if k == Caret then "^" else if k == Pipe then "|" else if k == Amp then "&"
    else if k == Bang then "!" else if k == Less then "<" else if k == Greater then ">" else if k == Eq then "="
    else if k == LessLess then "<<" else if k == GreaterGreater then ">>" else if k == AmpAmp then "&&"
    else if k == PipePipe then "||" else if k == EqEq then "==" else if k == BangEq then "!="
    else if k == LessEq then "<=" else if k == GreaterEq then ">=" else if k == PlusEq then "+="
    else if k == MinusEq then "-=" else if k == StarEq then "*=" else if k == SlashEq then "/="
    else if k == PercentEq then "%=" else if k == AmpEq then "&=" else if k == PipeEq then "|="
    else if k == CaretEq then "^=" else if k == LessLessEq then "<<=" else if k == GreaterGreaterEq then ">>=" else ""
  }

  function NameWord(p: Payload): seq<string> {
    match p
    case Name(t) => [t]
    case NameRegime(t, _) => [t]
    case _ => []
  }

  function RegimeWord(p: Payload): seq<string> {
    if !p.NameRegime? then [] else
    match p.regime
    case Imm => ["imm"]
    case Mut => ["mut"]
    case Proj => ["proj"]
    case NoRegime => []
  }

  function OperatorWord(p: Payload): seq<string> { if p.Op? then [OperatorText(p.kind)] else [] }

  function PubWord(flags: nat): seq<string> { if flags % 2 == 1 then ["pub"] else [] }

  function UnsafeWord(flags: nat): seq<string> { if flags / 2 % 2 == 1 then ["unsafe"] else [] }

  // How many nodes in front are documentation.
  function Documents(kids: seq<Tree>): (n: nat)
    ensures n <= |kids|
  {
    if kids != [] && kids[0].Tree? && kids[0].kind == DocComment then 1 + Documents(kids[1..]) else 0
  }

  predicate IsKind(kids: seq<Tree>, i: nat, k: NodeKind) { i < |kids| && kids[i].Tree? && kids[i].kind == k }

  /** The words of a tree. */
  function Show(t: Tree): seq<string>
    decreases t, 3
  {
    if t.NullTree? then []
    else if t.kind == SourceFile then ShowFrom(t, 0)
    else if FnDecl <= t.kind <= ImplDecl then
      ShowDocs(t, Documents(t.kids)) + PubWord(t.flags) + ShowDecl(t, Documents(t.kids))
    else if StructField <= t.kind <= GenericParamList then ShowPart(t)
    else if LetStmt <= t.kind <= MatchArm then ShowStmt(t)
    else if BinaryExpr <= t.kind <= PropagateExpr then ShowExpr(t)
    else if NamedType <= t.kind <= TupleType then ShowType(t)
    else if WildcardPat <= t.kind <= FieldPat then ShowPat(t)
    else NameWord(t.payload)
  }

  function Kid(t: Tree, i: nat): seq<string>
    decreases t, 0
  {
    if t.Tree? && i < |t.kids| then Show(t.kids[i]) else []
  }

  // The words of the children from the `i`-th on.
  function ShowFrom(t: Tree, i: nat): seq<string>
    decreases t, 1, if t.Tree? && i < |t.kids| then |t.kids| - i else 0
  {
    if t.Tree? && i < |t.kids| then Kid(t, i) + ShowFrom(t, i + 1) else []
  }

  function ShowDocs(t: Tree, n: nat): seq<string>
    decreases t, 1, n
  {
    if n == 0 then [] else ShowDocs(t, n - 1) + Kid(t, n - 1)
  }

  function ShowType(t: Tree): seq<string>
    requires t.Tree?
    decreases t, 2
  {
    if t.kind == ArrayType then ["["] + Kid(t, 0) + [";"] + Kid(t, 1) + ["]"]
    else if t.kind == TensorType then ["tensor"] + ["["] + Kid(t, 0) + [";"] + ShowFrom(t, 1) + ["]"]
    else if t.kind == TupleType then ["("] + ShowFrom(t, 0) + [")"]
    else NameWord(t.payload)
  }

  function ShowPat(t: Tree): seq<string>
    requires t.Tree?
    decreases t, 2
  {
    if t.kind == WildcardPat then ["_"]
    else if t.kind == StructPat then NameWord(t.payload) + ["{"] + ShowFrom(t, 0) + ["}"]
    else if t.kind == TuplePat then NameWord(t.payload) + ["("] + ShowFrom(t, 0) + [")"]
    else if t.kind == FieldPat && t.kids != [] then NameWord(t.payload) + [":"] + Kid(t, 0)
    else NameWord(t.payload)
  }

  function ShowExpr(t: Tree): seq<string>
    requires t.Tree?
    decreases t, 2
  {
    if t.kind == BinaryExpr then Kid(t, 0) + OperatorWord(t.payload) + Kid(t, 1)
    else if t.kind == UnaryExpr then OperatorWord(t.payload) + Kid(t, 0)
    else if t.kind == CastExpr then Kid(t, 0) + ["as"] + Kid(t, 1)
    else if t.kind == ProjAssignExpr then ["*"] + Kid(t, 0) + ["="] + Kid(t, 1)
    else if t.kind == CallExpr then
      Kid(t, 0) + ["("] + (if |t.kids| > 1 then ShowFrom(t.kids[1], 0) else []) + [")"]
    else if t.kind == IndexExpr || t.kind == TensorIndexExpr then Kid(t, 0) + ["["] + ShowFrom(t, 1) + ["]"]
    else if t.kind == FieldExpr || t.kind == TupleIndexExpr then Kid(t, 0) + ["."] + NameWord(t.payload)
    else if t.kind == StructLitExpr then NameWord(t.payload) + ["{"] + ShowFrom(t, 0) + ["}"]
    else if t.kind == ArrayLitExpr then ["["] + ShowFrom(t, 0) + ["]"]
    else if t.kind == ArrayRepeatExpr then ["["] + Kid(t, 0) + [";"] + Kid(t, 1) + ["]"]
    else if t.kind == TensorLitExpr then ["tensor"] + ["["] + ShowFrom(t, 0) + ["]"]
    else if t.kind == TupleExpr then ["("] + ShowFrom(t, 0) + [")"]
    else if t.kind == FieldInit then NameWord(t.payload) + [":"] + Kid(t, 0)
    else if t.kind == PropagateExpr then Kid(t, 0) + ["?"]
    else NameWord(t.payload)
  }

  // The type and the value of a `let`.
  function ShowLet(t: Tree, i: nat): seq<string>
    requires t.Tree?
    decreases t, 1
  {
    if i >= |t.kids| then [] else [if t.kids[i].Tree? && IsTypeKind(t.kids[i].kind) then ":" else "="] + Kid(t, i)
  }

  function ShowStmt(t: Tree): seq<string>
    requires t.Tree?
    decreases t, 2
  {
    if t.kind == LetStmt then
      ["let"] + RegimeWord(t.payload) + NameWord(t.payload) + ShowLet(t, 0) + ShowLet(t, 1) + [";"]
    else if t.kind == RetStmt then ["ret"] + Kid(t, 0) + [";"]
    else if t.kind == ForStmt then
      ["for"] + RegimeWord(t.payload) + NameWord(t.payload) + ["in"] + Kid(t, 0) + Kid(t, 1)
    else if t.kind == WhileStmt then ["while"] + Kid(t, 0) + Kid(t, 1)
    else if t.kind == BreakStmt then ["break"] + [";"]
    else if t.kind == ContinueStmt then ["continue"] + [";"]
    else if t.kind == UnsafeBlock then ["unsafe"] + ["{"] + ShowFrom(t, 0) + ["}"]
    else if t.kind == BlockExpr then ["{"] + ShowFrom(t, 0) + ["}"]
    else if t.kind == IfExpr then
      ["if"] + Kid(t, 0) + Kid(t, 1) + (if |t.kids| > 2 then ["else"] + Kid(t, 2) else [])
    else if t.kind == MatchExpr then ["match"] + Kid(t, 0) + ["{"] + ShowFrom(t, 1) + ["}"]
    else Kid(t, 0) + ["=>"] + Kid(t, 1)
  }

  function ShowPart(t: Tree): seq<string>
    requires t.Tree?
    decreases t, 2
  {
    if t.kind == StructField || t.kind == Param then
      RegimeWord(t.payload) + NameWord(t.payload) + [":"] + Kid(t, 0)
    else if t.kind == EnumVariantUnit then
      NameWord(t.payload) + (if t.kids != [] then ["="] + Kid(t, 0) else [])
    else if t.kind == EnumVariantTuple then NameWord(t.payload) + ["("] + ShowFrom(t, 0) + [")"]
    else if t.kind == EnumVariantStruct then NameWord(t.payload) + ["{"] + ShowFrom(t, 0) + ["}"]
    else if t.kind == ParamList then ["("] + ShowFrom(t, 0) + [")"]
    else if t.kind == GenericParamList then ["<"] + ShowFrom(t, 0) + [">"]
    else NameWord(t.payload) + (if |t.kids| > 0 && t.kids[0].Tree? then [":"] + Kid(t, 0) else [])
  }

  // Where what follows the generic parameters begins.
  function BehindGens(t: Tree, n: nat): nat
    requires t.Tree?
  {
    if IsKind(t.kids, n, GenericParamList) then n + 1 else n
  }

  function ShowGens(t: Tree, n: nat): seq<string>
    requires t.Tree?
    decreases t, 1
  {
    if IsKind(t.kids, n, GenericParamList) then Kid(t, n) else []
  }

  // A declaration behind its documentation, of `n` nodes, and its visibility.
  function ShowDecl(t: Tree, n: nat): seq<string>
    requires t.Tree?
    decreases t, 2
  {
    var i := BehindGens(t, n);
    if t.kind == FnDecl then
      UnsafeWord(t.flags) + ["fn"] + RegimeWord(t.payload) + NameWord(t.payload) + ShowGens(t, n) + Kid(t, i)
      + ShowReturn(t, i + 1) + ShowBody(t)
    else if t.kind == StructDecl then ["struct"] + NameWord(t.payload) + ShowGens(t, n) + ["{"] + ShowFrom(t, i) + ["}"]
    else if t.kind == EnumDecl then ["enum"] + NameWord(t.payload) + ShowGens(t, n) + ["{"] + ShowFrom(t, i) + ["}"]
    else if t.kind == UnionDecl then ["union"] + NameWord(t.payload) + ShowGens(t, n) + ["{"] + ShowFrom(t, i) + ["}"]
    else if t.kind == TraitDecl then ["trait"] + NameWord(t.payload) + ShowGens(t, n) + ["{"] + ShowFrom(t, i) + ["}"]
    else if t.kind == ModDecl then ["mod"] + NameWord(t.payload) + ["{"] + ShowFrom(t, n) + ["}"]
    else if t.kind == ModDeclFile then ["mod"] + NameWord(t.payload) + [";"]
    else if t.kind == UseDecl then ["use"] + NameWord(t.payload) + [";"]
    else if t.kind == ConstDecl then
      ["const"] + NameWord(t.payload) + [":"] + Kid(t, n) + ["="] + Kid(t, n + 1) + [";"]
    else
      ["impl"] + ShowGens(t, n) + (if i < |t.kids| && t.kids[i].Tree? then Kid(t, i) + ["for"] else [])
      + Kid(t, i + 1) + ["{"] + ShowFrom(t, i + 2) + ["}"]
  }

  // A return type stands between the parameters and the body.
  function ShowReturn(t: Tree, i: nat): seq<string>
    requires t.Tree?
    decreases t, 1
  {
    if i + 1 < |t.kids| then [":"] + Kid(t, i) else []
  }

  function ShowBody(t: Tree): seq<string>
    requires t.Tree?
    decreases t, 1
  {
    if t.kids == [] || t.kids[|t.kids| - 1].NullTree? then [";"] else Kid(t, |t.kids| - 1)
  }
}
