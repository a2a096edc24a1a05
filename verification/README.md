# A verified model of the Eter front end

Eter's front end turns the bytes of a file into tokens, the tokens into a flat pool of syntax-tree
nodes, and follows `mod name;` declarations from file to file. This project models that code in Dafny
and proves what it promises. `dafny verify dfyconfig.toml` checks everything.

## How the model is built

**Tokens and lexing.** `Lexer.dfy` gives the lexer as functions on a text and two offsets;
`LexerLoops.dfy` holds the hand-written cursor loops as methods, each proved to compute its function.
The laws of lexing are proved about the functions: ranges that tile the text, re-lexing of parts
(`LexerLaws.dfy`), nested comments (`LexerComments.dfy`), longest symbols (`LexerSymbols.dfy`), what is
a lexeme (`LexerTrips.dfy`, `LexerClasses.dfy`), and the round trip of whole texts, lexemes between any
blanks and comments (`LexerTexts.dfy`). `TokenStream.dfy` is the pass that fills the parser's tokens.
Bytes are `char` values; a character count goes by UTF-8 lead bytes, as in the source.

**Grammar.** `Syntax.dfy` has the trees the parser stores, and a concrete syntax that records every
parenthesis and trailing comma, with its grammar: binding powers, what each spine may hold (`LeftOk`),
and what may follow (`Follow`). `Spelling.dfy` says which tokens spell a piece of syntax (`M`) and which
tree it stands for (`Ast`). Neither mentions the parser.

**Parsing without errors.** `ErrorFree.dfy` has the parser as functions on positions (`Run...`) for runs
that record no diagnostic, `Soundness.dfy` and `Completeness.dfy` prove that it reads exactly what the
grammar derives, and `Pratt.dfy` draws the conclusions: one tree for each token sequence, the printer
with minimal parentheses and its round trip, the discipline of struct literals. `Parentheses.dfy` proves
that no other tree spends fewer parentheses than the printer's, and `Precedence.dfy` reads the operator
levels, listed apart from the table, off two operators in a row.

**Declarations.** The same division again: `DeclSyntax.dfy` has the concrete syntax of declarations and
files, its grammar, spelling and trees; `DeclRuns.dfy` the error-free parser and its soundness;
`DeclTheorems.dfy` the other direction, the equivalence for files and that files are unambiguous.
`Declarations.dfy` composes run and tree (`Read...`) and has the steps by which the methods of the class
reach them.

**Parsing with errors.** `Recovery.dfy` has the parser on any tokens as functions (`Take...`): whether a
call that begins at a position records a diagnostic, where it stops and what it builds, recovery
included. `CleanRuns.dfy` ties them to the grammar: for every production, at every position, they are
free of diagnostics exactly where the grammar has the production, and then give its end and its tree.
`Cuts.dfy` draws the conclusions about loops: each declaration, method, statement or arm stands between
two cuts, whatever stands around it, and nothing is dropped. `Tables.dfy` tells the character classes
and the tables of kinds apart from where they are used.

**Back to the text.** `Printing.dfy` prints a stored tree, with every keyword, regime, operator and flag
taken from its kind, payload and flags. `Telling.dfy`, `TreeTexts.dfy`, `DeclTexts.dfy` and
`FileTexts.dfy` prove that the printed words are the texts of the tokens the tree was read from, all but
commas, the semicolons behind expression statements and arms, and parentheses that leave no node. A path
counts as one word, a float token that is two indices as three; a field in shorthand is printed in full,
a `self` alone with its type.

**The parser.** `Parser.dfy` is the class itself, with its cursor, its struct-literal flag, its list of
diagnostics, the node pool and the interner, on every token sequence. The promise of each method has
three parts. `Made`: the call terminates; cursor, diagnostics, nodes and strings only grow; the
struct-literal flag is what it was; the node returned is new, has no parent, and is of the sort its
place calls for; every new Error node has a new diagnostic to answer for it. `Got ... == Take...`: on
every run, clean or not, the call records a diagnostic or none, stops and builds a tree exactly as the
function of `Recovery.dfy` says; so (`Agrees`, `Says`) it is clean exactly when the run function or the
reading function succeeds, with that function's end and tree. `Sited` or `Placed`: on clean runs over
tokens in order the tree nests and lies inside the tokens read. `ParserState.dfy`, `Layout.dfy` (the
children of every kind of node), `Outcome.dfy`, `Productions.dfy` and `Geometry.dfy` are what the
methods reason with; `NodePool.dfy` and `Interner.dfy` are the mutable parts below. Two ghost fields
count the brackets open that allow struct literals, and log that count for each struct literal built:
`Grew` says, for every call on every input, that with the flag off each new literal lies inside a
bracket the call opened.

Where the source loops inside a large function, the model often has a method for the loop or for one
branch (`ParseStmts`, `ParseOperator`, `ParseDotExpr`, `ParseFnItem`, `ParseListed`, `ParseEnclosed`,
`CloseBraces`); the statements and their order are those of the source. Structs, enums and unions share
`ParseMembersDecl`; the source has one copy for each.

**Driver.** `Driver.dfy` has `compilePack` and `parseFile` over a finite file system that says for each
path whether it opens and which top-level declarations it holds, and says what a `mod` declaration means
in terms of paths. `Frontend.dfy` puts the phases together: a text to a pool, the pool to the
declarations the search looks at, and texts to the search's result.

**Positions.** `SourceManager.dfy` has the index of line starts, the binary search and the cache;
`Snippet.dfy` has the snippet printer with its own walk over the lines, as a sequence of rows.

## Where the code and its descriptions differ

The model follows the code.

- `NodeKinds.def` gives `ret` an optional expression; the parser always reads one.
- `NodeKinds.def` lists no generic parameters and no null body for functions, and no `*` among the
  unary operators; `Parser.h` leaves `*` out of its table of prefix operators.
- The second part of a float index such as `t.0.1_0` is dropped without a diagnostic, exactly when a
  separator stands behind the point (`ChainedIndex.SplitIff`, `ChainedIndex.SecondDropped`).
- A tensor literal whose number of dimensions is a multiple of 65536 is reported as having none.
- A block inside an `if` or `while` header keeps struct literals switched off.
- When the right operand of an infix operator fails, the whole expression becomes that Error node.
- A numeral abandoned at `__` reports the empty range at offset 0. Re-lexing fails exactly there
  (`LexerLaws.Incremental`), for instance in `1__2` (`LexerLaws.RelexingFails`).

## Model

| member | source | states |
|---|---|---|
| Frontend.ParseText | lib/Driver/Driver.cpp:157-164 | For any text: lexing and parsing terminate; there is no parser diagnostic exactly when the tokens spell a well-formed file; then the lexer found no error either, the tree is the one that file stands for, without Error nodes, every node nests in its parent with siblings disjoint and in order, and the printed tree gives back the text of every token. With diagnostics the tree is the one recovery gives, cut by cut |
| Frontend.ListMods | lib/Driver/Driver.cpp:189-200 | Walking the pool from the root through `childrenOf`, `kindOf` and `payloadStr`, of a file with errors as well, finds exactly the `mod name;` declarations among the children the stored count lets through, in order; each nonempty name is the one in the text if and only if its own id is below 2^30 |
| Frontend.LoadItems | lib/Driver/Driver.cpp:157-200 | For any text, malformed or not, what the walk yields is what the tree holds that recovery makes of its tokens, child by child, whatever was interned before |
| Frontend.LoadTexts | lib/Driver/Driver.cpp:157-200 | The same for every text of a file system; a folder stays something that cannot be opened |
| Frontend.CompileTexts | lib/Driver/Driver.cpp:114-225 | From texts to status, errors in the texts or not: the status is 0 exactly when what was parsed is sound below the root, and the results are then exactly the reachable files; what was parsed of a text is what its tokens give, so that, when the reachable `mod` names have ids below 2^30, status and results are those of the files the texts give, malformed ones included |
| Frontend.ItemsSpelled | lib/Driver/Driver.cpp:189-200 | A text that reads as a file gives the declarations it spells |
| FileTexts.FileRetold | lib/Parser/Parser.cpp:28-34 | For any text that reads as a file: the tree, printed from its kinds, payloads and flags, gives back the text of every token but commas, separators and grouping parentheses, in order; and the lexer found no error |
| FileTexts.LexedWords | lib/Lexer/Lexer.cpp:93-440 | In any text every keyword and symbol token stands over its own spelling |
| DeclTexts.TellDecl | lib/Parser/ParseDecl.cpp:20-68 | The printed words of a declaration are the texts of its tokens: documentation, `pub`, `unsafe`, keyword, regime, name, generics and what follows |
| TreeTexts.TellSyn | lib/Parser/ParseStmt.cpp:25-94 | The same for every type, pattern, expression, arm and statement, the regime of `let` and `for` and the operators included |
| Parsing.Parser.Parse | lib/Parser/Parser.cpp:28-34 | Terminates on every token sequence; the pool is a valid forest laid out by the schema with readable payloads, the root its newest node and nobody's child; Error nodes never outnumber diagnostics; no diagnostics if and only if the tokens read as a file, and then the root is that tree, without Error nodes and, for tokens in order, properly nested; on every run the root is the tree that recovery gives, with one child for each cut, and each failing cut has a diagnostic |
| DeclTheorems.FileIffDerives | lib/Parser/Parser.cpp:49-64 | A file is read cleanly up to some token, as some tree, exactly when the tokens before it spell a well-formed file with that tree and nothing follows |
| DeclTheorems.FileUnambiguous | lib/Parser/Parser.cpp:49-64 | At most one file, with one end, fits the tokens |
| DeclRuns.SoundFile | lib/Parser/Parser.cpp:49-64 | A file read cleanly is well-formed, spelled by its tokens, and all of them |
| DeclTheorems.CompleteDecl | lib/Parser/ParseDecl.cpp:20-68 | Whatever declaration the tokens derive is the one that is read, with its documentation and visibility |
| DeclTheorems.CompleteFn | lib/Parser/ParseDecl.cpp:70-113 | Every well-formed function the tokens spell is read back: unsafe, regime, generics, parameters, return type, body |
| DeclTheorems.CompleteParts | lib/Parser/Parser.cpp:145-170 | Every comma list of fields, variants, generic parameters or parameters that the tokens spell is read back, trailing comma included |
| Parsing.Parser.ParseSourceFile | lib/Parser/Parser.cpp:49-64 | On every run there are cuts from behind the documentation to the end of the tokens, each behind the one before; the root holds the documentation and then exactly one tree for each: where a declaration derives at a cut it is that tree and its end is the next cut, where none does a diagnostic was recorded and the next cut is where recovery stops |
| Cuts.CutDecls | lib/Parser/ParseDecl.cpp:203-210 | The same for the declarations of any module body, on any tokens |
| Cuts.CutMethods | lib/Parser/ParseDecl.cpp:490-498 | The same for the methods of any trait or implementation |
| Cuts.CutStmts | lib/Parser/ParseStmt.cpp:324-328 | The same for the statements of any block |
| Cuts.CutArms | lib/Parser/ParseStmt.cpp:285-288 | The same for the arms of any match |
| Cuts.StopsNoDecl | lib/Parser/ParseDecl.cpp:58-66 | Where nothing opens a declaration: one Error leaf over that token, and the next cut is behind it at the first semicolon, sync token or end |
| Cuts.StopsNoStmt | lib/Parser/ParseStmt.cpp:88-93 | The same for statements |
| Cuts.StopsElem | lib/Parser/Parser.cpp:145-170 | A failing list element is skipped to the first comma, closing token or end, and its tree is kept |
| Cuts.StopsMethod | lib/Parser/ParseDecl.cpp:490-498 | A failing method is skipped to the first `fn`, `unsafe`, closing brace or end, and its tree is kept |
| Cuts.StopsLet | lib/Parser/ParseStmt.cpp:112-118 | Behind a failed part a `let` ends behind the first semicolon or in front of the first closing brace |
| Cuts.LetThenMod | lib/Parser/Parser.cpp:49-64 | `let x; mod a;` at the top gives an Error leaf and the file module |
| CleanRuns.CleanDecl | lib/Parser/ParseDecl.cpp:20-68 | At every position of any tokens a declaration is read without a diagnostic exactly where the grammar has one, and then with its end and tree |
| CleanRuns.CleanStmt | lib/Parser/ParseStmt.cpp:25-94 | The same for statements |
| CleanRuns.CleanExpr | lib/Parser/ParseExpr.cpp:28-54 | The same for expressions at every power |
| CleanRuns.CleanComma | lib/Parser/Parser.cpp:145-170 | The same for comma lists, whose failing elements are skipped |
| CleanRuns.CleanFile | lib/Parser/Parser.cpp:49-64 | The same for a whole file |
| Tables.SyncIff | lib/Parser/Parser.cpp:209-256 | Recovery stops in front of a closing brace, whatever opens a declaration, whatever but a brace opens a statement of its own, and `match`, and nothing else |
| Tables.OpensIff | lib/Parser/ParseDecl.cpp:36-66 | Those tokens are the ones where the grammar can have a declaration or a statement at all |
| Tables.LeftIff | lib/Parser/ParseExpr.cpp:169-181 | A failing expression leaves exactly the tokens that close or separate some list or statement |
| Tables.RegimeIff | lib/Parser/Parser.cpp:258-273 | The regime keywords are exactly those spelled `imm`, `mut` and `proj` |
| Pratt.ParsesIffDerives | lib/Parser/ParseExpr.cpp:28-54 | Soundness, maximality and completeness at every power: an expression is read cleanly from one position to another exactly when its tokens spell it, both spines respect the binding powers, and the next token continues nothing |
| Pratt.Unambiguous | lib/Parser/ParseExpr.cpp:340-391 | At most one precedence-respecting tree, with one end, fits the tokens at a position |
| Pratt.BlockIffDerives | lib/Parser/ParseStmt.cpp:319-335 | The same equivalence for a block of statements |
| Pratt.RoundTrip | lib/Parser/ParseExpr.cpp:28-54 | Printing an expression tree with minimal parentheses and parsing the tokens at power 0 gives back that tree, reads exactly those tokens and records nothing |
| Pratt.PrintSpells | lib/Parser/ParseExpr.cpp:63-183 | Tokens of the printed kinds spell exactly the printed expression |
| Pratt.MinParensOk | lib/Parser/ParseExpr.cpp:340-391 | The parenthesised tree is well-formed under the table and forgetting the parentheses gives the original |
| Pratt.ParensNeeded | lib/Parser/ParseExpr.cpp:153-168 | None of the printer's parentheses can be dropped, those around the target and the left side of `*x = y` included: no token sequence reads as the form over the bare operand |
| Parentheses.Fewest | lib/Parser/ParseExpr.cpp:340-391 | No well-formed tree spells an expression with fewer parentheses than the printer's tree |
| Parentheses.NotUnique | lib/Parser/ParseExpr.cpp:153-168 | Which parentheses those are is not determined: two trees for `a + *x = b` with one each, in different places |
| Precedence.TwoInARow | lib/Parser/ParseExpr.cpp:340-391 | For any two infix operators and operands without operators of their own, `x op1 y op2 z` at power 0 is `x op1 (y op2 z)` exactly when `op2` is on a higher level or both are assignments, and `(x op1 y) op2 z` otherwise; the ten levels are listed apart from the table |
| Precedence.PrefixFirst | lib/Parser/ParseExpr.cpp:143-168 | `op1 x op2 y` behind a prefix operator is `(op1 x) op2 y` for every infix operator, except that `*x = y` is the projection assignment |
| Precedence.InfixIff | lib/Parser/ParseExpr.cpp:340-391 | A kind is an infix operator of the grammar exactly when it is on one of the levels |
| Precedence.PrefixIff | lib/Parser/ParseExpr.cpp:143-153 | A kind is a prefix operator of the grammar exactly when it is one of the four listed |
| Pratt.StructLitDiscipline | lib/Parser/ParseExpr.cpp:79-97 | With struct literals switched off, an error-free expression holds one only inside parentheses, an argument list, an index, an array or a tensor value |
| Pratt.IfHeader | lib/Parser/ParseStmt.cpp:160-166 | The header of an error-free `if` is a whole expression with no exposed struct literal, and the next token is the brace of its block |
| Pratt.WhileHeader | lib/Parser/ParseStmt.cpp:190-198 | The same for `while` |
| Pratt.ForHeader | lib/Parser/ParseStmt.cpp:213-222 | The same for the expression behind `in` |
| Pratt.MatchHeader | lib/Parser/ParseStmt.cpp:276-286 | The same for `match`, whose brace opens the arms |
| ParserStates.HeaderSheltered | lib/Parser/ParseStmt.cpp:160-166 | On every run, failing or not: each struct literal built while the flag is off stands inside a bracket opened since |
| Soundness.SoundExpr | lib/Parser/ParseExpr.cpp:28-54 | A clean read at power m is a derivation at power m and stops as late as it can |
| Completeness.CompleteExpr | lib/Parser/ParseExpr.cpp:28-54 | Every derivation is read |
| Soundness.SoundStmt | lib/Parser/ParseStmt.cpp:25-94 | A clean statement is well-formed and spelled by its tokens |
| Completeness.CompleteStmt | lib/Parser/ParseStmt.cpp:25-94 | Every well-formed statement that its tokens spell is read |
| Soundness.SoundType | lib/Parser/ParseType.cpp:22-36 | A clean type is well-formed and spelled by its tokens |
| Completeness.CompleteType | lib/Parser/ParseType.cpp:22-36 | Every well-formed type that its tokens spell is read |
| Soundness.SoundPat | lib/Parser/ParsePat.cpp:20-68 | A clean pattern is well-formed and spelled by its tokens |
| Completeness.CompletePat | lib/Parser/ParsePat.cpp:20-68 | Every well-formed pattern that its tokens spell is read |
| Geometry.AstInside | lib/Parser/ParseExpr.cpp:47-50 | The tree of well-formed syntax is nested and inside its tokens, though the parentheses are left out of all ranges |
| ChainedIndex.ChainedTupleIndices | lib/Parser/ParseExpr.cpp:199-235 | `x.d1.d2...dn` lexes and parses without errors to n left-nested tuple indices with the texts d1 to dn, although the lexer fuses the numbers pairwise |
| ChainedIndex.SplitIff | lib/Parser/ParseExpr.cpp:209-235 | Any float token behind a dot: it gives no index exactly when it has no point, and one index instead of two exactly when a separator stands behind its point |
| ChainedIndex.FractionSplit | lib/Parser/ParseExpr.cpp:214-235 | The texts of the indices: the digits before the point, and those behind it without the suffix |
| ChainedIndex.SecondDropped | lib/Parser/ParseExpr.cpp:226-228 | `0.1_0` is a float token, and of it only the index `0` is left |
| Parsing.Parser.ParseExpr | lib/Parser/ParseExpr.cpp:28-54 | On every run the outcome of `parseExpr(m)`: clean exactly when the grammar has an expression at power m, with its tree and end; the powers are those of the levels (`Precedence.TwoInARow`); an Error operand on the right is returned in place of the expression |
| Parsing.Parser.ParseOperator | lib/Parser/ParseExpr.cpp:40-50 | One turn of the loop: operator, right operand, BinaryExpr whose right child is never Error |
| Parsing.Parser.ParsePrefixExpr | lib/Parser/ParseExpr.cpp:63-183 | Refines the run function of prefix expressions; consumes a token unless it stands at a sync token or the end |
| Parsing.Parser.ParseNoExpr | lib/Parser/ParseExpr.cpp:169-181 | Records ExpectedExpr, leaves sync tokens in the stream |
| Parsing.Parser.ParseLitExpr | lib/Parser/ParseExpr.cpp:56-61 | A literal leaf with its text |
| Parsing.Parser.ParseNameExpr | lib/Parser/ParseExpr.cpp:79-92 | A name, a path, or a struct literal where one is allowed |
| Parsing.Parser.ParseStructLitExpr | lib/Parser/ParseExpr.cpp:293-311 | The path and its fields, with struct literals allowed inside and the flag restored |
| Parsing.Parser.ParseFieldInit | lib/Parser/ParseExpr.cpp:313-338 | A field initialiser in full or shorthand |
| Parsing.Parser.ParseParenExpr | lib/Parser/ParseExpr.cpp:93-127 | Unit, tuple or parenthesised expression; parentheses leave no node; the flag is restored |
| Parsing.Parser.ParseTupleRest | lib/Parser/ParseExpr.cpp:109-122 | The elements behind the first, a trailing comma included |
| Parsing.Parser.ParseArrayLitExpr | lib/Parser/ParseExpr.cpp:393-428 | List or repeat form of an array literal |
| Parsing.Parser.ParseRepeatRest | lib/Parser/ParseExpr.cpp:404-413 | The count of `[value; count]` |
| Parsing.Parser.ParseArrayRest | lib/Parser/ParseExpr.cpp:415-427 | The elements behind the first |
| Parsing.Parser.ParseTensorLitExpr | lib/Parser/ParseExpr.cpp:430-458 | Values, then dimensions; on every run the payload is the number of values in sixteen bits, and a number of dimensions that sixteen bits read as zero is reported |
| Parsing.Parser.ParseTensorDims | lib/Parser/ParseExpr.cpp:440-458 | On every run the children are the values and then the dimensions, and the payload counts the values in sixteen bits |
| Parsing.Parser.ParseUnaryExpr | lib/Parser/ParseExpr.cpp:143-168 | Prefix operator over an operand read at power 110 |
| Parsing.Parser.ParseProjRest | lib/Parser/ParseExpr.cpp:157-164 | `*x = rhs` takes an `=` at any power and reads its right side at power 0 |
| Parsing.Parser.ParsePostfixOrCallExpr | lib/Parser/ParseExpr.cpp:185-266 | Postfix operators to the left of every infix one, as many as follow |
| Parsing.Parser.ParseCallExpr | lib/Parser/ParseExpr.cpp:192-198 | A call: callee and ArgList |
| Parsing.Parser.ParseArgList | lib/Parser/ParseExpr.cpp:268-291 | Arguments between parentheses, no trailing comma, flag restored |
| Parsing.Parser.ParseDotExpr | lib/Parser/ParseExpr.cpp:199-243 | Field, tuple index, or two tuple indices from one float token |
| Parsing.Parser.ParseFloatIndex | lib/Parser/ParseExpr.cpp:208-235 | A float token splits at its point into nested tuple indices |
| Parsing.Parser.ParsePostfixIndex | lib/Parser/ParseExpr.cpp:460-491 | One index makes an IndexExpr of two children, more a TensorIndexExpr of at least three |
| Parsing.Parser.ParseCastExpr | lib/Parser/ParseExpr.cpp:254-260 | `as` and a type |
| Parsing.Parser.ParsePropagateExpr | lib/Parser/ParseExpr.cpp:247-253 | `?` over its operand |
| Parsing.Parser.ParseConstExpr | lib/Parser/ParseConst.cpp:48-50 | A constant expression is an expression read at the given power |
| Parsing.Parser.ParseStmt | lib/Parser/ParseStmt.cpp:25-94 | Refines the run function of statements; consumes a token unless none is left |
| Parsing.Parser.ParseExprStmt | lib/Parser/ParseStmt.cpp:64-93 | An expression statement; an expression that came back as Error is recovered from by synchronising |
| Parsing.Parser.ParseBlockExpr | lib/Parser/ParseStmt.cpp:319-335 | Statements between braces; consumes nothing when no brace opens the block |
| Parsing.Parser.ParseStmts | lib/Parser/ParseStmt.cpp:324-328 | On every run the statement loop gives one tree for each cut and consumes a token every turn |
| Parsing.Parser.ParseUnsafeBlock | lib/Parser/ParseStmt.cpp:246-267 | `unsafe` and its statements in one UnsafeBlock |
| Parsing.Parser.ParseHeader | lib/Parser/ParseStmt.cpp:160-166 | A header is read with struct literals off, and the flag is what it was afterwards; every struct literal in it, on any run, stands inside a bracket of its own |
| Parsing.Parser.ParseIfExpr | lib/Parser/ParseStmt.cpp:153-181 | Condition, block, and block or `if` behind `else` |
| Parsing.Parser.ParseWhileStmt | lib/Parser/ParseStmt.cpp:183-202 | Condition and block |
| Parsing.Parser.ParseForStmt | lib/Parser/ParseStmt.cpp:204-226 | Binder, iterated expression and block |
| Parsing.Parser.ParseMatchExpr | lib/Parser/ParseStmt.cpp:269-298 | Scrutinee and arms; every turn of the arm loop consumes a token |
| Parsing.Parser.ParseMatchArm | lib/Parser/ParseStmt.cpp:300-317 | Pattern, arrow, value, and an optional separator |
| Parsing.Parser.ParseLetStmt | lib/Parser/ParseStmt.cpp:96-136 | On every run: binder, optional type and value, and recovery to the semicolon or a closing brace |
| Parsing.Parser.ParseRetStmt | lib/Parser/ParseStmt.cpp:138-151 | `ret`, an expression and a semicolon |
| Parsing.Parser.ParseJumpStmt | lib/Parser/ParseStmt.cpp:228-244 | `break;` and `continue;` |
| Parsing.Parser.ParseType | lib/Parser/ParseType.cpp:22-36 | Refines the run function of types; consumes a token exactly when one starts a type |
| Parsing.Parser.ParseTupleType | lib/Parser/ParseType.cpp:38-48 | Types between parentheses |
| Parsing.Parser.ParseNamedType | lib/Parser/ParseType.cpp:50-65 | A name or a path, kept as written |
| Parsing.Parser.ParseArrayType | lib/Parser/ParseType.cpp:67-82 | Element type and size |
| Parsing.Parser.ParseTensorType | lib/Parser/ParseType.cpp:84-106 | Element type and at least one dimension |
| Parsing.Parser.ParsePat | lib/Parser/ParsePat.cpp:20-68 | Refines the run function of patterns; consumes a token unless none is left |
| Parsing.Parser.ParseStructPat | lib/Parser/ParsePat.cpp:70-84 | Path and field patterns |
| Parsing.Parser.ParseTuplePat | lib/Parser/ParsePat.cpp:86-98 | Patterns between parentheses, behind a path or alone |
| Parsing.Parser.ParseFieldPat | lib/Parser/ParsePat.cpp:100-124 | A field pattern in full or shorthand |
| Parsing.Parser.ParseTopLevelDecl | lib/Parser/ParseDecl.cpp:23-68 | On every run: documentation, visibility, and the declaration its first token selects, `unsafe` without `fn` falling through to `const`; consumes a token unless none is left; clean exactly where the grammar has a declaration |
| Parsing.Parser.ParseNoDecl | lib/Parser/ParseDecl.cpp:58-66 | At least one diagnostic, synchronisation, one Error node |
| Parsing.Parser.ParseFnDecl | lib/Parser/ParseDecl.cpp:70-113 | Head, generics, parameters, return type and body become one FnDecl with name, regime and flags; when no token is consumed a diagnostic is recorded |
| Parsing.Parser.ParseSignature | lib/Parser/ParseDecl.cpp:90-101 | Parameter list and return type; an arrow is reported and read as a colon |
| Parsing.Parser.ParseFnBody | lib/Parser/ParseDecl.cpp:103-113 | A block, or the semicolon that stands for the null body |
| Parsing.Parser.ParseMembersDecl | lib/Parser/ParseDecl.cpp:115-191 | Struct, enum and union: name, generics and members, in order, with documentation in front |
| Parsing.Parser.ParseModDecl | lib/Parser/ParseDecl.cpp:193-223 | An inline module, a file module, or an Error node with its diagnostic |
| Parsing.Parser.ParseModBody | lib/Parser/ParseDecl.cpp:203-210 | On every run the declarations of an inline module, one tree for each cut; the loop consumes a token every turn |
| Parsing.Parser.ParseUsePath | lib/Parser/ParseDecl.cpp:229-266 | The path of a `use` with its glob or alias is interned as the source text from its first to its last token; clean exactly when the path, its tail and the semicolon are there |
| Parsing.Parser.ParseUseDecl | lib/Parser/ParseDecl.cpp:225-271 | One UseDecl whose range ends in front of the semicolon |
| Parsing.Parser.ParseParamList | lib/Parser/ParseDecl.cpp:273-292 | Parameters between parentheses, no trailing comma |
| Parsing.Parser.ParseParam | lib/Parser/ParseDecl.cpp:294-328 | Regime, name and type; `self` alone gets the type `Self` at its own range |
| Parsing.Parser.ParseStructField | lib/Parser/ParseDecl.cpp:330-370 | Regime, name and type, with one diagnostic for a field that never starts |
| Parsing.Parser.ParseEnumVariant | lib/Parser/ParseDecl.cpp:372-426 | Unit, valued, tuple or struct variant |
| Parsing.Parser.ParseTraitDecl | lib/Parser/ParseDecl.cpp:428-460 | Methods without bodies, with recovery to the next `fn`, `unsafe` or closing brace |
| Parsing.Parser.ParseImplDecl | lib/Parser/ParseDecl.cpp:462-505 | Trait or null, type, and methods with bodies |
| Parsing.Parser.ParseMethod | lib/Parser/ParseDecl.cpp:490-498 | On every run one method and recovery: at least one token is consumed even where `parseFnDecl` consumes none, and behind a failing one everything up to the next `fn`, `unsafe` or closing brace |
| Parsing.Parser.ParseGenericParams | lib/Parser/ParseGenerics.cpp:22-44 | Nothing, or parameters between angle brackets with an optional trailing comma |
| Parsing.Parser.ParseGenericParam | lib/Parser/ParseGenerics.cpp:46-69 | Name and bound, null when there is none |
| Parsing.Parser.ParseListed | lib/Parser/ParseDecl.cpp:281-286 | A comma loop over generic parameters or parameters reads what the list function reads |
| Parsing.Parser.ParseConstDecl | lib/Parser/ParseConst.cpp:23-46 | Name, type and value; consumes a token at `const` and at `unsafe` |
| Parsing.Parser.ParseDocComments | lib/Parser/Parser.cpp:66-75 | One DocComment per leading documentation token, with its text |
| Parsing.Parser.ParseFileDocComments | lib/Parser/Parser.cpp:77-91 | The same for the documentation of the file |
| Parsing.Parser.Advance | lib/Parser/TokenStream.cpp:67-72 | The token at the cursor; the cursor stops behind the last |
| Parsing.Parser.Consume | lib/Parser/TokenStream.cpp:74-81 | Moves on exactly over the wanted token |
| Parsing.Parser.Expect | lib/Parser/Parser.cpp:109-123 | The wanted token, or one diagnostic and a token of kind unknown, the cursor unmoved |
| Parsing.Parser.ExpectName | lib/Parser/Parser.cpp:129-143 | The text at the cursor interned, with one diagnostic when it is no name |
| Parsing.Parser.ParseCommaSeparated | lib/Parser/Parser.cpp:145-170 | On every run: elements with commas and one trailing comma; an element that records a diagnostic is kept, and the tokens up to the next comma or the closing token are skipped |
| Parsing.Parser.ParseEnclosed | lib/Parser/Parser.cpp:145-170 | The elements of a comma list and its closing token: clean exactly when the list is and the token is there |
| Parsing.Parser.ParseFieldInits | lib/Parser/ParseExpr.cpp:299-312 | The fields of a struct literal with the flag on, and the flag back off or on as it was |
| Parsing.Parser.CloseDims | lib/Parser/ParseExpr.cpp:452-456 | A list without dimensions and a missing bracket are each reported |
| Parsing.Parser.ParseBranches | lib/Parser/ParseStmt.cpp:169-181 | The block, and behind `else` another `if` or a block |
| Parsing.Parser.ParseForRest | lib/Parser/ParseStmt.cpp:216-226 | The iterated expression and the block under one ForStmt with the binder in its payload |
| Parsing.Parser.ParseTypedParam | lib/Parser/ParseDecl.cpp:318-327 | Clean exactly for a colon and a clean type behind the name |
| Parsing.Parser.ParseReturn | lib/Parser/ParseDecl.cpp:92-100 | A colon and a type, nothing, or an arrow reported in place of the colon |
| Parsing.Parser.ParseInit | lib/Parser/ParseConst.cpp:35-36 | The equals sign and the value of a constant |
| Parsing.Parser.ParsePathSegments | lib/Parser/Parser.cpp:172-192 | Segments behind `::`, each redundant separator reported, and the range of the path, on every run |
| Parsing.Parser.Synchronize | lib/Parser/Parser.cpp:209-256 | Skips at least one token, then stops at the first sync point and no further |
| Parsing.Parser.ParseRegime | lib/Parser/Parser.cpp:258-273 | The regime keyword at the cursor, consumed, or none; that `imm`, `mut` and `proj` are stored as what they say is `DeclTexts.TellDecl` and `TreeTexts.TellSyn` |
| Parsing.Parser.MakeErrorNode | lib/Parser/Parser.cpp:205-207 | An Error leaf, allowed only when a new diagnostic answers for it |
| Parsing.Parser.Alloc | lib/Parser/NodePool.cpp:36-50 | A node over loose children that fit its kind; the pool grows by exactly this tree |
| ParserStates.KeptAlloc | lib/Parser/NodePool.cpp:36-50 | Adding a node over loose children keeps everything earlier and the count of Error nodes within the count of diagnostics |
| Pool.NodePool.constructor | lib/Parser/NodePool.cpp:29-34 | The pool starts with the sentinel at index 0 |
| Pool.NodePool.Alloc | lib/Parser/NodePool.cpp:36-50 | Appends the tree of the new node, changes nothing older, keeps the pool a forest |
| Pool.NodePool.ChildrenOf | lib/Parser/NodePool.cpp:76-80 | The slice is in bounds, each child null or strictly between 0 and its parent, and the children are the ones given, up to a count cut to sixteen bits |
| Pool.OneParent | lib/Parser/NodePool.cpp:36-50 | No node is a child of two nodes or in two places of one |
| Pool.SlicesOrdered | lib/Parser/NodePool.cpp:36-50 | Child slices of later nodes lie behind those of earlier ones |
| Layouts.ShapeFn | lib/Parser/ParseDecl.cpp:87-112 | Documentation, generics, ParamList, return type and body or null fit the layout of FnDecl |
| Layouts.ShapeImpl | lib/Parser/ParseDecl.cpp:474-505 | Documentation, generics, trait or null, type and methods fit the layout of ImplDecl |
| Layouts.ShapeIf | lib/Parser/ParseStmt.cpp:153-181 | Condition, block, and block or `if` fit the layout of IfExpr |
| Layouts.ShapeTensorIndex | lib/Parser/ParseExpr.cpp:460-491 | A base and at least two indices fit the layout of TensorIndexExpr |
| Layouts.MatchMany | lib/Parser/NodePool.cpp:36-50 | Any number of children of one sort in front of matching ones matches |
| Interning.StringInterner.constructor | lib/Base/StringInterner.cpp:18-22 | Only the sentinel is interned at first |
| Interning.StringInterner.Intern | lib/Base/StringInterner.cpp:24-39 | Never 0, the old id for a known string, the next for a new one, and all earlier ids keep their strings |
| Interning.Canonical | lib/Base/StringInterner.cpp:24-44 | Ids are equal exactly when their strings are |
| Interning.PayloadRoundTrip | lib/Parser/NodePool.cpp:88-98 | The regime is always recovered, the name exactly when its id is below 2^30 |
| Interning.StoresNameRegime | lib/Parser/NodePool.cpp:88-98 | The word packed from a name and a regime stores them |
| Interning.StoresLater | lib/Base/StringInterner.cpp:24-44 | A stored payload stays readable after later interning, however much is interned |
| Interning.ReadBack | lib/Parser/NodePool.cpp:88-98 | From the word of a node, after any later interning, the regime is recovered always, and the name exactly when its own id is below 2^30 |
| TokenStreams.Load | lib/Parser/TokenStream.cpp:15-37 | Comments dropped, errors turned into unknown tokens at their place and collected, all else kept in order |
| TokenStreams.CleanLexInOrder | lib/Parser/TokenStream.cpp:15-37 | Error-free lexing of a buffer gives the parser tokens in order, the only and last eof at the end |
| FileTexts.EveryItemStands | lib/Parser/TokenStream.cpp:15-37 | Every item of the lexer but comments stands in the stream, at the place the items before leave it: tokens as they are, an error as an unknown token over its range; nothing else is there |
| LexerLoops.SkipWhitespace | lib/Lexer/Lexer.cpp:444-455 | Stops at the first byte that is no white space; which bytes those are is `LexerTexts.TextRoundTrip` and `LexerTexts.EveryByte` |
| LexerLoops.LexIdentifier | lib/Lexer/Lexer.cpp:457-479 | The longest word, as identifier, keyword or reserved word |
| LexerLoops.LexNumericLiteral | lib/Lexer/Lexer.cpp:481-562 | The numeral of the lexical functions; one abandoned at `__` keeps the range (0,0) |
| LexerLoops.LexQuoted | lib/Lexer/Lexer.cpp:564-698 | The scan of a string or character literal, escapes checked, their errors in front of its own |
| LexerLoops.LexUnicodeEscape | lib/Lexer/Lexer.cpp:53-91 | The cursor loop computes the end of the escape and its errors |
| LexerLoops.UnicodeEscapeIff | lib/Lexer/Lexer.cpp:53-91 | The escape is well-formed exactly when at least one hex digit and nothing else stands between its braces, and it ends behind them |
| LexerLoops.LexBlockComment | lib/Lexer/Lexer.cpp:704-737 | The depth loop computes the comment of the lexical functions |
| LexerLoops.LexLexeme | lib/Lexer/Lexer.cpp:128-440 | One turn of the main loop is one lexeme |
| LexerLoops.LexRange | lib/Lexer/Lexer.cpp:93-440 | The main loop over any span: malformed spans give nothing, eof only for the whole buffer |
| LexerLoops.LexBuffer | lib/Lexer/Lexer.cpp:433-440 | The same for a whole buffer; what it makes of texts is `LexerTexts.TextRoundTrip` |
| LexerLaws.Tiling | lib/Lexer/Lexer.cpp:121-131 | The ranges of the turns are nonempty, in order, disjoint, and cover every byte that is no white space |
| LexerLaws.TokensInOrder | lib/Lexer/Lexer.cpp:93-440 | Emitted tokens are nonempty, in order and disjoint, errors in between or not |
| LexerLaws.LexOneBound | lib/Lexer/Lexer.cpp:481-562 | A lexeme is the same when lexing stops right behind it, except a numeral abandoned there |
| LexerLaws.Incremental | lib/Lexer/Lexer.cpp:93-440 | Lexing a span is lexing two adjacent parts one after the other, at any place no lexeme reaches across, if and only if no numeral abandoned at `__` ends there |
| LexerLaws.RelexingFails | lib/Lexer/Lexer.cpp:503-506 | At `1__2`, cut at offset 2, the parts do not lex as the whole does |
| LexerComments.StopsAtBalance | lib/Lexer/Lexer.cpp:704-737 | The counter stops exactly at the end of the shortest balanced prefix |
| LexerComments.BalanceFound | lib/Lexer/Lexer.cpp:704-737 | A counter that reaches zero has found a balanced prefix |
| LexerComments.UnterminatedIff | lib/Lexer/Lexer.cpp:704-737 | UnterminatedBlockComment is reported if and only if no prefix balances |
| LexerComments.CommentRoundTrip | lib/Lexer/Lexer.cpp:704-737 | Any printed well-nested comment lexes to one token that covers exactly its text |
| LexerSymbols.LongestMatch | lib/Lexer/Lexer.cpp:215-431 | The switch picks the longest symbol that is a prefix of the remaining text, and nothing exactly when there is none |
| LexerTrips.LexemeMoved | lib/Lexer/Lexer.cpp:93-440 | A lexeme is the same lexeme wherever it stands |
| LexerTrips.LexemeSpaced | lib/Lexer/Lexer.cpp:444-455 | Any of the bytes 0x20, 0x09, 0x0A and 0x0D ends a lexeme |
| LexerTexts.TextRoundTrip | lib/Lexer/Lexer.cpp:93-455 | Any lexemes with nonempty runs of the bytes 0x20, 0x09, 0x0A and 0x0D and any line and block comments between them lex to exactly their kinds and texts, without errors, and eof; a line comment is a comment, documentation or file documentation by its slashes and its `!` |
| LexerTexts.EveryByte | lib/Lexer/Lexer.cpp:444-455 | A byte other than those four lies inside the range of an item exactly when it is not part of a numeral abandoned at `__` |
| Tables.WordBytes | lib/Lexer/Lexer.cpp:29-31 | By byte values: what begins a word, what continues it, digits and hex digits |
| Tables.OtherBytes | lib/Lexer/Lexer.cpp:564-698 | By byte values: line ends, continuation bytes and the bytes of simple escapes |
| Tables.ReservedIff | lib/Lexer/Lexer.cpp:457-479 | A word is a ReservedKeyword error exactly when it is one of the eight listed |
| Tables.LiteralIff | lib/Parser/ParseExpr.cpp:71-78 | The parser takes a token for a literal exactly when its text begins with a digit or a quote or is `true` or `false` |
| LexerClasses.WordLexeme | lib/Lexer/Lexer.cpp:457-479 | Every word that is not reserved is a lexeme |
| LexerClasses.KeywordLexeme | include/eter/Lexer/TokenKinds.def:130-158 | Every keyword is a lexeme of its own kind |
| LexerClasses.SymbolLexeme | include/eter/Lexer/TokenKinds.def:76-175 | Every symbol is a lexeme of its own kind |
| LexerClasses.IntegerIff | lib/Lexer/Lexer.cpp:481-562 | A text is an integer token exactly when it is digits, or a prefix and hex digits, with single separators but none at the end |
| LexerClasses.FloatIff | lib/Lexer/Lexer.cpp:481-562 | A text is a fraction token exactly when it is an integer part with a point and a digit behind it and then digits and separators, or with a suffix |
| LexerClasses.StringLexeme | lib/Lexer/Lexer.cpp:564-625 | Terminated strings of plain bytes and valid escapes are lexemes |
| LexerClasses.CharLexeme | lib/Lexer/Lexer.cpp:627-698 | So are quoted pieces that count as one character |
| LexerClasses.ScalarLexeme | lib/Lexer/Lexer.cpp:627-698 | One scalar value in the encoding of section 3 of RFC 3629 counts as one character |
| Drivers.CompilePack | lib/Driver/Driver.cpp:114-130 | Returns 0 if and only if every reachable file opens, every `mod` has a file and no chain of `mod` is circular; Results is then exactly the reachable files, the root, and for each other one a stored file that has it as child, and each `mod` of a stored file has one of its two candidates; always each file is parsed at most once and stored after its children |
| Drivers.EdgeIff | lib/Driver/Driver.cpp:195-216 | With paths as folder and last component: `q` is a child of `p` exactly when `p` declares some name and `q` is its `.et` file beside `p`, or its `mod.et` in a folder of that name when the former does not exist |
| Drivers.BrokenIff | lib/Driver/Driver.cpp:203-216 | A file is broken exactly when it does not open or declares a name neither of whose candidates exists |
| Drivers.ResultsAreModules | lib/Driver/Driver.cpp:195-223 | After status 0 the root is stored, every other stored file is such a child of a stored file, and every `mod` of a stored file has such a child |
| Drivers.Search.ParseFile | lib/Driver/Driver.cpp:132-225 | Terminates; InProgress is restored on every exit; Results only grow, by files below this one, children first; status 1 only with a failing chain as witness; what a child is is `Drivers.EdgeIff` |
| Drivers.CompileAll | lib/Driver/Driver.cpp:105-111 | Returns 0 exactly when the search from every input succeeds |
| Drivers.TrailDescends | lib/Driver/Driver.cpp:195-223 | Along a chain of `mod` declarations from a stored file storage positions descend |
| Drivers.ChildrenFirstSound | lib/Driver/Driver.cpp:222-223 | Files stored children first are sound and closed under reachability |
| Drivers.FailsThrough | lib/Driver/Driver.cpp:217-219 | A failing chain of a child is a failing chain of its parent, or closes a circle on it |
| Drivers.OnlyReachable | lib/Driver/Driver.cpp:132-225 | Two file systems with the same paths, and the same in each file reachable from the root of one, agree on what is reachable and on whether it is sound |
| SourcePositions.SourceManager.constructor | lib/Base/SourceManager.cpp:18-20 | The index is built and the cache empty |
| SourcePositions.SourceManager.BuildLineIndex | lib/Base/SourceManager.cpp:28-37 | The loop builds the starts of all lines |
| SourcePositions.SourceManager.UpperBound | lib/Base/SourceManager.cpp:45-48 | The binary search finds the first start above the offset |
| SourcePositions.SourceManager.GetLocation | lib/Base/SourceManager.cpp:39-56 | Through the cache or the search, one more than the newlines before the offset and one more than the bytes since the last |
| SourcePositions.IndexAgrees | lib/Base/SourceManager.cpp:45-52 | A start is at or before an offset exactly when its line is at or before the counted one |
| SourcePositions.Invertible | lib/Base/SourceManager.cpp:39-56 | Line start plus column gives back every offset |
| SourcePositions.InvertibleBack | lib/Base/SourceManager.cpp:39-56 | Every location on a line is the location of its offset |
| Snippets.LocationIsSplit | lib/Base/SourceManager.cpp:39-56 | Line and column of an offset are the number of lines that the text in front splits into and one more than the length of the last |
| Snippets.CountLines | lib/Base/DiagnosticEngine.cpp:74-82 | Zero for empty text, else one more than its newlines |
| Snippets.MeasureWidth | lib/Base/DiagnosticEngine.cpp:20-27 | The loop computes the number of decimal digits |
| Snippets.WidthMonotone | lib/Base/DiagnosticEngine.cpp:148-148 | Larger numbers are no narrower, so the padding never underflows |
| Snippets.WidthIsLength | lib/Base/DiagnosticEngine.cpp:20-27 | The width is the length of the number as written |
| Snippets.WalkBack | lib/Base/DiagnosticEngine.cpp:121-126 | Searching back from before a line start finds the indexed start of the line before |
| Snippets.WalkForward | lib/Base/DiagnosticEngine.cpp:139-180 | Searching forward from a line start finds its indexed end, and only the last line ends the text |
| Snippets.FirstOffset | lib/Base/DiagnosticEngine.cpp:121-126 | The walk back ends on the indexed start of the first context line |
| Snippets.PrintLine | lib/Base/DiagnosticEngine.cpp:139-175 | One line's rows are those the index gives |
| Snippets.PrintLines | lib/Base/DiagnosticEngine.cpp:137-181 | The walk visits exactly the context lines, on their indexed starts |
| Snippets.PrintSnippet | lib/Base/DiagnosticEngine.cpp:92-182 | The rows are those of the indexed lines of the context range, for every span and option |
| Snippets.MarksAreTheSpan | lib/Base/DiagnosticEngine.cpp:154-165 | A byte of a line is marked exactly when the span contains it |
| Snippets.MarksUnderTheSpan | lib/Base/DiagnosticEngine.cpp:154-175 | In the row of marks: under a byte of the line stands the mark exactly when the span contains the byte, otherwise a space or nothing; only the caption may stand further right |
| Snippets.EmptyMark | lib/Base/DiagnosticEngine.cpp:158-159 | A span without a byte of the line gets a single mark where it stands |
| Snippets.TextRow | lib/Base/DiagnosticEngine.cpp:139-153 | The row of a line holds its text, as splitting at newlines gives it, behind a gutter of one width for all rows |
| Snippets.SnippetShows | lib/Base/DiagnosticEngine.cpp:99-181 | The lines shown are those of the span with the one in front and the one behind, each once and in order, without the line to skip |
| Snippets.WidenedIsEmpty | lib/Base/DiagnosticEngine.cpp:158-159 | A range is widened to one column only where the span has no byte of the line |
| Snippets.GutterAligned | lib/Base/DiagnosticEngine.cpp:119-149 | Padding and number fill the gutter on every row |

## Left out

- LexerClasses.ScalarLexeme: counts lead and continuation bytes as the lexer does; overlong and surrogate encodings are not told apart, since the lexer does not either.
- ChainedIndex.ChainedTupleIndices: for texts below 4 GiB, since the length of a token's text is a 32-bit difference in the source.
- Frontend.ListMods: an empty name is not followed through the cut of its id, and declarations behind the first (count mod 65536) are not seen, as in the source.
- Frontend.CompileTexts: parses all files up front where the driver parses each when it reaches it.
- Pool.NodePool.ChildrenOf: promises all the children only below 65536 of them, because the stored count has sixteen bits; for more it states what the cut count gives.
- Pratt.RoundTrip: prints the expression forms whose tokens are fixed by the form (literals, names, paths, operators, projection assignment, calls, fields, tuple indices, indices, `?`, tuples, arrays); struct, tensor and repeat literals, casts, control flow and blocks are covered by `Pratt.ParsesIffDerives`.
- Drivers.CompilePack: what a file holds is a parameter, so the errors inside a file, which do not change the status, do not appear; `Frontend.CompileTexts` gives it what the parser finds.
- Command line, help and version output, file loading and existence checks: I/O.
- Terminal colours, the error stream and the chaining of diagnostic builders: the snippet is a sequence of rows, the order of diagnostics is kept.
- Parsing.Parser.AddError: texts, notes, labels and argument maps of diagnostics are left out; the model records which diagnostic, where and in which order, and the functions of `Recovery.dfy` say whether there is one.
- FileTexts.FileRetold: commas, the semicolons behind expression statements and arms, and parentheses without a node leave nothing in the tree, so that the printer cannot say where they stood; the same holds for the point at which a tensor literal's values end, whose count is stored in sixteen bits.
- Overflow of 32-bit offsets, ids and line numbers, and the depth of the C++ stack: sizes are assumed to fit, except where the source cuts a number on purpose.
- LLVM's containers and allocators: maps, sequences and strings in their place.
- `parseGenericArgs` and the node kinds no parser function builds: no caller.
- `DefIndex.h` and the accessors of `ASTNodes.h`: declarations without bodies here.
- The language's planned semantics: not implemented by this code.
