/** Recovery cut by cut: a loop over declarations, methods, statements or arms takes one after another, on any
    tokens. Where the grammar has the production it is the tree and its end is the next cut; where it has
    none, a diagnostic is recorded and the next cut is where recovery stops. Nothing is dropped. */
module Cuts {
  import opened Tokens
  import opened Trees
  import opened Grammar
  import opened Spelling
  import opened ErrorFree
  import opened Soundness
  import opened Completeness
  import opened Outcomes
  import opened Productions
  import opened Pool
  import opened DeclGrammar
  import opened DeclRuns
  import opened Declarations
  import opened DeclTheorems
  import opened Recovery
  import opened CleanRuns

  /////////////////////////// chains of outcomes ///////////////////////////

  // The `i`-th cut of a loop that began at `pos` and read `xs`.
  function CutAt(pos: nat, xs: seq<Out>, i: nat): nat
    requires i <= |xs|
  {
    if i == 0 then pos else xs[i - 1].end
  }

  function TreesOf(xs: seq<Out>): seq<Tree> { seq(|xs|, i requires 0 <= i < |xs| => xs[i].tree) }

  predicate AllOk(xs: seq<Out>) { forall i :: 0 <= i < |xs| ==> xs[i].ok }

  function Failures(xs: seq<Out>): nat {
    if xs == [] then 0 else Failures(xs[..|xs| - 1]) + if xs[|xs| - 1].ok then 0 else 1
  }

  // A loop that began at `pos` and read `xs` left `l` behind.
  predicate Chained(pos: nat, xs: seq<Out>, l: ListOut) {
    l.trees == TreesOf(xs) && l.end == CutAt(pos, xs, |xs|) && l.ok == AllOk(xs)
  }

  lemma ChainedNone(pos: nat)
    ensures Chained(pos, [], None(pos))
  {
  }

  lemma ChainedCons(pos: nat, x: Out, xs: seq<Out>, l: ListOut)
    requires Chained(x.end, xs, l)
    ensures Chained(pos, [x] + xs, Onto(OneOut(x), l))
    ensures forall i :: 0 <= i <= |xs| ==> CutAt(pos, [x] + xs, i + 1) == CutAt(x.end, xs, i)
  {
    var ys := [x] + xs;
    assert AllOk(ys) <==> x.ok && AllOk(xs) by {
      assert forall i :: 0 <= i < |xs| ==> ys[i + 1] == xs[i];
      assert ys[0] == x;
    }
    assert TreesOf(ys) == [x.tree] + TreesOf(xs);
  }

  lemma {:induction false} FailuresAre(xs: seq<Out>)
    ensures Failures(xs) == 0 <==> AllOk(xs)
    decreases |xs|
  {
    if xs != [] {
      var front := xs[..|xs| - 1];
      FailuresAre(front);
      assert AllOk(xs) <==> AllOk(front) && xs[|xs| - 1].ok;
    }
  }

  /////////////////////////// declarations ///////////////////////////

  // The tokens from `pos` on begin with the declaration `d`.
  predicate DerivesDecl(inp: Input, pos: nat, d: Decl, sl: Switch) { MDecl(inp, pos, d) >= 0 && WFForm(d.form, sl) }

  lemma DeclIff(inp: Input, pos: nat, sl: Switch)
    ensures ReadDecl(inp, pos, sl).Read? <==> exists d :: DerivesDecl(inp, pos, d, sl)
    ensures forall d :: DerivesDecl(inp, pos, d, sl) ==>
            ReadDecl(inp, pos, sl) == Read(MDecl(inp, pos, d), AstDecl(inp, pos, d))
  {
    hide MDecl, WFForm, RunDecl, AstDecl;
    SoundDecl(inp, pos, sl);
    var r := RunDecl(inp, pos, sl);
    if r.Done? { assert DerivesDecl(inp, pos, r.syn, sl); }
    forall d | DerivesDecl(inp, pos, d, sl)
      ensures ReadDecl(inp, pos, sl) == Read(MDecl(inp, pos, d), AstDecl(inp, pos, d))
    {
      CompleteDecl(inp, pos, d, MDecl(inp, pos, d), sl);
    }
  }

  /** One turn of a loop over declarations, from the cut `p`, gave `x`. */
  ghost predicate DeclCut(inp: Input, p: nat, inner: Switch, sl: Switch, x: Out) {
    && p < x.end <= |inp.toks| && KindAt(inp, p) != Eof && (inner.On? ==> KindAt(inp, p) != RBrace)
    && (x.ok <==> exists d :: DerivesDecl(inp, p, d, sl))
    && (forall d :: DerivesDecl(inp, p, d, sl) ==> x.end == MDecl(inp, p, d) && x.tree == AstDecl(inp, p, d))
    && (!x.ok ==> x == TakeDecl(inp, p, sl))
  }

  ghost predicate DeclCuts(inp: Input, pos: nat, inner: Switch, sl: Switch, xs: seq<Out>) {
    forall i :: 0 <= i < |xs| ==> DeclCut(inp, CutAt(pos, xs, i), inner, sl, xs[i])
  }

  lemma TurnDecl(inp: Input, p: nat, inner: Switch, sl: Switch)
    requires p <= |inp.toks| && KindAt(inp, p) != Eof && (inner.On? ==> KindAt(inp, p) != RBrace)
    ensures DeclCut(inp, p, inner, sl, TakeDecl(inp, p, sl))
  {
    hide TakeDecl, ReadDecl, DerivesDecl, AstDecl, MDecl;
    CleanDecl(inp, p, sl);
    DeclIff(inp, p, sl);
  }

  /** Declarations of a module body or a file, up to its end, on any tokens. */
  lemma {:induction false} CutDecls(inp: Input, pos: nat, inner: Switch, sl: Switch) returns (xs: seq<Out>)
    requires pos <= |inp.toks|
    ensures var l := TakeDecls(inp, pos, inner, sl);
            && Chained(pos, xs, l) && DeclCuts(inp, pos, inner, sl, xs)
            && (KindAt(inp, l.end) == Eof || (inner.On? && KindAt(inp, l.end) == RBrace))
    decreases |inp.toks| - pos
  {
    hide TakeDecl, DeclCut, Chained;
    xs := [];
    ChainedNone(pos);
    if KindAt(inp, pos) != Eof && (inner.On? ==> KindAt(inp, pos) != RBrace) {
      var x := TakeDecl(inp, pos, sl);
      TurnDecl(inp, pos, inner, sl);
      var rest := CutDecls(inp, x.end, inner, sl);
      ChainedCons(pos, x, rest, TakeDecls(inp, x.end, inner, sl));
      xs := [x] + rest;
      assert forall i :: 0 < i < |xs| ==> xs[i] == rest[i - 1] && CutAt(pos, xs, i) == CutAt(x.end, rest, i - 1);
    }
  }

  /////////////////////////// methods ///////////////////////////

  // The tokens from `pos` on begin with `n` documentation comments and the function `f`.
  predicate DerivesMethod(inp: Input, pos: nat, n: nat, f: FnSyn, body: Switch, sl: Switch) {
    MDocs(inp, pos, n, DocCommentTok) >= 0 && MFn(inp, pos + n, f) >= 0 && WFFn(f, body, sl)
  }

  ghost predicate MethodCut(inp: Input, p: nat, body: Switch, sl: Switch, x: Out) {
    && p < x.end <= |inp.toks| && KindAt(inp, p) != Eof && KindAt(inp, p) != RBrace
    && (x.ok <==> exists n, f :: DerivesMethod(inp, p, n, f, body, sl))
    && (forall n, f :: DerivesMethod(inp, p, n, f, body, sl) ==>
          x.end == MFn(inp, p + n, f) && x.tree == AstFn(inp, p + n, f, 0, AstDocs(inp, p, n, DocComment)))
    && (!x.ok ==> x == TakeMethod(inp, p, body, sl))
  }

  ghost predicate MethodCuts(inp: Input, pos: nat, body: Switch, sl: Switch, xs: seq<Out>) {
    forall i :: 0 <= i < |xs| ==> MethodCut(inp, CutAt(pos, xs, i), body, sl, xs[i])
  }

  lemma MethodIff(inp: Input, pos: nat, body: Switch, sl: Switch)
    ensures ReadMethod(inp, pos, body, sl).Read? <==> exists n, f :: DerivesMethod(inp, pos, n, f, body, sl)
    ensures forall n, f :: DerivesMethod(inp, pos, n, f, body, sl) ==>
            ReadMethod(inp, pos, body, sl)
            == Read(MFn(inp, pos + n, f), AstFn(inp, pos + n, f, 0, AstDocs(inp, pos, n, DocComment)))
  {
    hide MFn, WFFn, RunFn, AstFn, AstDocs, DocCount, MDocs;
    SoundDocs(inp, pos, DocCommentTok);
    var n0 := DocCount(inp, pos, DocCommentTok);
    SoundFn(inp, pos + n0, body, sl);
    var r := RunFn(inp, pos + n0, body, sl);
    if r.Done? { assert DerivesMethod(inp, pos, n0, r.syn, body, sl); }
    forall n, f | DerivesMethod(inp, pos, n, f, body, sl)
      ensures n == n0 && r == Done(f, MFn(inp, pos + n, f))
    {
      FnFirst(inp, pos + n, f);
      CompleteDocs(inp, pos, n, DocCommentTok);
      assert n == n0;
      CompleteFn(inp, pos + n, f, body, MFn(inp, pos + n, f), sl);
    }
  }

  lemma TurnMethod(inp: Input, p: nat, body: Switch, sl: Switch)
    requires p <= |inp.toks| && KindAt(inp, p) != Eof && KindAt(inp, p) != RBrace
    ensures MethodCut(inp, p, body, sl, TakeMethod(inp, p, body, sl))
  {
    hide TakeMethod, ReadMethod, DerivesMethod, AstFn, MFn, AstDocs;
    CleanMethod(inp, p, body, sl);
    MethodIff(inp, p, body, sl);
  }

  /** The methods of any trait or implementation. */
  lemma {:induction false} CutMethods(inp: Input, pos: nat, body: Switch, sl: Switch) returns (xs: seq<Out>)
    requires pos <= |inp.toks|
    ensures var l := TakeMethods(inp, pos, body, sl);
            && Chained(pos, xs, l) && MethodCuts(inp, pos, body, sl, xs)
            && (KindAt(inp, l.end) == Eof || KindAt(inp, l.end) == RBrace)
    decreases |inp.toks| - pos
  {
    hide TakeMethod, MethodCut, Chained;
    xs := [];
    ChainedNone(pos);
    if KindAt(inp, pos) != Eof && KindAt(inp, pos) != RBrace {
      var x := TakeMethod(inp, pos, body, sl);
      TurnMethod(inp, pos, body, sl);
      var rest := CutMethods(inp, x.end, body, sl);
      ChainedCons(pos, x, rest, TakeMethods(inp, x.end, body, sl));
      xs := [x] + rest;
      assert forall i :: 0 < i < |xs| ==> xs[i] == rest[i - 1] && CutAt(pos, xs, i) == CutAt(x.end, rest, i - 1);
    }
  }

  /////////////////////////// statements and arms ///////////////////////////

  // The tokens from `pos` on begin with the statement `s`; what follows does not continue it.
  predicate DerivesStmt(inp: Input, pos: nat, s: Syn, sl: Switch) {
    s.St? && M(inp, pos, s) >= 0 && WF(s, sl) && KindAt(inp, M(inp, pos, s)) != KwElse
  }

  ghost predicate StmtCut(inp: Input, p: nat, sl: Switch, x: Out) {
    && p < x.end <= |inp.toks| && KindAt(inp, p) != Eof && KindAt(inp, p) != RBrace
    && Agrees(inp, p, x, RunStmt(inp, p, sl))
    && (forall s :: DerivesStmt(inp, p, s, sl) ==> x == Out(true, M(inp, p, s), Ast(inp, p, s)))
    && (!x.ok ==> x == TakeStmt(inp, p, sl))
  }

  ghost predicate StmtCuts(inp: Input, pos: nat, sl: Switch, xs: seq<Out>) {
    forall i :: 0 <= i < |xs| ==> StmtCut(inp, CutAt(pos, xs, i), sl, xs[i])
  }

  lemma StmtTurn(inp: Input, p: nat, sl: Switch)
    requires p <= |inp.toks|
    ensures Agrees(inp, p, TakeStmt(inp, p, sl), RunStmt(inp, p, sl))
    ensures forall s :: DerivesStmt(inp, p, s, sl) ==> TakeStmt(inp, p, sl) == Out(true, M(inp, p, s), Ast(inp, p, s))
  {
    hide TakeStmt, RunStmt, M, Ast, WF;
    CleanStmt(inp, p, sl);
    forall s | DerivesStmt(inp, p, s, sl)
      ensures TakeStmt(inp, p, sl) == Out(true, M(inp, p, s), Ast(inp, p, s))
    {
      CompleteStmt(inp, p, s, M(inp, p, s), sl);
    }
  }

  lemma TurnStmt(inp: Input, p: nat, sl: Switch)
    requires p <= |inp.toks| && KindAt(inp, p) != Eof && KindAt(inp, p) != RBrace
    ensures StmtCut(inp, p, sl, TakeStmt(inp, p, sl))
  {
    hide TakeStmt, RunStmt, M, Ast, WF, DerivesStmt, Agrees;
    StmtTurn(inp, p, sl);
  }

  /** The statements of any block, clean or not, up to its closing brace or the end. */
  lemma {:induction false} CutStmts(inp: Input, pos: nat, sl: Switch) returns (xs: seq<Out>)
    requires pos <= |inp.toks|
    ensures var l := TakeStmts(inp, pos, sl);
            && Chained(pos, xs, l) && StmtCuts(inp, pos, sl, xs)
            && (KindAt(inp, l.end) == Eof || KindAt(inp, l.end) == RBrace)
    decreases |inp.toks| - pos
  {
    hide TakeStmt, StmtCut, Chained;
    xs := [];
    ChainedNone(pos);
    if KindAt(inp, pos) != Eof && KindAt(inp, pos) != RBrace {
      var x := TakeStmt(inp, pos, sl);
      TurnStmt(inp, pos, sl);
      var rest := CutStmts(inp, x.end, sl);
      ChainedCons(pos, x, rest, TakeStmts(inp, x.end, sl));
      xs := [x] + rest;
      assert forall i :: 0 < i < |xs| ==> xs[i] == rest[i - 1] && CutAt(pos, xs, i) == CutAt(x.end, rest, i - 1);
    }
  }

  // The tokens from `pos` on begin with the arm `a`; what follows does not continue its value.
  predicate DerivesArm(inp: Input, pos: nat, a: Syn, sl: Switch) {
    a.Ar? && M(inp, pos, a) >= 0 && WF(a, sl) && (!a.sep ==> CanFollowArm(KindAt(inp, M(inp, pos, a))))
  }

  ghost predicate ArmCut(inp: Input, p: nat, sl: Switch, x: Out) {
    && p < x.end <= |inp.toks| && KindAt(inp, p) != Eof && KindAt(inp, p) != RBrace
    && Agrees(inp, p, x, RunArm(inp, p, sl))
    && (forall a :: DerivesArm(inp, p, a, sl) ==> x == Out(true, M(inp, p, a), Ast(inp, p, a)))
    && (!x.ok ==> x == TakeArm(inp, p, sl))
  }

  ghost predicate ArmCuts(inp: Input, pos: nat, sl: Switch, xs: seq<Out>) {
    forall i :: 0 <= i < |xs| ==> ArmCut(inp, CutAt(pos, xs, i), sl, xs[i])
  }

  lemma TurnArm(inp: Input, p: nat, sl: Switch)
    requires p <= |inp.toks| && KindAt(inp, p) != Eof && KindAt(inp, p) != RBrace
    ensures ArmCut(inp, p, sl, TakeArm(inp, p, sl))
  {
    hide TakeArm, RunArm, M, Ast, WF, CanFollowArm;
    CleanArm(inp, p, sl);
    forall a | DerivesArm(inp, p, a, sl)
      ensures TakeArm(inp, p, sl) == Out(true, M(inp, p, a), Ast(inp, p, a))
    {
      CompleteArm(inp, p, a, M(inp, p, a), sl);
    }
  }

  /** The arms of any match. */
  lemma {:induction false} CutArms(inp: Input, pos: nat, sl: Switch) returns (xs: seq<Out>)
    requires pos <= |inp.toks|
    ensures var l := TakeArms(inp, pos, sl);
            && Chained(pos, xs, l) && ArmCuts(inp, pos, sl, xs)
            && (KindAt(inp, l.end) == Eof || KindAt(inp, l.end) == RBrace)
    decreases |inp.toks| - pos
  {
    hide TakeArm, ArmCut, Chained;
    xs := [];
    ChainedNone(pos);
    if KindAt(inp, pos) != Eof && KindAt(inp, pos) != RBrace {
      var x := TakeArm(inp, pos, sl);
      TurnArm(inp, pos, sl);
      var rest := CutArms(inp, x.end, sl);
      ChainedCons(pos, x, rest, TakeArms(inp, x.end, sl));
      xs := [x] + rest;
      assert forall i :: 0 < i < |xs| ==> xs[i] == rest[i - 1] && CutAt(pos, xs, i) == CutAt(x.end, rest, i - 1);
    }
  }

  /////////////////////////// files ///////////////////////////

  /** A file on any tokens: the root holds the documentation and then the trees of the cuts, one for each,
      up to the end of the tokens; of `n` diagnostics each failing cut has one, and only they have any. */
  ghost predicate FileCuts(inp: Input, sl: Switch, xs: seq<Out>, root: Tree, n: nat) {
    var p := DocEnd(inp, 0, FileDocCommentTok);
    && root.Tree? && root.kids == DocTrees(inp, 0, FileDocCommentTok, FileDocComment) + TreesOf(xs)
    && DeclCuts(inp, p, Off, sl, xs) && KindAt(inp, CutAt(p, xs, |xs|)) == Eof
    && Failures(xs) <= n && (Failures(xs) == 0 <==> n == 0)
  }

  // While a file's declarations are read from `p0` on: `xs` so far, with `n` diagnostics.
  ghost predicate FileSoFar(inp: Input, p0: nat, sl: Switch, xs: seq<Out>, l: ListOut, n: nat) {
    Chained(p0, xs, l) && DeclCuts(inp, p0, Off, sl, xs) && Failures(xs) <= n && (l.ok <==> n == 0)
  }

  lemma FileStart(inp: Input, p0: nat, sl: Switch)
    ensures FileSoFar(inp, p0, sl, [], None(p0), 0)
  {
    hide DeclCut;
    ChainedNone(p0);
  }

  lemma FileStep(inp: Input, p0: nat, sl: Switch, xs: seq<Out>, l: ListOut, n: nat, x: Out, n1: nat)
    requires FileSoFar(inp, p0, sl, xs, l, n) && l.end <= |inp.toks| && KindAt(inp, l.end) != Eof
    requires x == TakeDecl(inp, l.end, sl) && n <= n1 && (x.ok <==> n1 == n)
    ensures FileSoFar(inp, p0, sl, xs + [x], ListOut(l.ok && x.ok, x.end, l.trees + [x.tree]), n1)
  {
    hide DeclCut, TakeDecl, Chained;
    TurnDecl(inp, l.end, Off, sl);
    ChainedSnoc(p0, xs, x, l);
    var ys := xs + [x];
    assert ys[..|xs|] == xs;
    forall i | 0 <= i < |ys| ensures DeclCut(inp, CutAt(p0, ys, i), Off, sl, ys[i]) {
      if i < |xs| { assert ys[i] == xs[i] && CutAt(p0, ys, i) == CutAt(p0, xs, i); }
    }
  }

  lemma ChainedSnoc(pos: nat, xs: seq<Out>, x: Out, l: ListOut)
    requires Chained(pos, xs, l)
    ensures Chained(pos, xs + [x], ListOut(l.ok && x.ok, x.end, l.trees + [x.tree]))
    ensures CutAt(pos, xs + [x], |xs|) == l.end
  {
    var ys := xs + [x];
    assert AllOk(ys) <==> AllOk(xs) && x.ok by {
      assert forall i :: 0 <= i < |xs| ==> ys[i] == xs[i];
      assert ys[|xs|] == x;
    }
    assert TreesOf(ys) == TreesOf(xs) + [x.tree];
  }

  lemma FileEnd(inp: Input, sl: Switch, xs: seq<Out>, l: ListOut, n: nat, root: Tree)
    requires FileSoFar(inp, DocEnd(inp, 0, FileDocCommentTok), sl, xs, l, n) && KindAt(inp, l.end) == Eof
    requires root.Tree? && root.kids == DocTrees(inp, 0, FileDocCommentTok, FileDocComment) + l.trees
    ensures FileCuts(inp, sl, xs, root, n)
  {
    hide DeclCuts, DocEnd, DocTrees;
    FailuresAre(xs);
  }

  /////////////////////////// where recovery stops ///////////////////////////

  predicate OpensDecl(k: Kind) { IsPlainStart(k) || k == KwFn || k == KwUnsafe }

  /** The end of a `let`: behind a failed part it is behind the first semicolon, or in front of the first
      closing brace or the end; otherwise behind a semicolon or where it is missing. */
  lemma StopsLet(inp: Input, pos: nat, failed: bool)
    requires pos <= |inp.toks|
    ensures var z := LetEnd(inp, pos, failed);
            var q := if z > pos && KindAt(inp, z - 1) == Semi then z - 1 else z;
            && pos <= z <= |inp.toks|
            && (failed ==> (z == q ==> KindAt(inp, z) == RBrace || KindAt(inp, z) == Eof)
                           && forall i :: pos <= i < q ==>
                                KindAt(inp, i) != Semi && KindAt(inp, i) != RBrace && KindAt(inp, i) != Eof)
            && (!failed ==> z == if KindAt(inp, pos) == Semi then pos + 1 else pos)
  {
  }

  /** Where no declaration opens behind documentation and `pub`, the node is an error node over the first
      token, and the next cut is behind that token at the first point of recovery. */
  lemma StopsNoDecl(inp: Input, pos: nat, sl: Switch)
    requires pos <= |inp.toks|
    requires var q := DocEnd(inp, pos, DocCommentTok); !OpensDecl(KindAt(inp, Past(inp, q, KwPub)))
    ensures var p := Past(inp, DocEnd(inp, pos, DocCommentTok), KwPub);
            var x := TakeDecl(inp, pos, sl);
            && !x.ok && x.tree == Leaf(Error, TokenAt(inp, p).span, Zero)
            && (if KindAt(inp, p) == Eof then x.end == p else p < x.end && IsSyncPoint(inp, x.end))
            && forall i :: p < i < x.end ==> !IsSyncPoint(inp, i)
  {
    hide TakeFn, DocEnd, DocTrees;
    var q := DocEnd(inp, pos, DocCommentTok);
    DeclTaken(inp, pos, sl, q, Past(inp, q, KwPub), DocTrees(inp, pos, DocCommentTok, DocComment),
              if KindAt(inp, q) == KwPub then PubFlag else 0);
  }

  /** The same for a token that opens no statement. */
  lemma StopsNoStmt(inp: Input, pos: nat, sl: Switch)
    requires pos <= |inp.toks| && !StartsStmt(KindAt(inp, pos)) && !IsExprStmtStart(KindAt(inp, pos))
    ensures var x := TakeStmt(inp, pos, sl);
            && !x.ok && x.tree == Leaf(Error, TokenAt(inp, pos).span, Zero)
            && (if KindAt(inp, pos) == Eof then x.end == pos else pos < x.end && IsSyncPoint(inp, x.end))
            && forall i :: pos < i < x.end ==> !IsSyncPoint(inp, i)
  {
  }

  /** A list element that fails is skipped to the first comma, closing token or end behind it. */
  lemma StopsElem(inp: Input, pos: nat, e: Elem, sl: Switch)
    requires pos <= |inp.toks| && !TakeElem(inp, pos, e, sl).ok
    ensures var x, y := TakeOne(inp, pos, e, sl), TakeElem(inp, pos, e, sl);
            && !x.ok && y.tree == x.tree && x.end <= y.end
            && (KindAt(inp, y.end) == Comma || KindAt(inp, y.end) == CloseOf(e) || KindAt(inp, y.end) == Eof)
            && forall i :: x.end <= i < y.end ==>
                           KindAt(inp, i) != Comma && KindAt(inp, i) != CloseOf(e) && KindAt(inp, i) != Eof
  {
    hide TakeOne;
  }

  /** A method that fails is skipped to the first `fn`, `unsafe`, closing brace or end behind it. */
  lemma StopsMethod(inp: Input, pos: nat, body: Switch, sl: Switch)
    requires pos <= |inp.toks| && KindAt(inp, pos) != RBrace && KindAt(inp, pos) != Eof
    requires !TakeMethod(inp, pos, body, sl).ok
    ensures var q := DocEnd(inp, pos, DocCommentTok);
            var x := TakeFn(inp, q, body, 0, DocTrees(inp, pos, DocCommentTok, DocComment), sl);
            var y := TakeMethod(inp, pos, body, sl);
            && !x.ok && y.tree == x.tree && x.end <= y.end
            && (var k := KindAt(inp, y.end); k == RBrace || k == KwFn || k == KwUnsafe || k == Eof)
            && forall i :: x.end <= i < y.end ==>
                           KindAt(inp, i) != RBrace && KindAt(inp, i) != KwFn && KindAt(inp, i) != KwUnsafe
                           && KindAt(inp, i) != Eof
  {
    hide TakeFn, DocEnd, DocTrees;
    DocsEnd(inp, pos, DocCommentTok);
  }

  /** `let x; mod a;` at the top: the first is an error node, the second is read. */
  lemma LetThenMod(inp: Input)
    requires |inp.toks| == 7
    requires KindAt(inp, 0) == KwLet && KindAt(inp, 1) == Identifier && KindAt(inp, 2) == Semi
    requires KindAt(inp, 3) == KwMod && KindAt(inp, 4) == Identifier && KindAt(inp, 5) == Semi && KindAt(inp, 6) == Eof
    ensures var x := TakeFile(inp, On);
            && !x.ok && x.end == 6 && |x.tree.kids| == 2
            && x.tree.kids[0] == Leaf(Error, TokenAt(inp, 0).span, Zero)
            && x.tree.kids[1] == Tree(ModDeclFile, Span(StartOf(inp, 3), EndOf(inp, 5)), Name(TokText(inp, 4)), 0, [])
  {
    hide TextOf, TakeDecl, DocEnd, DocTrees;
    DocStop(inp, 0, DocCommentTok, DocComment);
    DocStop(inp, 0, FileDocCommentTok, FileDocComment);
    StopsNoDecl(inp, 0, On);
    ModFileTaken(inp, 3);
    var x, y := TakeDecl(inp, 0, On), TakeDecl(inp, 3, On);
    assert IsSyncPoint(inp, 3);
    assert !IsSyncPoint(inp, 1) && !IsSyncPoint(inp, 2);
    assert x.end == 3;
    assert TakeDecls(inp, 6, Off, On) == None(6);
    assert TakeDecls(inp, 3, Off, On) == Onto(OneOut(y), None(6));
    assert TakeDecls(inp, 0, Off, On) == Onto(OneOut(x), Onto(OneOut(y), None(6)));
  }

  lemma ModFileTaken(inp: Input, p: nat)
    requires p + 3 <= |inp.toks| && KindAt(inp, p) == KwMod && KindAt(inp, p + 1) == Identifier
             && KindAt(inp, p + 2) == Semi
    ensures TakeDecl(inp, p, On)
            == Out(true, p + 3,
                   Tree(ModDeclFile, Span(StartOf(inp, p), EndOf(inp, p + 2)), Name(TokText(inp, p + 1)), 0, []))
  {
    hide TextOf, DocEnd, DocTrees;
    DocStop(inp, p, DocCommentTok, DocComment);
    DeclTaken(inp, p, On, p, p, [], 0);
    assert TakeDecl(inp, p, On) == TakePlain(inp, p, 0, [], On) == TakeMod(inp, p, 0, [], On);
  }
}
