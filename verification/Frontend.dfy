/** One file from its text to its tree, as the driver does it: lex, load the token stream, parse. */
module Frontend {
  import opened Tokens
  import opened Trees
  import opened Lexing
  import opened LexerLoops
  import opened LexerLaws
  import opened TokenStreams
  import opened Interning
  import opened Pool
  import opened Geometry
  import opened Parsing
  import opened ParserStates
  import opened Declarations
  import opened DeclGrammar
  import opened DeclTheorems
  import opened Recovery
  import opened CleanRuns
  import opened Cuts
  import opened Layouts
  import opened FileTexts
  import Drivers

  lemma {:induction false} NoErrorsClean(items: seq<Lexing.Item>)
    ensures ErrorsOf(items) == [] <==> IsClean(items)
    decreases |items|
  {
    if items != [] {
      NoErrorsClean(items[1..]);
      assert forall k :: 0 < k < |items| ==> items[k] == items[1..][k - 1];
    }
  }

  // The tokens of a text spell a file, and the tree is the one it stands for.
  ghost predicate IsFile(text: string) { exists f, end :: DerivesFile(InputOf(text), f, end, On) }

  ghost predicate Spelled(text: string, root: Tree) {
    exists f, end :: DerivesFile(InputOf(text), f, end, On) && root == AstFile(InputOf(text), f)
  }

  // A tree that recovery made of a text, with `n` diagnostics.
  ghost predicate Recovered(text: string, root: Tree, n: nat) {
    root == TakeFile(InputOf(text), On).tree && exists xs :: FileCuts(InputOf(text), On, xs, root, n)
  }

  // A clean parse, and what it gives back.
  lemma CleanRetold(text: string)
    ensures ReadFile(InputOf(text), On).Read? <==> IsFile(text)
    ensures var r := ReadFile(InputOf(text), On);
            r.Read? ==> Spelled(text, r.tree) && ErrorsOf(Lex(text, 0, |text|)) == [] && Retells(InputOf(text), r.tree)
  {
    hide ReadFile, Lex, Stream, ErrorsOf, DerivesFile, AstFile, Retells;
    var inp := InputOf(text);
    var r := ReadFile(inp, On);
    ReadsIffDerives(inp, On);
    if r.Read? {
      FileIffDerives(inp, r.end, r.tree, On);
      var f :| DerivesFile(inp, f, r.end, On) && r.tree == AstFile(inp, f);
      FileRetold(text, f, r.end);
    }
  }

  /** Any text is lexed and parsed to the end. There is no diagnostic exactly when the tokens spell a
      well-formed file; then the lexer found no error either, the tree is the one the file stands for, it
      has no error node, nests as the text does, and printed gives back the text of every token. With
      diagnostics or without, the tree is the one that recovery makes of the tokens, cut by cut. */
  method ParseText(text: string, interner: StringInterner)
    returns (pool: NodePool, root: NodeId, lexErrors: seq<Lexing.Item>, errors: seq<Diag>)
    requires interner.Valid()
    modifies interner
    ensures interner.Valid() && Extends(old(interner.strings), interner.strings)
    ensures fresh(pool) && pool.Valid() && NodesOk(pool.nodes, pool.trees, interner.strings)
    ensures 0 < root < |pool.trees| && pool.trees[root].Tree? && pool.trees[root].kind == SourceFile
    ensures lexErrors == ErrorsOf(Lex(text, 0, |text|))
    ensures errors == [] <==> IsFile(text)
    ensures errors == [] ==> Spelled(text, pool.trees[root])
    ensures errors == [] ==> forall i :: 0 < i < |pool.trees| ==> pool.trees[i].Tree? && pool.trees[i].kind != Error
    ensures errors == [] ==> lexErrors == [] && Nested(pool.trees[root])
    ensures errors == [] ==> Retells(InputOf(text), pool.trees[root])
    ensures Recovered(text, pool.trees[root], |errors|)
  {
    hide ReadFile, Lex, Stream, ErrorsOf, IsClean, Nested, InOrder, NodePool.Valid, StringInterner.Valid, NodesOk,
         Owned, ErrorNodes, DerivesFile, Retells, TakeFile, FileCuts, IsFile, Spelled;
    var items := LexBuffer(text);
    var inp;
    inp, lexErrors := Load(items, text);
    if lexErrors == [] {
      NoErrorsClean(items);
      CleanLexInOrder(text);
    }
    CleanRetold(text);
    pool, root, errors := Parser.Parse(inp, interner);
  }

  /////////////////////////// what the driver looks for in a tree ///////////////////////////

  // The top-level declarations as the module search sees them.
  function ItemsOf(kids: seq<Tree>): seq<Drivers.Item> {
    seq(|kids|, j requires 0 <= j < |kids| => ItemOfTree(kids[j]))
  }

  function ItemOfTree(t: Tree): Drivers.Item {
    if IsModFile(t) && t.payload.Name? then Drivers.ModFile(t.payload.text) else Drivers.OtherDecl
  }

  predicate IsModFile(t: Tree) { t.Tree? && t.kind == ModDeclFile }

  lemma {:induction false} NoNulls(l: Items, kids: seq<Tree>, j: nat)
    requires Matches(l, kids) && j < |kids|
    requires l == Two(Many(NFileDoc), Many(NDecl)) || l == Only(Many(NDecl)) || l == End
    ensures kids[j].Tree?
    decreases l, |kids|
  {
    if l.Then? {
      if Of(l.hd.s, kids[0]) && Matches(l, kids[1..]) {
        if j > 0 { NoNulls(l, kids[1..], j - 1); }
      } else {
        NoNulls(l.tl, kids, j);
      }
    }
  }

  // The children that the sixteen bits of the stored count let through.
  function Kept(kids: seq<Tree>): seq<Tree> { kids[..|kids| % 0x1_0000] }

  // What the walk sees of a parsed file: the tree, and the payload words of the counted children.
  datatype Parsed = Parsed(tree: Tree, words: seq<nat>)

  function Word(pool: NodePool, c: NodeId): nat
    reads pool
  {
    if 0 <= c < |pool.nodes| then pool.nodes[c].payload else 0
  }

  ghost function ParsedAt(pool: NodePool, root: NodeId): Parsed
    reads pool
    requires pool.Valid() && 0 < root < |pool.nodes|
  {
    var children := pool.ChildrenOf(root);
    Parsed(TreeOf(pool.trees, root),
           seq(|children|, j requires 0 <= j < |children| reads pool => Word(pool, children[j])))
  }

  // The ids of the `mod` names among the counted children have thirty bits.
  predicate NamesFit(file: Parsed) {
    file.tree.Tree? ==>
      forall j :: 0 <= j < |file.words| && j < |file.tree.kids| && IsModFile(file.tree.kids[j]) ==>
                  file.words[j] < NameLimit
  }

  // What the walk makes of a child. It sees every `mod name;`, and the name as it stands in the text
  // exactly when the name's id has thirty bits. (No name in a file without errors is empty.)
  predicate WalkedChild(kid: Tree, word: nat, item: Drivers.Item) {
    && (item.ModFile? <==> IsModFile(kid))
    && (IsModFile(kid) ==> kid.payload.Name?)
    && (IsModFile(kid) && word < NameLimit ==> item == ItemOfTree(kid))
    && (IsModFile(kid) && word >= NameLimit && kid.payload.text != "" ==> item != ItemOfTree(kid))
  }

  // What the walk makes of the counted children of a file's root.
  predicate Walked(file: Parsed, items: seq<Drivers.Item>) {
    && file.tree.Tree? && file.tree.kind == SourceFile
    && |items| == |file.words| == |Kept(file.tree.kids)|
    && forall j :: 0 <= j < |items| ==> WalkedChild(file.tree.kids[j], file.words[j], items[j])
  }

  lemma WalkedFits(file: Parsed, items: seq<Drivers.Item>)
    requires Walked(file, items) && NamesFit(file)
    ensures items == ItemsOf(Kept(file.tree.kids))
  {
    forall j | 0 <= j < |items| ensures items[j] == ItemOfTree(file.tree.kids[j]) {
      assert WalkedChild(file.tree.kids[j], file.words[j], items[j]);
    }
  }

  // What the pool's arrays say about a file's `j`-th declaration.
  lemma ChildRead(pool: NodePool, interner: StringInterner, root: NodeId, j: nat)
    requires pool.Valid() && interner.Valid() && NodesOk(pool.nodes, pool.trees, interner.strings)
    requires 0 < root < |pool.trees| && pool.trees[root].Tree? && pool.trees[root].kind == SourceFile
    requires |pool.nodes| == |pool.trees| && j < |pool.ChildrenOf(root)|
    ensures j < |pool.trees[root].kids|
    ensures var c := pool.ChildrenOf(root)[j];
            var t := pool.trees[root].kids[j];
            && 0 < c < |pool.nodes| && t.Tree? && pool.nodes[c].kind == t.kind
            && (t.kind == ModDeclFile ==>
                t.payload.Name? && pool.nodes[c].payload < |interner.strings|
                && interner.strings[pool.nodes[c].payload] == t.payload.text)
  {
    hide NodePool.Valid, StringInterner.Valid;
    Sizes(pool);
    assert NodeOk(pool.nodes[root].payload, pool.trees[root], interner.strings);
    NoNulls(Layout(SourceFile), pool.trees[root].kids, j);
    var c := pool.ChildrenOf(root)[j];
    assert TreeOf(pool.trees, c) == pool.trees[root].kids[j];
    assert NodeOk(pool.nodes[c].payload, pool.trees[c], interner.strings);
  }

  /** The loop over the children of a file's root finds its `mod name;` declarations, of a file with
      errors as well. Of the children it sees those that the stored count lets through, which are all of
      them below 65536. */
  method ListMods(pool: NodePool, interner: StringInterner, root: NodeId) returns (items: seq<Drivers.Item>)
    requires pool.Valid() && interner.Valid() && NodesOk(pool.nodes, pool.trees, interner.strings)
    requires 0 < root < |pool.trees| && pool.trees[root].Tree? && pool.trees[root].kind == SourceFile
    ensures |pool.nodes| == |pool.trees| && Walked(ParsedAt(pool, root), items)
    ensures NamesFit(ParsedAt(pool, root)) ==> items == ItemsOf(Kept(pool.trees[root].kids))
  {
    hide NodePool.Valid, StringInterner.Valid, NodesOk, WalkedChild;
    Sizes(pool);
    ghost var file := ParsedAt(pool, root);
    var children := pool.ChildrenOf(root);
    items := [];
    for j := 0 to |children|
      invariant |items| == j
      invariant forall k :: 0 <= k < j ==> WalkedChild(file.tree.kids[k], file.words[k], items[k])
    {
      ChildRead(pool, interner, root, j);
      var item := Drivers.OtherDecl;
      if pool.KindOf(children[j]) == ModDeclFile {
        item := Drivers.ModFile(interner.Get(PayloadStr(pool.nodes[children[j]].payload)));
      }
      ItemRead(interner, file.tree.kids[j], file.words[j], item);
      items := items + [item];
    }
    if NamesFit(file) { WalkedFits(file, items); }
  }

  // A word of more than thirty bits gives the name of another id.
  lemma ItemRead(interner: StringInterner, kid: Tree, word: nat, item: Drivers.Item)
    requires interner.Valid() && kid.Tree?
    requires kid.kind == ModDeclFile ==>
             kid.payload.Name? && word < |interner.strings| && interner.strings[word] == kid.payload.text
    requires item == if kid.kind == ModDeclFile
                     then Drivers.ModFile(interner.strings[PayloadStr(word)]) else Drivers.OtherDecl
    ensures WalkedChild(kid, word, item)
  {
    if kid.kind == ModDeclFile && word >= NameLimit && PayloadStr(word) > 0 {
      Canonical(interner.table, interner.strings, word, PayloadStr(word));
    }
  }

  lemma IdsFit(pool: NodePool, interner: StringInterner, root: NodeId)
    requires pool.Valid() && interner.Valid() && NodesOk(pool.nodes, pool.trees, interner.strings)
    requires 0 < root < |pool.trees| && pool.trees[root].Tree? && pool.trees[root].kind == SourceFile
    requires |pool.nodes| == |pool.trees| && |interner.strings| <= NameLimit
    ensures NamesFit(ParsedAt(pool, root))
  {
    hide NodePool.Valid, StringInterner.Valid, NodesOk;
    forall j | 0 <= j < |pool.ChildrenOf(root)| && IsModFile(pool.trees[root].kids[j])
      ensures Word(pool, pool.ChildrenOf(root)[j]) < NameLimit
    {
      ChildRead(pool, interner, root, j);
    }
  }

  // The declarations of a file as the module search sees them, whatever its tokens are.
  function ItemsIn(text: string): seq<Drivers.Item> {
    var t := TakeFile(InputOf(text), On).tree;
    if t.Tree? then ItemsOf(Kept(t.kids)) else []
  }

  // The tree that a text was parsed to is the one its tokens give.
  predicate FromText(text: string, file: Parsed) { file.tree == TakeFile(InputOf(text), On).tree }

  /** Where the text reads as a file, the declarations are the ones it spells. */
  lemma ItemsSpelled(text: string, f: FileSyn, end: nat)
    requires DerivesFile(InputOf(text), f, end, On)
    ensures ItemsIn(text) == ItemsOf(Kept(AstFile(InputOf(text), f).kids))
  {
    hide ReadFile, InputOf, TakeDecls, ItemsOf, Kept, DerivesFile, MFile, AstDecls, AstDocs;
    CleanFile(InputOf(text), On);
    FileIffDerives(InputOf(text), end, AstFile(InputOf(text), f), On);
  }

  /** Parsing a text and looking through its root, as the driver does with each file it reaches. The
      declarations are those of the tree that recovery makes of the text, with errors or without. */
  method LoadItems(text: string, interner: StringInterner)
    returns (pool: NodePool, root: NodeId, items: seq<Drivers.Item>, errors: seq<Diag>)
    requires interner.Valid()
    modifies interner
    ensures interner.Valid() && Extends(old(interner.strings), interner.strings)
    ensures errors == [] <==> IsFile(text)
    ensures fresh(pool) && pool.Valid() && 0 < root < |pool.nodes|
    ensures FromText(text, ParsedAt(pool, root)) && Walked(ParsedAt(pool, root), items)
    ensures |interner.strings| <= NameLimit ==> NamesFit(ParsedAt(pool, root))
    ensures NamesFit(ParsedAt(pool, root)) ==> items == ItemsIn(text)
  {
    hide ReadFile, InputOf, Nested, NodePool.Valid, StringInterner.Valid, NodesOk, DerivesFile, NamesFit, ItemsOf,
         Kept, WalkedChild, TakeFile, FileCuts, Retells;
    var lexErrors;
    pool, root, lexErrors, errors := ParseText(text, interner);
    Sizes(pool);
    if |interner.strings| <= NameLimit { IdsFit(pool, interner, root); }
    items := ListMods(pool, interner, root);
  }

  /////////////////////////// the search over texts ///////////////////////////

  // What lies at a path: a text, or something that cannot be opened as one.
  datatype Text = Folder | File(text: string)

  function EntryOf(t: Text): Drivers.Entry { if t.Folder? then Drivers.Unreadable else Drivers.Source(ItemsIn(t.text)) }

  // The files of the search, with the declarations that their texts give.
  function FilesOf(texts: map<Drivers.Path, Text>): Drivers.Files { map p | p in texts :: EntryOf(texts[p]) }

  // What the search has of a path: nothing of a folder, and of a file what its text became.
  predicate LoadedFrom(t: Text, e: Drivers.Entry, file: Parsed) {
    match t
    case Folder => e == Drivers.Unreadable
    case File(text) => e.Source? && FromText(text, file) && Walked(file, e.items)
  }

  lemma EntryRead(t: Text, e: Drivers.Entry, file: Parsed)
    requires LoadedFrom(t, e, file) && NamesFit(file)
    ensures e == EntryOf(t)
  {
    hide TakeFile, InputOf, NamesFit, ItemsOf, Kept, WalkedChild;
    if t.File? { WalkedFits(file, e.items); }
  }

  // In every file that the search can come to the `mod` names have ids of thirty bits.
  ghost predicate AllNamed(texts: map<Drivers.Path, Text>, files: map<Drivers.Path, Parsed>, root: Drivers.Path)
    requires texts.Keys == files.Keys
  {
    forall p :: p in texts && Drivers.Reaches(FilesOf(texts), root, p) ==> NamesFit(files[p])
  }

  // Files that cannot be reached do not matter.
  lemma SpelledBelow(texts: map<Drivers.Path, Text>, fs: Drivers.Files, files: map<Drivers.Path, Parsed>,
                     root: Drivers.Path)
    requires LoadedAll(texts, fs, files) && AllNamed(texts, files, root)
    ensures Drivers.Sound(fs, root) <==> Drivers.Sound(FilesOf(texts), root)
    ensures forall q :: Drivers.Reaches(fs, root, q) <==> Drivers.Reaches(FilesOf(texts), root, q)
    ensures forall q :: q in texts && Drivers.Reaches(fs, root, q) ==> fs[q] == EntryOf(texts[q])
  {
    hide EntryOf, NamesFit, LoadedFrom, Drivers.Sound, Drivers.Reaches;
    forall p | p in texts && Drivers.Reaches(FilesOf(texts), root, p) ensures fs[p] == EntryOf(texts[p]) {
      EntryRead(texts[p], fs[p], files[p]);
    }
    Drivers.OnlyReachable(FilesOf(texts), fs, root);
  }

  // What the search has of every path, from its text.
  predicate LoadedAll(texts: map<Drivers.Path, Text>, fs: Drivers.Files, files: map<Drivers.Path, Parsed>) {
    && fs.Keys == files.Keys == texts.Keys
    && forall p :: p in texts ==> LoadedFrom(texts[p], fs[p], files[p])
  }

  predicate AllFit(files: map<Drivers.Path, Parsed>) { forall p :: p in files ==> NamesFit(files[p]) }

  /** Every text is parsed, and the search gets what the walk makes of its root. */
  method LoadTexts(texts: map<Drivers.Path, Text>, interner: StringInterner)
    returns (fs: Drivers.Files, ghost files: map<Drivers.Path, Parsed>)
    requires interner.Valid()
    modifies interner
    ensures interner.Valid() && LoadedAll(texts, fs, files)
    ensures |interner.strings| <= NameLimit ==> AllFit(files)
  {
    hide StringInterner.Valid, NodePool.Valid, Walked, NamesFit, FromText, ParsedAt, ReadFile, InputOf, ItemsIn;
    fs, files := map[], map[];
    var todo := texts.Keys;
    while todo != {}
      invariant interner.Valid() && todo <= texts.Keys && fs.Keys == files.Keys == texts.Keys - todo
      invariant forall p :: p in files ==> LoadedFrom(texts[p], fs[p], files[p])
      invariant |interner.strings| <= NameLimit ==> AllFit(files)
      decreases |todo|
    {
      var p :| p in todo;
      todo := todo - {p};
      if texts[p].Folder? {
        NothingFits();
        fs, files := fs[p := Drivers.Unreadable], files[p := Nothing];
      } else {
        var pool, root, items, errors := LoadItems(texts[p].text, interner);
        fs, files := fs[p := Drivers.Source(items)], files[p := ParsedAt(pool, root)];
      }
    }
  }

  // What becomes of a folder.
  const Nothing: Parsed := Parsed(NullTree, [])

  lemma NothingFits()
    ensures NamesFit(Nothing)
  {
  }

  /** The whole front end on texts: every file is parsed, then the search runs over what the parser
      found in each, with errors or without. The status is 0 exactly when what it found is sound below
      the root; and what it found in a text is what the text gives, so that with fewer than 2^30 strings
      status and results are those of the files the texts give, malformed or not. */
  method CompileTexts(texts: map<Drivers.Path, Text>, root: Drivers.Path, interner: StringInterner)
    returns (rc: int, results: map<Drivers.Path, Drivers.Entry>,
             ghost fs: Drivers.Files, ghost files: map<Drivers.Path, Parsed>)
    requires interner.Valid()
    modifies interner
    ensures LoadedAll(texts, fs, files)
    ensures forall p :: p in texts && NamesFit(files[p]) ==> fs[p] == EntryOf(texts[p])
    ensures |interner.strings| <= NameLimit ==> AllFit(files)
    ensures rc == 0 || rc == 1
    ensures rc == 0 <==> Drivers.Sound(fs, root)
    ensures rc == 0 ==> forall p :: p in results <==> Drivers.Reaches(fs, root, p)
    ensures forall p :: p in results ==>
            p in fs && results[p] == fs[p] && Drivers.Reaches(fs, root, p) && Drivers.Sound(fs, p)
    ensures AllNamed(texts, files, root) ==>
            && (rc == 0 <==> Drivers.Sound(FilesOf(texts), root))
            && (rc == 0 ==> forall p :: p in results <==> Drivers.Reaches(FilesOf(texts), root, p))
            && (forall p :: p in results ==> results[p] == EntryOf(texts[p]))
  {
    hide EntryOf, FilesOf, AllNamed, NamesFit, LoadedFrom, Drivers.Sound, Drivers.Reaches, StringInterner.Valid;
    var found;
    found, files := LoadTexts(texts, interner);
    fs := found;
    forall p | p in texts && NamesFit(files[p]) ensures fs[p] == EntryOf(texts[p]) {
      EntryRead(texts[p], fs[p], files[p]);
    }
    ghost var order, parsed;
    rc, results, order, parsed := Drivers.CompilePack(found, root);
    if AllNamed(texts, files, root) { SpelledBelow(texts, fs, files, root); }
  }
}
