// Module discovery (lib/Driver/Driver.cpp): a depth-first search that parses a
// root file, then every file its `mod name;` declarations lead to. A file that
// cannot be opened, a `mod` without a file, or a circular chain of `mod`
// declarations ends the search with status 1; errors inside a file do not.
module Drivers {

  // A path is its list of components; the empty list is never a file.
  type Path = seq<string>

  // What the search sees of a parsed file: the top-level declarations in
  // order, where only a `mod name;` matters.
  datatype Item = ModFile(name: string) | OtherDecl

  // What exists in the file system. Something that exists but cannot be
  // opened as a file (a directory, say) is Unreadable.
  datatype Entry = Unreadable | Source(items: seq<Item>)

  type Files = map<Path, Entry>

  datatype Option<T> = None | Some(value: T)

  function Dir(p: Path): Path {
    if p == [] then [] else p[..|p| - 1]
  }

  // name.et beside the file, else name/mod.et.
  function Resolve(fs: Files, dir: Path, name: string): Option<Path> {
    if dir + [name + ".et"] in fs then Some(dir + [name + ".et"])
    else if dir + [name, "mod.et"] in fs then Some(dir + [name, "mod.et"])
    else None
  }

  predicate Loads(fs: Files, p: Path) {
    p in fs && fs[p].Source?
  }

  function Items(fs: Files, p: Path): seq<Item> {
    if Loads(fs, p) then fs[p].items else []
  }

  // The k-th item of p is a `mod` declaration.
  predicate IsMod(fs: Files, p: Path, k: int) {
    0 <= k < |Items(fs, p)| && Items(fs, p)[k].ModFile?
  }

  function Target(fs: Files, p: Path, k: int): Option<Path>
    requires IsMod(fs, p, k)
  {
    Resolve(fs, Dir(p), Items(fs, p)[k].name)
  }

  // A `mod` declaration of p leads to q.
  ghost predicate Edge(fs: Files, p: Path, q: Path) {
    exists k :: IsMod(fs, p, k) && Target(fs, p, k) == Some(q)
  }

  // p cannot be opened, or one of its `mod` declarations has no file.
  ghost predicate Broken(fs: Files, p: Path) {
    !Loads(fs, p) || exists k :: IsMod(fs, p, k) && Target(fs, p, k) == None
  }

  // A chain of files, each led to by the one before it.
  ghost predicate Trail(fs: Files, t: seq<Path>) {
    t != [] && forall i :: 0 < i < |t| ==> Edge(fs, t[i - 1], t[i])
  }

  ghost predicate Reaches(fs: Files, p: Path, q: Path) {
    exists t :: Trail(fs, t) && t[0] == p && t[|t| - 1] == q
  }

  ghost predicate Circular(t: seq<Path>)
    requires t != []
  {
    t[|t| - 1] in t[..|t| - 1]
  }

  // Every file reachable from root opens, every `mod` in it has a file, and
  // no chain of `mod` declarations from root comes back to a file on it.
  ghost predicate Sound(fs: Files, root: Path) {
    forall t :: Trail(fs, t) && t[0] == root ==> !Broken(fs, t[|t| - 1]) && !Circular(t)
  }

  // The search fails below p, given the files it has open already: some chain
  // from p ends in a broken file, in an open file or in a file on the chain.
  ghost predicate FailsBelow(fs: Files, p: Path, open: set<Path>, t: seq<Path>) {
    && Trail(fs, t) && t[0] == p
    && (Broken(fs, t[|t| - 1]) || t[|t| - 1] in open || Circular(t))
  }

  ghost predicate Fails(fs: Files, p: Path, open: set<Path>) {
    exists t :: FailsBelow(fs, p, open, t)
  }

  // Prepending p to a failing chain of one of its children.
  lemma FailsThrough(fs: Files, p: Path, q: Path, open: set<Path>)
    requires Edge(fs, p, q)
    requires Fails(fs, q, open + {p})
    ensures Fails(fs, p, open)
  {
    var t :| FailsBelow(fs, q, open + {p}, t);
    var u := [p] + t;
    assert u[|u| - 1] == t[|t| - 1];
    assert u[..|u| - 1] == [p] + t[..|t| - 1];
    forall i | 0 < i < |u| ensures Edge(fs, u[i - 1], u[i]) {
      if i > 1 { assert Edge(fs, t[i - 2], t[i - 1]); }
    }
    assert FailsBelow(fs, p, open, u);
  }

  lemma FailsAt(fs: Files, p: Path, open: set<Path>)
    requires Broken(fs, p) || p in open
    ensures Fails(fs, p, open)
  {
    assert FailsBelow(fs, p, open, [p]);
  }

  lemma FailsUnloaded(fs: Files, p: Path, open: set<Path>)
    requires !Loads(fs, p)
    ensures Fails(fs, p, open)
  {
    FailsAt(fs, p, open);
  }

  lemma FailsUnresolved(fs: Files, p: Path, open: set<Path>, k: nat)
    requires IsMod(fs, p, k) && Target(fs, p, k) == None
    ensures Fails(fs, p, open)
  {
    FailsAt(fs, p, open);
  }

  // ---- The order in which results are stored ----

  ghost predicate Distinct<T(!new)>(s: seq<T>) {
    forall i, j :: 0 <= i < j < |s| ==> s[i] != s[j]
  }

  // Every stored file is sound at its own level, and its children were stored
  // before it.
  ghost predicate ChildrenFirst(fs: Files, order: seq<Path>) {
    forall i :: 0 <= i < |order| ==> Settled(fs, order[i], order[..i])
  }

  ghost predicate Settled(fs: Files, p: Path, done: seq<Path>) {
    !Broken(fs, p) && forall q :: Edge(fs, p, q) ==> q in done
  }

  lemma ChildrenFirstGrows(fs: Files, order: seq<Path>, p: Path)
    requires ChildrenFirst(fs, order) && Settled(fs, p, order)
    ensures ChildrenFirst(fs, order + [p])
  {
    var next := order + [p];
    forall i | 0 <= i < |next| ensures Settled(fs, next[i], next[..i]) {
      if i < |order| {
        assert next[..i] == order[..i];
        assert Settled(fs, order[i], order[..i]);
      } else {
        assert next[..i] == order;
      }
    }
  }

  // Along a chain that starts in the stored files, storage positions descend.
  lemma {:induction false} TrailDescends(fs: Files, order: seq<Path>, t: seq<Path>, at: nat)
    returns (last: nat)
    requires ChildrenFirst(fs, order) && Distinct(order)
    requires Trail(fs, t) && at < |order| && t[0] == order[at]
    ensures last <= at && order[last] == t[|t| - 1]
    ensures !Broken(fs, t[|t| - 1])
    ensures t[|t| - 1] !in t[..|t| - 1]
    ensures |t| > 1 ==> last < at
    decreases |t|
  {
    assert Settled(fs, order[at], order[..at]);
    if |t| == 1 {
      last := at;
    } else {
      assert Edge(fs, t[0], t[1]);
      var next :| 0 <= next < at && order[next] == t[1];
      var rest := t[1..];
      assert Trail(fs, rest) by {
        forall i | 0 < i < |rest| ensures Edge(fs, rest[i - 1], rest[i]) {
          assert Edge(fs, t[i], t[i + 1]);
        }
      }
      last := TrailDescends(fs, order, rest, next);
      assert t[..|t| - 1] == [t[0]] + rest[..|rest| - 1];
    }
  }

  // Files stored children first are sound and closed under reachability.
  lemma ChildrenFirstSound(fs: Files, order: seq<Path>, p: Path)
    requires ChildrenFirst(fs, order) && Distinct(order) && p in order
    ensures Sound(fs, p)
    ensures forall q :: Reaches(fs, p, q) ==> q in order
  {
    var at :| 0 <= at < |order| && order[at] == p;
    forall t | Trail(fs, t) && t[0] == p
      ensures !Broken(fs, t[|t| - 1]) && !Circular(t) && t[|t| - 1] in order
    {
      var last := TrailDescends(fs, order, t, at);
    }
  }

  lemma SoundOrFails(fs: Files, p: Path)
    ensures Sound(fs, p) <==> !Fails(fs, p, {})
  {
    if Fails(fs, p, {}) {
      var t :| FailsBelow(fs, p, {}, t);
      assert Trail(fs, t) && t[0] == p;
    }
    forall t | Trail(fs, t) && t[0] == p && (Broken(fs, t[|t| - 1]) || Circular(t))
      ensures Fails(fs, p, {})
    {
      assert FailsBelow(fs, p, {}, t);
    }
  }

  lemma ReachesItself(fs: Files, p: Path)
    ensures Reaches(fs, p, p)
  {
    assert Trail(fs, [p]);
  }

  lemma ReachesThrough(fs: Files, p: Path, q: Path, r: Path)
    requires Edge(fs, p, q) && Reaches(fs, q, r)
    ensures Reaches(fs, p, r)
  {
    var t :| Trail(fs, t) && t[0] == q && t[|t| - 1] == r;
    var u := [p] + t;
    forall i | 0 < i < |u| ensures Edge(fs, u[i - 1], u[i]) {
      if i > 1 { assert Edge(fs, t[i - 2], t[i - 1]); }
    }
    assert Trail(fs, u);
  }

  // ---- What the answer depends on ----

  // The two file systems have the same paths, and the same in every file reachable from root in the first.
  ghost predicate SameBelow(fs: Files, gs: Files, root: Path) {
    fs.Keys == gs.Keys && forall p :: p in fs && Reaches(fs, root, p) ==> gs[p] == fs[p]
  }

  lemma SameAt(fs: Files, gs: Files, root: Path, p: Path)
    requires SameBelow(fs, gs, root) && Reaches(fs, root, p)
    ensures Broken(fs, p) <==> Broken(gs, p)
    ensures forall q :: Edge(fs, p, q) <==> Edge(gs, p, q)
  {
    hide Reaches;
    assert Items(fs, p) == Items(gs, p);
    assert forall k :: IsMod(fs, p, k) <==> IsMod(gs, p, k);
    forall k | IsMod(fs, p, k) ensures Target(fs, p, k) == Target(gs, p, k) { }
  }

  // A chain from root in one of them is a chain in the other, and its end is reachable in the first.
  lemma {:induction false} SameTrail(fs: Files, gs: Files, root: Path, t: seq<Path>)
    requires SameBelow(fs, gs, root) && t != [] && t[0] == root
    ensures Trail(fs, t) <==> Trail(gs, t)
    ensures Trail(fs, t) ==> Reaches(fs, root, t[|t| - 1])
    decreases |t|
  {
    hide SameBelow, Edge, Reaches;
    if |t| > 1 {
      var n := |t| - 1;
      var u := t[..n];
      SameTrail(fs, gs, root, u);
      TrailEnds(fs, t);
      TrailEnds(gs, t);
      if Trail(fs, u) { SameAt(fs, gs, root, t[n - 1]); }
    }
    if Trail(fs, t) { ReachesEnd(fs, t); }
  }

  lemma TrailEnds(fs: Files, t: seq<Path>)
    requires |t| > 1
    ensures Trail(fs, t) <==> Trail(fs, t[..|t| - 1]) && Edge(fs, t[|t| - 2], t[|t| - 1])
  {
    hide Edge;
    var u := t[..|t| - 1];
    if Trail(fs, t) {
      forall i | 0 < i < |u| ensures Edge(fs, u[i - 1], u[i]) { assert Edge(fs, t[i - 1], t[i]); }
    }
    if Trail(fs, u) && Edge(fs, t[|t| - 2], t[|t| - 1]) {
      forall i | 0 < i < |t| ensures Edge(fs, t[i - 1], t[i]) {
        if i < |u| { assert Edge(fs, u[i - 1], u[i]); }
      }
    }
  }

  lemma ReachesEnd(fs: Files, t: seq<Path>)
    requires Trail(fs, t)
    ensures Reaches(fs, t[0], t[|t| - 1])
  {
  }

  /** Files that cannot be reached change neither what is reachable nor whether it is sound. */
  lemma OnlyReachable(fs: Files, gs: Files, root: Path)
    requires SameBelow(fs, gs, root)
    ensures Sound(fs, root) <==> Sound(gs, root)
    ensures forall q :: Reaches(fs, root, q) <==> Reaches(gs, root, q)
  {
    hide SameBelow, Edge, Broken;
    forall t | t != [] && t[0] == root && (Trail(fs, t) || Trail(gs, t))
      ensures Trail(fs, t) && Trail(gs, t) && (Broken(fs, t[|t| - 1]) <==> Broken(gs, t[|t| - 1]))
    {
      SameTrail(fs, gs, root, t);
      SameAt(fs, gs, root, t[|t| - 1]);
    }
  }

  // ---- Which file a declaration means ----

  // A file declares a module of that name.
  predicate Declares(fs: Files, p: Path, name: string) {
    p in fs && fs[p].Source? && ModFile(name) in fs[p].items
  }

  // The file of module `name` for a declaration in folder `d`: `name.et` there, or else `name/mod.et`.
  predicate IsModuleFile(fs: Files, d: Path, name: string, q: Path) {
    q in fs && (q == d + [name + ".et"] || (q == d + [name, "mod.et"] && d + [name + ".et"] !in fs))
  }

  lemma DeclaresIff(fs: Files, p: Path, name: string)
    ensures Declares(fs, p, name) <==> exists k :: IsMod(fs, p, k) && Items(fs, p)[k].name == name
  {
    if Declares(fs, p, name) {
      var k :| 0 <= k < |fs[p].items| && fs[p].items[k] == ModFile(name);
      assert IsMod(fs, p, k);
    }
  }

  /** One file leads to another exactly when it declares a module whose file, looked up beside it, that
      other file is. */
  lemma EdgeIff(fs: Files, d: Path, last: string, q: Path)
    ensures Edge(fs, d + [last], q) <==> exists name :: Declares(fs, d + [last], name) && IsModuleFile(fs, d, name, q)
  {
    var p := d + [last];
    assert p[..|p| - 1] == d;
    hide Declares;
    if Edge(fs, p, q) {
      var k :| IsMod(fs, p, k) && Target(fs, p, k) == Some(q);
      DeclaresIff(fs, p, Items(fs, p)[k].name);
      assert IsModuleFile(fs, d, Items(fs, p)[k].name, q);
    }
    if name :| Declares(fs, p, name) && IsModuleFile(fs, d, name, q) {
      DeclaresIff(fs, p, name);
      var k :| IsMod(fs, p, k) && Items(fs, p)[k].name == name;
      DifferentFiles(d, name);
      assert Target(fs, p, k) == Some(q);
    }
  }

  lemma DifferentFiles(d: Path, name: string)
    ensures d + [name + ".et"] != d + [name, "mod.et"]
  {
    assert |d + [name + ".et"]| != |d + [name, "mod.et"]|;
  }

  /** A file is broken exactly when it cannot be opened, or declares a module for which neither of the
      two files exists. */
  lemma BrokenIff(fs: Files, d: Path, last: string)
    ensures Broken(fs, d + [last]) <==>
            || !(d + [last] in fs && fs[d + [last]].Source?)
            || exists name ::
                 Declares(fs, d + [last], name) && d + [name + ".et"] !in fs && d + [name, "mod.et"] !in fs
  {
    var p := d + [last];
    assert p[..|p| - 1] == d;
    hide Declares;
    if Loads(fs, p) {
      if Broken(fs, p) {
        var k :| IsMod(fs, p, k) && Target(fs, p, k) == None;
        DeclaresIff(fs, p, Items(fs, p)[k].name);
      }
      if name :| Declares(fs, p, name) && d + [name + ".et"] !in fs && d + [name, "mod.et"] !in fs {
        DeclaresIff(fs, p, name);
        var k :| IsMod(fs, p, k) && Items(fs, p)[k].name == name;
        assert Target(fs, p, k) == None;
      }
    }
  }

  // `q` is the file of a module that some file of `stored` declares.
  ghost predicate HasParent(fs: Files, stored: set<Path>, q: Path) {
    exists d, last, name :: d + [last] in stored && Declares(fs, d + [last], name) && IsModuleFile(fs, d, name, q)
  }

  // Every module that `p` declares has a file in `stored`.
  ghost predicate HasChildren(fs: Files, stored: set<Path>, p: Path) {
    forall d, last, name :: p == d + [last] && Declares(fs, p, name) ==>
      exists q :: q in stored && IsModuleFile(fs, d, name, q)
  }

  /** The results of a search that succeeds: the root, files of modules declared in other results, and
      for each declaration in a result the file it means. */
  lemma ResultsAreModules(fs: Files, root: Path, stored: set<Path>)
    requires [] !in fs && Sound(fs, root) && forall q :: q in stored <==> Reaches(fs, root, q)
    ensures root in stored
    ensures forall q :: q in stored && q != root ==> HasParent(fs, stored, q)
    ensures forall p :: p in stored ==> p in fs && fs[p].Source? && HasChildren(fs, stored, p)
  {
    hide Edge, Broken, Declares, IsModuleFile, Circular;
    ReachesItself(fs, root);
    RootLoads(fs, root);
    forall q | q in stored && q != root ensures HasParent(fs, stored, q) {
      var t :| Trail(fs, t) && t[0] == root && t[|t| - 1] == q;
      TrailEnds(fs, t);
      var p := t[|t| - 2];
      ReachesEnd(fs, t[..|t| - 1]);
      assert t[..|t| - 1][0] == root;
      NotEmpty(fs, root, p);
      var (d, last) := (p[..|p| - 1], p[|p| - 1]);
      assert p == d + [last];
      EdgeIff(fs, d, last, q);
    }
    forall p | p in stored ensures p in fs && fs[p].Source? && HasChildren(fs, stored, p) {
      var t :| Trail(fs, t) && t[0] == root && t[|t| - 1] == p;
      assert !Broken(fs, p);
      NotBroken(fs, p);
      forall d, last, name | p == d + [last] && Declares(fs, p, name)
        ensures exists q :: q in stored && IsModuleFile(fs, d, name, q)
      {
        BrokenIff(fs, d, last);
        var q := if d + [name + ".et"] in fs then d + [name + ".et"] else d + [name, "mod.et"];
        assert IsModuleFile(fs, d, name, q) by { DifferentFiles(d, name); FileThere(fs, d, name, q); }
        EdgeIff(fs, d, last, q);
        ReachesOn(fs, root, p, q);
      }
    }
  }

  lemma FileThere(fs: Files, d: Path, name: string, q: Path)
    requires d + [name + ".et"] in fs || d + [name, "mod.et"] in fs
    requires q == if d + [name + ".et"] in fs then d + [name + ".et"] else d + [name, "mod.et"]
    ensures IsModuleFile(fs, d, name, q)
  {
  }

  lemma RootLoads(fs: Files, root: Path)
    requires Sound(fs, root)
    ensures root in fs && fs[root].Source?
  {
    assert Trail(fs, [root]) && [root][0] == root;
  }

  lemma NotBroken(fs: Files, p: Path)
    requires !Broken(fs, p)
    ensures p in fs && fs[p].Source?
  {
  }

  lemma ReachesOn(fs: Files, root: Path, p: Path, q: Path)
    requires Reaches(fs, root, p) && Edge(fs, p, q)
    ensures Reaches(fs, root, q)
  {
    hide Edge;
    var t :| Trail(fs, t) && t[0] == root && t[|t| - 1] == p;
    var u := t + [q];
    assert u[..|u| - 1] == t;
    TrailEnds(fs, u);
    ReachesEnd(fs, u);
  }

  // No chain leads to the empty path.
  lemma NotEmpty(fs: Files, root: Path, p: Path)
    requires root != [] && Reaches(fs, root, p)
    ensures p != []
  {
    var t :| Trail(fs, t) && t[0] == root && t[|t| - 1] == p;
    if |t| > 1 { assert Edge(fs, t[|t| - 2], t[|t| - 1]); }
  }

  // ---- The search ----

  // The stored results are files as they are, in an order with children first.
  ghost predicate Stored(fs: Files, results: map<Path, Entry>, order: seq<Path>) {
    && Distinct(order)
    && ChildrenFirst(fs, order)
    && (forall p :: p in results <==> p in order)
    && (forall p :: p in results ==> p in fs && results[p] == fs[p])
  }

  // Between two steps of the search every parsed file is either stored or open.
  ghost predicate Consistent(fs: Files, results: map<Path, Entry>, open: set<Path>,
                             order: seq<Path>, parsed: seq<Path>)
  {
    && Stored(fs, results, order)
    && open <= fs.Keys
    && results.Keys !! open
    && Distinct(parsed)
    && (forall p :: p in parsed <==> p in results || p in open)
  }

  lemma StoredIn(fs: Files, results: map<Path, Entry>, open: set<Path>, order: seq<Path>, parsed: seq<Path>)
    requires Consistent(fs, results, open, order, parsed)
    ensures Stored(fs, results, order) && Distinct(parsed) && open <= fs.Keys
    ensures forall p :: p in results <==> p in order
  {
  }

  lemma Opened(fs: Files, results: map<Path, Entry>, open: set<Path>, order: seq<Path>,
               parsed: seq<Path>, p: Path)
    requires Consistent(fs, results, open, order, parsed)
    requires p !in results && p !in open && Loads(fs, p)
    ensures Consistent(fs, results, open + {p}, order, parsed + [p])
  {
    hide Stored;
  }

  lemma Finished(fs: Files, results: map<Path, Entry>, open: set<Path>, order: seq<Path>,
                 parsed: seq<Path>, p: Path)
    requires Consistent(fs, results, open + {p}, order, parsed)
    requires p !in open && Loads(fs, p) && Settled(fs, p, order)
    ensures Consistent(fs, results[p := fs[p]], open, order + [p], parsed)
  {
    ChildrenFirstGrows(fs, order, p);
    hide ChildrenFirst, Settled, Loads;
  }

  // The `mod` declarations before the k-th lead to stored files.
  ghost predicate Visited(fs: Files, p: Path, order: seq<Path>, k: nat) {
    forall j :: 0 <= j < k && IsMod(fs, p, j) ==>
                  Target(fs, p, j).Some? && Target(fs, p, j).value in order
  }

  lemma NoneVisited(fs: Files, p: Path, order: seq<Path>)
    ensures Visited(fs, p, order, 0)
  {
  }

  lemma VisitedAll(fs: Files, p: Path, order: seq<Path>, k: nat)
    requires Loads(fs, p) && Visited(fs, p, order, k) && k >= |Items(fs, p)|
    ensures Settled(fs, p, order)
  {
  }

  lemma VisitedNext(fs: Files, p: Path, before: seq<Path>, order: seq<Path>, k: nat)
    requires Visited(fs, p, before, k) && before <= order
    requires IsMod(fs, p, k) ==> Target(fs, p, k).Some? && Target(fs, p, k).value in order
    ensures Visited(fs, p, order, k + 1)
  {
  }

  // Everything stored since the first `from` entries is reachable from p.
  ghost predicate Below(fs: Files, p: Path, order: seq<Path>, from: nat)
    requires from <= |order|
  {
    forall q :: q in order[from..] ==> Reaches(fs, p, q)
  }

  lemma Nothing(fs: Files, p: Path, order: seq<Path>)
    ensures Below(fs, p, order, |order|)
  {
  }

  lemma BelowChild(fs: Files, p: Path, child: Path, before: seq<Path>, order: seq<Path>, from: nat)
    requires from <= |before| && before <= order
    requires Edge(fs, p, child) && Below(fs, p, before, from) && Below(fs, child, order, |before|)
    ensures Below(fs, p, order, from)
  {
    assert order[from..] == before[from..] + order[|before|..];
    forall q | q in order[|before|..] ensures Reaches(fs, p, q) {
      ReachesThrough(fs, p, child, q);
    }
  }

  lemma BelowItself(fs: Files, p: Path, order: seq<Path>, from: nat)
    requires from <= |order| && Below(fs, p, order, from)
    ensures Below(fs, p, order + [p], from)
  {
    ReachesItself(fs, p);
    assert (order + [p])[from..] == order[from..] + [p];
  }

  // PackSession and the InProgress set, with two ghost logs: the order in which
  // results were stored, and the files handed to the parser.
  class Search {
    const fs: Files
    var results: map<Path, Entry>
    var inProgress: set<Path>
    ghost var order: seq<Path>
    ghost var parsed: seq<Path>

    ghost predicate Valid()
      reads this
    {
      Consistent(fs, results, inProgress, order, parsed)
    }

    constructor (fs: Files)
      ensures this.fs == fs && Valid()
      ensures results == map[] && inProgress == {} && order == [] && parsed == []
    {
      this.fs := fs;
      results, inProgress, order, parsed := map[], {}, [], [];
    }

    // parseFile: status 0 exactly when nothing below path fails given the
    // files already open. Results only grow, by files reachable from path, each
    // parsed once and stored after all its children; on every exit the open
    // files are the ones open on entry.
    method ParseFile(path: Path) returns (rc: int)
      requires Valid()
      modifies this
      ensures inProgress == old(inProgress)
      ensures rc == 0 || rc == 1
      ensures rc == 0 ==> Valid() && path in results
      ensures rc == 1 ==> Stored(fs, results, order) && Distinct(parsed) && Fails(fs, path, inProgress)
      ensures old(order) <= order && Below(fs, path, order, |old(order)|)
      decreases fs.Keys - inProgress
    {
      hide Fails, Below, Visited, Consistent, Stored, Broken, Settled, Distinct;
      StoredIn(fs, results, inProgress, order, parsed);
      Nothing(fs, path, order);
      if path in results {
        return 0;
      }
      if path in inProgress {
        FailsAt(fs, path, inProgress);
        return 1;
      }
      if !Loads(fs, path) {
        FailsUnloaded(fs, path, inProgress);
        return 1;
      }
      Opened(fs, results, inProgress, order, parsed, path);
      parsed := parsed + [path];
      var items := fs[path].items;
      inProgress := inProgress + {path};
      NoneVisited(fs, path, order);
      var k := 0;
      while k < |items|
        invariant 0 <= k <= |items|
        invariant Valid() && inProgress == old(inProgress) + {path}
        invariant old(order) <= order && Below(fs, path, order, |old(order)|)
        invariant Visited(fs, path, order, k)
      {
        ghost var before := order;
        if items[k].ModFile? {
          var found := Resolve(fs, Dir(path), items[k].name);
          if found == None {
            StoredIn(fs, results, inProgress, order, parsed);
            inProgress := inProgress - {path};
            FailsUnresolved(fs, path, inProgress, k);
            return 1;
          }
          assert Edge(fs, path, found.value) by {
            assert IsMod(fs, path, k);
          }
          rc := ParseFile(found.value);
          BelowChild(fs, path, found.value, before, order, |old(order)|);
          if rc != 0 {
            inProgress := inProgress - {path};
            assert inProgress + {path} == old(inProgress) + {path};
            FailsThrough(fs, path, found.value, inProgress);
            return rc;
          }
          StoredIn(fs, results, inProgress, order, parsed);
        }
        VisitedNext(fs, path, before, order, k);
        k := k + 1;
      }
      VisitedAll(fs, path, order, k);
      Finished(fs, results, old(inProgress), order, parsed, path);
      BelowItself(fs, path, order, |old(order)|);
      results := results[path := fs[path]];
      order := order + [path];
      inProgress := inProgress - {path};
      return 0;
    }
  }

  // compilePack: status 0 exactly when everything reachable from the root opens
  // and resolves and no chain of `mod` declarations is circular; the stored
  // files are then exactly the reachable ones. No file is ever parsed twice, and
  // results are stored children first.
  method CompilePack(fs: Files, root: Path)
    returns (rc: int, results: map<Path, Entry>, ghost order: seq<Path>, ghost parsed: seq<Path>)
    ensures rc == 0 || rc == 1
    ensures rc == 0 <==> Sound(fs, root)
    ensures rc == 0 ==> forall q :: q in results <==> Reaches(fs, root, q)
    ensures rc == 0 ==> forall q :: q in results <==> q in parsed
    ensures forall q :: q in results ==> Reaches(fs, root, q) && Sound(fs, q)
    ensures Stored(fs, results, order) && Distinct(parsed)
    ensures rc == 0 && [] !in fs ==>
            && root in results
            && (forall q :: q in results && q != root ==> HasParent(fs, results.Keys, q))
            && (forall p :: p in results ==> HasChildren(fs, results.Keys, p))
  {
    hide HasParent, HasChildren;
    var session := new Search(fs);
    rc := session.ParseFile(root);
    results, order, parsed := session.results, session.order, session.parsed;
    SoundOrFails(fs, root);
    assert order[0..] == order;
    forall q | q in results ensures Sound(fs, q) {
      ChildrenFirstSound(fs, order, q);
    }
    if rc == 0 {
      ChildrenFirstSound(fs, order, root);
      if [] !in fs { ResultsAreModules(fs, root, results.Keys); }
    }
  }

  // The loop over the input files stops at the first input that fails.
  method CompileAll(fs: Files, inputs: seq<Path>) returns (rc: int)
    ensures rc == 0 <==> forall i :: 0 <= i < |inputs| ==> Sound(fs, inputs[i])
  {
    for i := 0 to |inputs|
      invariant forall j :: 0 <= j < i ==> Sound(fs, inputs[j])
    {
      var results;
      ghost var order, parsed;
      rc, results, order, parsed := CompilePack(fs, inputs[i]);
      if rc != 0 {
        return rc;
      }
    }
    return 0;
  }
}
