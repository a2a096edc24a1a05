/** The string interner and the payload words that carry its ids. */
module Interning {
  import opened Tokens
  import opened Trees

  type Id = nat

  const NullStr: Id := 0

  // The state of an interner whose table and string list agree: id 0 is the sentinel, every other
  // id names one string and every string of the table has one id.
  ghost predicate Consistent(table: map<string, Id>, strings: seq<string>) {
    && |strings| > 0 && strings[0] == ""
    && (forall t :: t in table ==> 0 < table[t] < |strings| && strings[table[t]] == t)
    && (forall i :: 0 < i < |strings| ==> strings[i] in table && table[strings[i]] == i)
  }

  /** Ids are canonical: two interned ids are equal exactly when their strings are. */
  lemma Canonical(table: map<string, Id>, strings: seq<string>, i: Id, j: Id)
    requires Consistent(table, strings) && 0 < i < |strings| && 0 < j < |strings|
    ensures i == j <==> strings[i] == strings[j]
  {
    assert table[strings[i]] == i && table[strings[j]] == j;
  }

  // `later` holds every string of `strings` under its old id.
  ghost predicate Extends(strings: seq<string>, later: seq<string>) {
    && |strings| <= |later|
    && forall i :: 0 <= i < |strings| ==> later[i] == strings[i]
  }

  class StringInterner {
    var table: map<string, Id>
    var strings: seq<string>

    ghost predicate Valid() reads this { Consistent(table, strings) }

    constructor ()
      ensures Valid() && Size() == 0
    {
      table := map[];
      strings := [""];
    }

    /** The id of `s`, a new one only if `s` was never interned. Ids are never null, keep their
        string for ever, and interning again changes nothing. */
    method Intern(s: string) returns (id: Id)
      requires Valid()
      modifies this
      ensures Valid() && Extends(old(strings), strings)
      ensures 0 < id < |strings| && strings[id] == s && id != NullStr
      ensures s in old(table) ==> id == old(table[s]) && table == old(table) && strings == old(strings)
      ensures s !in old(table) ==> id == |old(strings)| && strings == old(strings) + [s] && table == old(table)[s := id]
    {
      if s in table { return table[s]; }
      id := |strings|;
      table := table[s := id];
      strings := strings + [s];
    }

    function Get(id: Id): string
      reads this
      requires id < |strings|
    { strings[id] }

    function Size(): nat
      reads this
      requires Valid()
    { |strings| - 1 }
  }

  /////////////////////////// payload words ///////////////////////////

  const NameLimit: nat := 0x4000_0000

  function RegimeCode(r: Regime): (c: nat)
    ensures c < 4
  {
    match r case Imm => 0 case Mut => 1 case Proj => 2 case NoRegime => 3
  }

  // Two regime bits above thirty name bits; a longer id loses its upper bits.
  function MakePayload(name: Id, r: Regime): (w: nat)
    ensures w < 0x1_0000_0000
  {
    RegimeCode(r) * NameLimit + name % NameLimit
  }

  function PayloadStr(w: nat): Id { w % NameLimit }

  function PayloadRegime(w: nat): Regime
    requires w < 0x1_0000_0000
  {
    var c := w / NameLimit;
    if c == 0 then Regime.Imm else if c == 1 then Regime.Mut else if c == 2 then Regime.Proj else NoRegime
  }

  function MakeOpPayload(k: nat): nat { k % 0x1_0000 }

  function PayloadOp(w: nat): nat { w % 0x1_0000 }

  /** Packing keeps the regime for every id, and the name exactly for ids of thirty bits. */
  lemma PayloadRoundTrip(name: Id, r: Regime)
    ensures PayloadRegime(MakePayload(name, r)) == r
    ensures PayloadStr(MakePayload(name, r)) == name <==> name < NameLimit
  {
    var low := name % NameLimit;
    var w := RegimeCode(r) * NameLimit + low;
    assert w / NameLimit == RegimeCode(r) && w % NameLimit == low by { DivMod(RegimeCode(r), low); }
  }

  lemma DivMod(c: nat, low: nat)
    requires c < 4 && low < NameLimit
    ensures (c * NameLimit + low) / NameLimit == c && (c * NameLimit + low) % NameLimit == low
  {
  }

  // The word `w` stores what `p` says, read with the strings interned so far.
  ghost predicate Stores(strings: seq<string>, w: nat, p: Payload) {
    match p
    case Zero => w == 0
    case Name(t) => w < |strings| && strings[w] == t
    case NameRegime(t, r) => exists id: Id :: id < |strings| && strings[id] == t && w == MakePayload(id, r)
    case Op(k) => PayloadOp(w) == k as int
    case Count(n) => PayloadOp(w) == n
  }

  /** Names stay readable whatever is interned later. */
  lemma StoresLater(strings: seq<string>, later: seq<string>, w: nat, p: Payload)
    requires Stores(strings, w, p) && Extends(strings, later)
    ensures Stores(later, w, p)
  {
    if p.NameRegime? {
      var id: Id :| id < |strings| && strings[id] == p.text && w == MakePayload(id, p.regime);
      assert later[id] == p.text;
    }
  }

  /** What a node stored is recovered from its word after any later interning: the regime always, and
      the name whenever its own id has thirty bits, however many strings there are by then. */
  lemma ReadBack(table: map<string, Id>, strings: seq<string>, later: seq<string>, w: nat, t: string, r: Regime)
    returns (id: Id)
    requires Consistent(table, strings) && Extends(strings, later) && Stores(strings, w, NameRegime(t, r))
    ensures id < |strings| && strings[id] == t && (t != "" ==> t in table && id == table[t])
    ensures w < 0x1_0000_0000 && PayloadRegime(w) == r
    ensures PayloadStr(w) == id <==> id < NameLimit
    ensures id < NameLimit ==> later[PayloadStr(w)] == t
  {
    id :| id < |strings| && strings[id] == t && w == MakePayload(id, r);
    PayloadRoundTrip(id, r);
  }

  lemma StoresName(strings: seq<string>, later: seq<string>, id: Id)
    requires id < |strings| && Extends(strings, later)
    ensures Stores(later, id, Name(strings[id]))
  {
  }

  lemma StoresZero(strings: seq<string>)
    ensures Stores(strings, 0, Zero)
  {
  }

  lemma StoresOp(strings: seq<string>, k: Kind)
    ensures Stores(strings, MakeOpPayload(k as nat), Op(k))
  {
  }

  lemma StoresNameRegime(strings: seq<string>, id: Id, r: Regime)
    requires id < |strings|
    ensures Stores(strings, MakePayload(id, r), NameRegime(strings[id], r))
  {
  }
}
