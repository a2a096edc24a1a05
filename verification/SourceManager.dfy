// Offsets to lines and columns (lib/Base/SourceManager.cpp): an index of line
// starts, a binary search in it and a cache in front of that, proved equal to
// counting newlines.
module SourcePositions {

  datatype SourceLocation = SourceLocation(line: nat, column: nat)

  predicate NewlineAt(b: string, i: nat) {
    i < |b| && b[i] == '\n'
  }

  // The number of newlines before an offset.
  function Newlines(b: string, off: nat): nat {
    if off == 0 then 0 else Newlines(b, off - 1) + if NewlineAt(b, off - 1) then 1 else 0
  }

  // The number of bytes between the last newline before an offset and it.
  function SinceNewline(b: string, off: nat): nat {
    if off == 0 || NewlineAt(b, off - 1) then 0 else 1 + SinceNewline(b, off - 1)
  }

  // The location of an offset, by counting.
  function Location(b: string, off: nat): SourceLocation {
    SourceLocation(1 + Newlines(b, off), 1 + SinceNewline(b, off))
  }

  // The starts of the lines that begin within the first n bytes.
  function Starts(b: string, n: nat): (starts: seq<nat>)
    ensures |starts| == 1 + Newlines(b, n) && starts[0] == 0
  {
    if n == 0 then [0] else Starts(b, n - 1) + if NewlineAt(b, n - 1) then [n] else []
  }

  function LineCount(b: string): (n: nat)
    ensures n >= 1
  {
    1 + Newlines(b, |b|)
  }

  function LineStart(b: string, line: nat): nat
    requires 1 <= line <= LineCount(b)
  {
    Starts(b, |b|)[line - 1]
  }

  // Offset of a location: what a reader does with a line and a column.
  function OffsetAt(b: string, loc: SourceLocation): int
    requires 1 <= loc.line <= LineCount(b)
  {
    LineStart(b, loc.line) + loc.column - 1
  }

  lemma {:induction false} NewlinesMonotone(b: string, i: nat, j: nat)
    requires i <= j
    ensures Newlines(b, i) <= Newlines(b, j)
    decreases j
  {
    if i < j { NewlinesMonotone(b, i, j - 1); }
  }

  lemma {:induction false} NewlinesPast(b: string, off: nat)
    requires off >= |b|
    ensures Newlines(b, off) == Newlines(b, |b|)
  {
    if off > |b| { NewlinesPast(b, off - 1); }
  }

  lemma {:induction false} StartsGrow(b: string, i: nat, j: nat)
    requires i <= j
    ensures Starts(b, i) <= Starts(b, j)
    decreases j
  {
    if i < j { StartsGrow(b, i, j - 1); }
  }

  // The last line start at or before an offset is the offset less its column.
  lemma {:induction false} LastStart(b: string, off: nat)
    ensures Starts(b, off)[Newlines(b, off)] == off - SinceNewline(b, off)
  {
    if off > 0 { LastStart(b, off - 1); }
  }

  lemma {:induction false} StartsInOrder(b: string, n: nat, i: nat)
    requires i < |Starts(b, n)|
    ensures Starts(b, n)[i] <= n
    ensures i > 0 ==> Starts(b, n)[i - 1] < Starts(b, n)[i] && NewlineAt(b, Starts(b, n)[i] - 1)
    ensures Newlines(b, Starts(b, n)[i]) == i && SinceNewline(b, Starts(b, n)[i]) == 0
  {
    if n > 0 {
      if i < |Starts(b, n - 1)| {
        StartsInOrder(b, n - 1, i);
      } else {
        StartsInOrder(b, n - 1, i - 1);
      }
    }
  }

  lemma {:induction false} StartsSorted(b: string, n: nat, i: nat, j: nat)
    requires i < j < |Starts(b, n)|
    ensures Starts(b, n)[i] < Starts(b, n)[j]
    decreases j
  {
    StartsInOrder(b, n, j);
    if i < j - 1 { StartsSorted(b, n, i, j - 1); }
  }

  // The index agrees with counting: the line an offset is counted to is the
  // line whose indexed start is the last at or before it.
  lemma IndexAgrees(b: string, off: nat)
    ensures Newlines(b, off) < LineCount(b)
    ensures LineStart(b, 1 + Newlines(b, off)) == off - SinceNewline(b, off)
    ensures forall k :: 0 <= k < LineCount(b) ==> (Starts(b, |b|)[k] <= off <==> k <= Newlines(b, off))
  {
    var s := Starts(b, |b|);
    if off <= |b| {
      NewlinesMonotone(b, off, |b|);
      LastStart(b, off);
      StartsGrow(b, off, |b|);
    } else {
      NewlinesPast(b, off);
      LastStart(b, off);
      StartsGrow(b, |b|, off);
      assert Starts(b, off) == s;
    }
    var line := Newlines(b, off);
    forall k | 0 <= k < LineCount(b) ensures s[k] <= off <==> k <= line {
      if k < line {
        StartsSorted(b, |b|, k, line);
      } else if k > line {
        StartsInOrder(b, |b|, k);
        if s[k] <= off { NewlinesMonotone(b, s[k], off); }
      }
    }
  }

  // Locations can be inverted, on every offset and from every location.
  lemma Invertible(b: string, off: nat)
    ensures Location(b, off).line <= LineCount(b)
    ensures OffsetAt(b, Location(b, off)) == off
  {
    IndexAgrees(b, off);
  }

  lemma InvertibleBack(b: string, loc: SourceLocation)
    requires 1 <= loc.line <= LineCount(b) && loc.column >= 1
    requires loc.line < LineCount(b) ==> OffsetAt(b, loc) < LineStart(b, loc.line + 1)
    ensures Location(b, OffsetAt(b, loc)) == loc
  {
    IndexAgrees(b, OffsetAt(b, loc));
    assert Starts(b, |b|)[loc.line - 1] <= OffsetAt(b, loc);
    if loc.line < LineCount(b) {
      assert Starts(b, |b|)[loc.line] > OffsetAt(b, loc);
    }
  }

  class SourceManager {
    const buffer: string
    var lineStarts: seq<nat>
    var cache: map<nat, SourceLocation>

    ghost predicate Valid()
      reads this
    {
      && lineStarts == Starts(buffer, |buffer|)
      && forall off :: off in cache ==> cache[off] == Location(buffer, off)
    }

    constructor (buffer: string)
      ensures this.buffer == buffer && Valid() && cache == map[]
    {
      this.buffer := buffer;
      lineStarts, cache := [], map[];
      new;
      BuildLineIndex();
    }

    method BuildLineIndex()
      requires lineStarts == []
      modifies this`lineStarts
      ensures lineStarts == Starts(buffer, |buffer|)
    {
      lineStarts := lineStarts + [0];
      for i := 0 to |buffer|
        invariant lineStarts == Starts(buffer, i)
      {
        if buffer[i] == '\n' {
          lineStarts := lineStarts + [i + 1];
        }
      }
    }

    // The first entry above off, or the length: std::upper_bound.
    method UpperBound(off: nat) returns (at: nat)
      requires Valid()
      ensures at <= |lineStarts|
      ensures forall k :: 0 <= k < at ==> lineStarts[k] <= off
      ensures forall k :: at <= k < |lineStarts| ==> lineStarts[k] > off
    {
      IndexAgrees(buffer, off);
      at := 0;
      var count: nat := |lineStarts|;
      while count > 0
        invariant at + count <= |lineStarts|
        invariant forall k :: 0 <= k < at ==> lineStarts[k] <= off
        invariant forall k :: at + count <= k < |lineStarts| ==> lineStarts[k] > off
      {
        var step := count / 2;
        if lineStarts[at + step] <= off {
          at, count := at + step + 1, count - step - 1;
        } else {
          count := step;
        }
      }
    }

    // Whether it comes from the cache or the search, the location is the
    // counted one; earlier answers stay as they were.
    method GetLocation(off: nat) returns (loc: SourceLocation)
      requires Valid()
      modifies this`cache
      ensures Valid() && loc == Location(buffer, off)
      ensures cache == old(cache)[off := loc]
    {
      if off in cache {
        return cache[off];
      }
      var above := UpperBound(off);
      IndexAgrees(buffer, off);
      assert lineStarts[Newlines(buffer, off)] <= off;
      assert lineStarts[above - 1] <= off;
      var line := above - 1;
      loc := SourceLocation(line + 1, off - lineStarts[line] + 1);
      cache := cache[off := loc];
    }
  }
}
