// The snippet under a diagnostic (lib/Base/DiagnosticEngine.cpp). The printer
// walks the text line by line on its own; the walk is proved to stay on the
// starts the source manager indexed, to visit exactly the lines it means to,
// and to mark exactly the bytes of the span.
module Snippets {
  import opened SourcePositions

  // ---- Line searches ----

  // The last c before from, as StringRef::rfind: from itself is not looked at.
  function RFind(b: string, c: char, from: nat): (at: int)
    ensures -1 <= at < from || (at == -1 && from == 0)
  {
    if from == 0 then -1
    else if from <= |b| && b[from - 1] == c then from - 1
    else RFind(b, c, from - 1)
  }

  function Find(b: string, c: char, from: nat): (at: int)
    ensures at == -1 || from <= at < |b|
    decreases |b| - from
  {
    if from >= |b| then -1
    else if b[from] == c then from
    else Find(b, c, from + 1)
  }

  function FindLineStart(b: string, off: nat): nat {
    if off == 0 then 0
    else
      var newline := RFind(b, '\n', if off > |b| then |b| else off);
      if newline == -1 then 0 else newline + 1
  }

  function FindLineEnd(b: string, off: nat): nat {
    var newline := Find(b, '\n', off);
    if newline == -1 then |b| else newline
  }

  // The end of a line according to the index: where its newline is, or the end
  // of the text.
  function LineEnd(b: string, line: nat): (end: int)
    requires 1 <= line <= LineCount(b)
  {
    if line < LineCount(b) then LineStart(b, line + 1) - 1 else |b|
  }

  lemma {:induction false} RFindCounts(b: string, off: nat)
    requires off <= |b|
    ensures RFind(b, '\n', off) + 1 == off - SinceNewline(b, off)
  {
    if off > 0 && !NewlineAt(b, off - 1) { RFindCounts(b, off - 1); }
  }

  lemma {:induction false} FindCounts(b: string, off: nat)
    requires off <= |b|
    ensures off <= FindLineEnd(b, off) <= |b|
    ensures FindLineEnd(b, off) < |b| ==> NewlineAt(b, FindLineEnd(b, off))
    ensures Newlines(b, FindLineEnd(b, off)) == Newlines(b, off)
    decreases |b| - off
  {
    if off < |b| && b[off] != '\n' { FindCounts(b, off + 1); }
  }

  lemma LineStartAt(b: string, line: nat)
    requires 1 <= line <= LineCount(b)
    ensures LineStart(b, line) <= |b|
    ensures Newlines(b, LineStart(b, line)) == line - 1 && SinceNewline(b, LineStart(b, line)) == 0
    ensures line > 1 ==> LineStart(b, line) > 0 && Newlines(b, LineStart(b, line) - 1) == line - 2
  {
    StartsInOrder(b, |b|, line - 1);
  }

  // Searching back from an offset finds the indexed start of its line.
  lemma FindLineStartIndexed(b: string, off: nat)
    requires off <= |b|
    ensures 1 + Newlines(b, off) <= LineCount(b)
    ensures FindLineStart(b, off) == LineStart(b, 1 + Newlines(b, off))
  {
    RFindCounts(b, off);
    IndexAgrees(b, off);
  }

  // Searching back from before a line's start finds the line before it.
  lemma WalkBack(b: string, line: nat)
    requires 1 < line <= LineCount(b)
    ensures LineStart(b, line) > 0
    ensures FindLineStart(b, LineStart(b, line) - 1) == LineStart(b, line - 1)
  {
    LineStartAt(b, line);
    FindLineStartIndexed(b, LineStart(b, line) - 1);
  }

  // Searching forward from a line's start finds its indexed end, and past that
  // the next line's start; only the last line ends the text.
  lemma WalkForward(b: string, line: nat)
    requires 1 <= line <= LineCount(b)
    ensures FindLineEnd(b, LineStart(b, line)) == LineEnd(b, line)
    ensures LineStart(b, line) <= LineEnd(b, line) <= |b|
    ensures LineEnd(b, line) == |b| <==> line == LineCount(b)
  {
    LineStartAt(b, line);
    var end := FindLineEnd(b, LineStart(b, line));
    FindCounts(b, LineStart(b, line));
    if end < |b| {
      NewlinesMonotone(b, end + 1, |b|);
      IndexAgrees(b, end + 1);
    } else if line < LineCount(b) {
      assert false;
    }
  }

  method CountLines(b: string) returns (n: nat)
    ensures n == if b == "" then 0 else LineCount(b)
  {
    if |b| == 0 {
      return 0;
    }
    n := 1;
    for i := 0 to |b|
      invariant n == 1 + Newlines(b, i)
    {
      if b[i] == '\n' {
        n := n + 1;
      }
    }
  }

  // ---- Line numbers ----

  function DigitWidth(n: nat): (w: nat)
    ensures w >= 1
  {
    if n < 10 then 1 else 1 + DigitWidth(n / 10)
  }

  function Decimal(n: nat): (text: string) {
    (if n < 10 then "" else Decimal(n / 10)) + [['0', '1', '2', '3', '4', '5', '6', '7', '8', '9'][n % 10]]
  }

  method MeasureWidth(n: nat) returns (w: nat)
    ensures w == DigitWidth(n)
  {
    var rest := n;
    w := 1;
    while rest >= 10
      invariant w + DigitWidth(rest) == 1 + DigitWidth(n)
    {
      rest := rest / 10;
      w := w + 1;
    }
  }

  lemma {:induction false} WidthIsLength(n: nat)
    ensures |Decimal(n)| == DigitWidth(n)
  {
    if n >= 10 { WidthIsLength(n / 10); }
  }

  lemma {:induction false} WidthMonotone(i: nat, j: nat)
    requires i <= j
    ensures DigitWidth(i) <= DigitWidth(j)
  {
    if i >= 10 { WidthMonotone(i / 10, j / 10); }
  }

  // ---- Rows ----

  // A row of output: the top border, a line of text behind its number, or the
  // marks under a line of the span.
  datatype Row =
    | Border(gutter: nat)
    | Text(pad: nat, number: nat, text: string)
    | Marks(gutter: nat, indent: nat, width: nat, mark: char, caption: string)

  // What the caller asks for; start and end are the span's ends as given.
  datatype Request = Request(
    start: nat, end: nat, caption: string, showTopBorder: bool, showContextBefore: bool,
    useCaret: bool, skipLine: nat)
  {
    function Start(b: string): nat {
      if start < |b| then start else |b|
    }

    function End(b: string): nat {
      var e := if end < |b| then end else |b|;
      if e < Start(b) then Start(b) else e
    }

    function First(b: string): nat { Location(b, Start(b)).line }

    function Last(b: string): nat { Location(b, End(b)).line }

    function ContextFirst(b: string): nat {
      if showContextBefore && First(b) > 1 then First(b) - 1 else First(b)
    }

    function ContextLast(b: string): nat {
      if Last(b) + 1 < LineCount(b) then Last(b) + 1 else LineCount(b)
    }

    function Gutter(b: string): nat { DigitWidth(ContextLast(b)) }

    // The marked columns of a line of the span: from FromCol up to ToCol.
    function FromCol(b: string, line: nat): nat {
      if line == First(b) then Location(b, Start(b)).column else 1
    }

    function BareToCol(b: string, line: nat): int
      requires 1 <= line <= LineCount(b)
    {
      if line == Last(b) then Location(b, End(b)).column
      else LineEnd(b, line) - LineStart(b, line) + 1
    }

    // At least one column is marked.
    function ToCol(b: string, line: nat): int
      requires 1 <= line <= LineCount(b)
    {
      if BareToCol(b, line) <= FromCol(b, line) then FromCol(b, line) + 1 else BareToCol(b, line)
    }
  }

  lemma SpanLines(r: Request, b: string)
    ensures 1 <= r.ContextFirst(b) <= r.First(b) <= r.Last(b) <= r.ContextLast(b) <= LineCount(b)
  {
    NewlinesMonotone(b, r.Start(b), r.End(b));
    NewlinesMonotone(b, r.End(b), |b|);
  }

  // The rows of one line, by the index.
  function LineRows(r: Request, b: string, line: nat): seq<Row>
    requires 1 <= line <= r.ContextLast(b) <= LineCount(b)
  {
    WalkForward(b, line);
    WidthMonotone(line, r.ContextLast(b));
    (if r.skipLine != 0 && line == r.skipLine then []
     else [Text(r.Gutter(b) - DigitWidth(line), line, b[LineStart(b, line)..LineEnd(b, line)])])
    + if r.First(b) <= line <= r.Last(b)
      then [Marks(r.Gutter(b), r.FromCol(b, line) - 1, r.ToCol(b, line) - r.FromCol(b, line),
                  if r.useCaret then '^' else '-',
                  if r.caption != "" && line == r.Last(b) then " " + r.caption else "")]
      else []
  }

  // The rows of lines from .. to, the second excluded.
  function LinesRows(r: Request, b: string, from: nat, to: nat): seq<Row>
    requires 1 <= from && to <= r.ContextLast(b) + 1 && r.ContextLast(b) <= LineCount(b)
  {
    if to <= from then [] else LinesRows(r, b, from, to - 1) + LineRows(r, b, to - 1)
  }

  lemma NoLines(r: Request, b: string, from: nat)
    requires 1 <= from <= r.ContextLast(b) + 1 && r.ContextLast(b) <= LineCount(b)
    ensures LinesRows(r, b, from, from) == []
  {
  }

  lemma NextLine(r: Request, b: string, from: nat, line: nat)
    requires 1 <= from <= line <= r.ContextLast(b) <= LineCount(b)
    ensures LinesRows(r, b, from, line + 1) == LinesRows(r, b, from, line) + LineRows(r, b, line)
  {
  }

  function SnippetRows(r: Request, b: string): seq<Row> {
    SpanLines(r, b);
    if b == "" then []
    else
      (if r.showTopBorder then [Border(r.Gutter(b))] else [])
      + LinesRows(r, b, r.ContextFirst(b), r.ContextLast(b) + 1)
  }

  // ---- The printer ----

  // The rows of one line of the loop: its text unless skipped, and the marks
  // under it when it is in the span.
  method PrintLine(r: Request, b: string, gutter: nat, startLoc: SourceLocation, endLoc: SourceLocation,
                   curLine: nat, lineOff: nat)
    returns (rows: seq<Row>, lineEndOff: nat)
    requires startLoc == Location(b, r.Start(b)) && endLoc == Location(b, r.End(b))
    requires 1 <= curLine <= r.ContextLast(b) <= LineCount(b) && gutter == r.Gutter(b)
    requires lineOff == LineStart(b, curLine)
    ensures rows == LineRows(r, b, curLine) && lineEndOff == LineEnd(b, curLine)
  {
    WalkForward(b, curLine);
    WidthMonotone(curLine, r.ContextLast(b));
    hide FindLineEnd, LineStart, DigitWidth, Newlines, LineCount, SinceNewline;
    rows := [];
    lineEndOff := FindLineEnd(b, lineOff);
    var lineText := b[lineOff..lineEndOff];
    var inSpan := startLoc.line <= curLine <= endLoc.line;
    if !(r.skipLine != 0 && curLine == r.skipLine) {
      var width := MeasureWidth(curLine);
      rows := rows + [Text(gutter - width, curLine, lineText)];
    }
    if inSpan {
      var fromCol := if curLine == startLoc.line then startLoc.column else 1;
      var toCol := if curLine == endLoc.line then endLoc.column else lineEndOff - lineOff + 1;
      if toCol <= fromCol {
        toCol := fromCol + 1;
      }
      var caption := if r.caption != "" && curLine == endLoc.line then " " + r.caption else "";
      rows := rows + [Marks(gutter, fromCol - 1, toCol - fromCol, if r.useCaret then '^' else '-', caption)];
    }
  }

  // The offset the loop starts at: the start of the first context line.
  method FirstOffset(b: string, startOff: nat, startLine: nat, ctxStartLine: nat) returns (lineOff: nat)
    requires startOff <= |b| && startLine == Location(b, startOff).line
    requires 1 <= ctxStartLine <= startLine <= LineCount(b)
    ensures lineOff == LineStart(b, ctxStartLine)
  {
    FindLineStartIndexed(b, startOff);
    lineOff := FindLineStart(b, startOff);
    for step := 0 to startLine - ctxStartLine
      invariant lineOff == LineStart(b, startLine - step)
    {
      WalkBack(b, startLine - step);
      if lineOff == 0 {
        break;
      }
      lineOff := FindLineStart(b, lineOff - 1);
    }
  }

  method PrintSnippet(sm: SourceManager, r: Request) returns (rows: seq<Row>)
    requires sm.Valid()
    modifies sm`cache
    ensures sm.Valid() && rows == SnippetRows(r, sm.buffer)
  {
    hide LineRows, LinesRows, LineStart, LineCount, Newlines, SinceNewline, DigitWidth;
    rows := [];
    var b := sm.buffer;
    if |b| == 0 {
      return;
    }
    SpanLines(r, b);
    var startOff := if r.start < |b| then r.start else |b|;
    var endOff := if r.end < |b| then r.end else |b|;
    if endOff < startOff {
      endOff := startOff;
    }
    var startLoc := sm.GetLocation(startOff);
    var endLoc := sm.GetLocation(endOff);
    var totalLines := CountLines(b);
    var ctxStartLine := if r.showContextBefore && startLoc.line > 1 then startLoc.line - 1 else startLoc.line;
    var ctxEndLine := if totalLines < endLoc.line + 1 then totalLines else endLoc.line + 1;
    var gutter := MeasureWidth(ctxEndLine);
    var lineOff := FirstOffset(b, startOff, startLoc.line, ctxStartLine);
    if r.showTopBorder {
      rows := rows + [Border(gutter)];
    }
    rows := PrintLines(r, b, rows, gutter, startLoc, endLoc, ctxStartLine, ctxEndLine, lineOff);
  }

  // The loop over the context lines.
  method PrintLines(r: Request, b: string, border: seq<Row>, gutter: nat, startLoc: SourceLocation,
                    endLoc: SourceLocation, ctxStartLine: nat, ctxEndLine: nat, firstOff: nat)
    returns (rows: seq<Row>)
    requires startLoc == Location(b, r.Start(b)) && endLoc == Location(b, r.End(b))
    requires 1 <= ctxStartLine == r.ContextFirst(b) <= ctxEndLine == r.ContextLast(b) <= LineCount(b)
    requires gutter == r.Gutter(b) && firstOff == LineStart(b, ctxStartLine)
    ensures rows == border + LinesRows(r, b, ctxStartLine, ctxEndLine + 1)
  {
    hide Location, LineRows, LinesRows, LineStart, Newlines, DigitWidth;
    NoLines(r, b, ctxStartLine);
    rows := border;
    var curLine, lineOff := ctxStartLine, firstOff;
    while curLine <= ctxEndLine
      invariant ctxStartLine <= curLine <= ctxEndLine + 1
      invariant curLine <= ctxEndLine ==> lineOff == LineStart(b, curLine)
      invariant rows == border + LinesRows(r, b, ctxStartLine, curLine)
    {
      var lineRows, lineEndOff := PrintLine(r, b, gutter, startLoc, endLoc, curLine, lineOff);
      rows := rows + lineRows;
      NextLine(r, b, ctxStartLine, curLine);
      WalkForward(b, curLine);
      if lineEndOff >= |b| {
        break;
      }
      lineOff := lineEndOff + 1;
      curLine := curLine + 1;
    }
  }

  // ---- What the rows show ----

  // Numbers are right-aligned: padding and digits fill the gutter on each row.
  lemma GutterAligned(r: Request, b: string, line: nat)
    requires 1 <= line <= r.ContextLast(b) <= LineCount(b)
    requires r.skipLine != line
    ensures LineRows(r, b, line)[0].Text?
    ensures LineRows(r, b, line)[0].pad + |Decimal(line)| == r.Gutter(b)
  {
    WidthIsLength(line);
  }

  lemma OnItsLine(b: string, off: nat)
    requires off <= |b|
    ensures Location(b, off).line <= LineCount(b)
    ensures LineStart(b, Location(b, off).line) <= off <= LineEnd(b, Location(b, off).line)
  {
    IndexAgrees(b, off);
    var line := Location(b, off).line;
    if line < LineCount(b) {
      assert Starts(b, |b|)[line] > off;
    }
  }

  // Column by column: on a line of the span, unless its range had to be widened
  // to one column, a byte is marked exactly when the span contains it.
  lemma MarksAreTheSpan(r: Request, b: string, line: nat, col: nat)
    requires r.First(b) <= line <= r.Last(b) <= LineCount(b)
    requires 1 <= col <= LineEnd(b, line) - LineStart(b, line)
    requires r.FromCol(b, line) < r.BareToCol(b, line)
    ensures r.FromCol(b, line) <= col < r.ToCol(b, line)
       <==> r.Start(b) <= OffsetAt(b, SourceLocation(line, col)) < r.End(b)
  {
    var off := OffsetAt(b, SourceLocation(line, col));
    Invertible(b, r.Start(b));
    Invertible(b, r.End(b));
    OnItsLine(b, r.Start(b));
    LinesApart(b, r.First(b), line);
    LinesApart(b, line, r.Last(b));
  }

  // A range is widened only where the span has no byte of the line's text.
  lemma WidenedIsEmpty(r: Request, b: string, line: nat, col: nat)
    requires r.First(b) <= line <= r.Last(b) <= LineCount(b)
    requires 1 <= col <= LineEnd(b, line) - LineStart(b, line)
    requires r.BareToCol(b, line) <= r.FromCol(b, line)
    ensures !(r.Start(b) <= OffsetAt(b, SourceLocation(line, col)) < r.End(b))
  {
    Invertible(b, r.Start(b));
    Invertible(b, r.End(b));
    WalkForward(b, line);
  }

  // An earlier line ends, newline included, at or before a later one starts.
  lemma LinesApart(b: string, i: nat, j: nat)
    requires 1 <= i <= j <= LineCount(b)
    ensures i < j ==> LineEnd(b, i) < LineStart(b, j)
  {
    if i + 1 < j { StartsSorted(b, |b|, i, j - 1); }
  }

  // ---- The text of the rows ----

  function Times(n: nat, c: char): (t: string)
    ensures |t| == n && forall k :: 0 <= k < n ==> t[k] == c
  {
    if n == 0 then "" else [c] + Times(n - 1, c)
  }

  function Printed(row: Row): string {
    match row
    case Border(g) => " " + Times(g, ' ') + " |"
    case Text(pad, n, t) => " " + Times(pad, ' ') + Decimal(n) + " | " + t
    case Marks(g, indent, width, mark, caption) =>
      " " + Times(g, ' ') + " | " + Times(indent, ' ') + Times(width, mark) + caption
  }

  // The lines of a text, without their newlines.
  function Lines(b: string): (ls: seq<string>)
    ensures |ls| > 0
  {
    if b == "" then [""] else
    var (ls, c) := (Lines(b[..|b| - 1]), b[|b| - 1]);
    if c == '\n' then ls + [""] else ls[..|ls| - 1] + [ls[|ls| - 1] + [c]]
  }

  // Where line `l` of the first `off` bytes ends.
  function CutEnd(b: string, off: nat, l: nat): int
    requires 1 <= l <= |Starts(b, off)|
  {
    if l < |Starts(b, off)| then Starts(b, off)[l] - 1 else off
  }

  lemma PrefixStep(b: string, off: nat)
    requires 0 < off <= |b|
    ensures var ls, c := Lines(b[..off - 1]), b[off - 1];
            Lines(b[..off]) == if c == '\n' then ls + [""] else ls[..|ls| - 1] + [ls[|ls| - 1] + [c]]
  {
    assert b[..off][..off - 1] == b[..off - 1] && b[..off][off - 1] == b[off - 1];
  }

  lemma StartsStep(b: string, off: nat)
    requires 0 < off <= |b|
    ensures Starts(b, off) == if b[off - 1] == '\n' then Starts(b, off - 1) + [off] else Starts(b, off - 1)
  {
    assert Starts(b, off - 1) + [] == Starts(b, off - 1);
  }

  // Line `l` of the first `off` bytes is what the index cuts out.
  predicate CutsOut(b: string, off: nat, l: nat)
    requires off <= |b|
  {
    && |Lines(b[..off])| == |Starts(b, off)| && 1 <= l <= |Starts(b, off)|
    && Starts(b, off)[l - 1] <= CutEnd(b, off, l) <= off
    && Lines(b[..off])[l - 1] == b[Starts(b, off)[l - 1]..CutEnd(b, off, l)]
  }

  lemma AfterNewline(b: string, off: nat, l: nat)
    requires 0 < off <= |b| && b[off - 1] == '\n' && 1 <= l <= |Starts(b, off)|
    requires CutsOut(b, off - 1, Min(l, |Starts(b, off - 1)|))
    ensures CutsOut(b, off, l)
  {
    hide Lines, Starts;
    PrefixStep(b, off);
    StartsStep(b, off);
    var n := |Starts(b, off - 1)|;
    if l <= n {
      assert Lines(b[..off])[l - 1] == Lines(b[..off - 1])[l - 1];
      assert CutEnd(b, off, l) == CutEnd(b, off - 1, l);
    } else {
      assert b[off..off] == "";
    }
  }

  lemma AfterOther(b: string, off: nat, l: nat)
    requires 0 < off <= |b| && b[off - 1] != '\n' && 1 <= l <= |Starts(b, off)|
    requires CutsOut(b, off - 1, l)
    ensures CutsOut(b, off, l)
  {
    hide Lines, Starts;
    PrefixStep(b, off);
    StartsStep(b, off);
    if l == |Starts(b, off)| {
      var k := Starts(b, off)[l - 1];
      assert b[k..off] == b[k..off - 1] + [b[off - 1]];
    }
  }

  lemma {:induction false} LineOfPrefix(b: string, off: nat, l: nat)
    requires off <= |b| && 1 <= l <= |Starts(b, off)|
    ensures CutsOut(b, off, l)
    decreases off
  {
    if off == 0 {
      assert b[..0] == "";
    } else {
      hide Lines, CutsOut, CutEnd;
      LineOfPrefix(b, off - 1, Min(l, |Starts(b, off - 1)|));
      if b[off - 1] == '\n' { AfterNewline(b, off, l); } else { AfterOther(b, off, l); }
    }
  }

  function Min(i: nat, j: nat): nat { if i < j then i else j }

  // The index cuts the text into its lines.
  lemma LineText(b: string, line: nat)
    requires 1 <= line <= LineCount(b)
    ensures |Lines(b)| == LineCount(b) && LineStart(b, line) <= LineEnd(b, line) <= |b|
    ensures b[LineStart(b, line)..LineEnd(b, line)] == Lines(b)[line - 1]
  {
    assert b[..|b|] == b;
    LineOfPrefix(b, |b|, line);
  }

  /** Counting lines and columns is splitting what stands in front: as many lines, and the last of them
      in front of the column. */
  lemma LocationIsSplit(b: string, off: nat)
    requires off <= |b|
    ensures var ls := Lines(b[..off]); Location(b, off) == SourceLocation(|ls|, |ls[|ls| - 1]| + 1)
  {
    LineOfPrefix(b, off, |Starts(b, off)|);
    LastStart(b, off);
  }

  // The first column of the text on every row.
  function TextCol(r: Request, b: string): nat { 1 + r.Gutter(b) + 3 }

  /** The row of a line is its number and its text, aligned. */
  lemma TextRow(r: Request, b: string, line: nat)
    requires 1 <= line <= r.ContextLast(b) <= LineCount(b) && r.skipLine != line
    ensures |LineRows(r, b, line)| >= 1 && |Lines(b)| == LineCount(b)
    ensures var t := Printed(LineRows(r, b, line)[0]);
            && |t| == TextCol(r, b) + |Lines(b)[line - 1]|
            && t[TextCol(r, b)..] == Lines(b)[line - 1]
  {
    hide Lines, Times, DigitWidth, Decimal;
    GutterAligned(r, b, line);
    LineText(b, line);
  }

  /** Under the text stand the marks: below a byte of the line there is the mark exactly when the span
      contains the byte, otherwise a space or nothing; only the caption may stand further right. */
  lemma MarksUnderTheSpan(r: Request, b: string, line: nat, j: nat)
    requires 1 <= r.First(b) <= line <= r.Last(b) <= LineCount(b) == |Lines(b)| && j < |Lines(b)[line - 1]|
    requires r.FromCol(b, line) < r.BareToCol(b, line)
    ensures var rows := LineRows(r, b, line);
            && |rows| > 0
            && var marks := Printed(rows[|rows| - 1]);
               var end := |marks| - |Caption(r, b, line)|;
               var col := TextCol(r, b) + j;
               && 0 <= end && marks[end..] == Caption(r, b, line)
               && (r.Start(b) <= LineStart(b, line) + j < r.End(b) ==>
                   col < end && marks[col] == if r.useCaret then '^' else '-')
               && (!(r.Start(b) <= LineStart(b, line) + j < r.End(b)) ==> end <= col || marks[col] == ' ')
  {
    hide Lines, Times, DigitWidth, Decimal, LineStart, LineEnd, Location, LineCount;
    SpanLines(r, b);
    LineText(b, line);
    MarksAreTheSpan(r, b, line, j + 1);
    MarksRow(r, b, line);
  }

  function Caption(r: Request, b: string, line: nat): string {
    if r.caption != "" && line == r.Last(b) then " " + r.caption else ""
  }

  lemma MarksRow(r: Request, b: string, line: nat)
    requires r.First(b) <= line <= r.Last(b) <= r.ContextLast(b) <= LineCount(b) && 1 <= line
    ensures r.FromCol(b, line) < r.ToCol(b, line) && r.FromCol(b, line) >= 1
    ensures var rows := LineRows(r, b, line);
            && |rows| > 0
            && Printed(rows[|rows| - 1])
               == " " + Times(r.Gutter(b), ' ') + " | " + Times(r.FromCol(b, line) - 1, ' ')
                  + Times(r.ToCol(b, line) - r.FromCol(b, line), if r.useCaret then '^' else '-') + Caption(r, b, line)
  {
    hide Times, DigitWidth, LineStart, LineEnd, LineCount;
  }

  /** A line of the span with no byte of it has one mark, where the span begins. */
  lemma EmptyMark(r: Request, b: string, line: nat)
    requires r.First(b) <= line <= r.Last(b) <= LineCount(b)
    requires r.BareToCol(b, line) <= r.FromCol(b, line)
    ensures var rows := LineRows(r, b, line);
            && |rows| > 0
            && Printed(rows[|rows| - 1])
               == " " + Times(r.Gutter(b), ' ') + " | " + Times(r.FromCol(b, line) - 1, ' ')
                  + [if r.useCaret then '^' else '-'] + Caption(r, b, line)
    ensures line == r.First(b) ==> LineStart(b, line) + (r.FromCol(b, line) - 1) == r.Start(b)
    ensures line != r.First(b) ==> r.FromCol(b, line) == 1
  {
    hide DigitWidth, LineCount;
    SpanLines(r, b);
    MarksRow(r, b, line);
    Invertible(b, r.Start(b));
    var m := if r.useCaret then '^' else '-';
    assert Times(1, m) == [m] + Times(0, m);
  }

  // The numbers of the lines that rows show, and those they mark.
  function Shown(rows: seq<Row>): seq<nat> {
    if rows == [] then [] else
    Shown(rows[..|rows| - 1]) + if rows[|rows| - 1].Text? then [rows[|rows| - 1].number] else []
  }

  lemma {:induction false} ShownCat(a: seq<Row>, c: seq<Row>)
    ensures Shown(a + c) == Shown(a) + Shown(c)
    decreases |c|
  {
    if c == [] {
      assert a + c == a;
    } else {
      assert (a + c)[..|a + c| - 1] == a + c[..|c| - 1];
      ShownCat(a, c[..|c| - 1]);
    }
  }

  function Range(lo: nat, hi: nat, skip: nat): seq<nat> {
    if hi <= lo then [] else Range(lo, hi - 1, skip) + if skip != 0 && skip == hi - 1 then [] else [hi - 1]
  }

  lemma {:induction false} ShownLines(r: Request, b: string, lo: nat, hi: nat)
    requires 1 <= lo && hi <= r.ContextLast(b) + 1 && r.ContextLast(b) <= LineCount(b)
    ensures Shown(LinesRows(r, b, lo, hi)) == Range(lo, hi, r.skipLine)
    decreases hi
  {
    hide LineCount, DigitWidth, LineStart, LineEnd, Location, LineRows, Shown;
    if lo < hi {
      ShownLines(r, b, lo, hi - 1);
      ShownCat(LinesRows(r, b, lo, hi - 1), LineRows(r, b, hi - 1));
      ShownLine(r, b, hi - 1);
    } else {
      ShownNone();
    }
  }

  lemma ShownNone()
    ensures Shown([]) == []
  {
  }

  lemma ShownOne(row: Row)
    ensures Shown([row]) == if row.Text? then [row.number] else []
  {
    assert [row][..0] == [];
  }

  lemma ShownLine(r: Request, b: string, line: nat)
    requires 1 <= line <= r.ContextLast(b) <= LineCount(b)
    ensures Shown(LineRows(r, b, line)) == if r.skipLine != 0 && line == r.skipLine then [] else [line]
  {
    hide Shown, LineCount, DigitWidth, LineStart, LineEnd, Location;
    var rows := LineRows(r, b, line);
    ShownNone();
    if |rows| > 0 { ShownOne(rows[0]); }
    if |rows| == 1 { assert rows == [rows[0]]; }
    if |rows| == 2 {
      ShownOne(rows[1]);
      assert rows == [rows[0]] + [rows[1]];
      ShownCat([rows[0]], [rows[1]]);
    }
  }

  /** The lines shown are those of the span, the one in front if asked for and the one behind if there
      is one, each once and in order, without the line to skip. */
  lemma SnippetShows(r: Request, b: string)
    requires b != ""
    ensures var first := 1 + Newlines(b, r.Start(b));
            var last := 1 + Newlines(b, r.End(b));
            Shown(SnippetRows(r, b)) == Range(if r.showContextBefore && first > 1 then first - 1 else first,
                                              if last < |Lines(b)| then last + 2 else last + 1, r.skipLine)
  {
    hide LinesRows, Lines, DigitWidth, Newlines, LineCount, Shown, Range, LineStart, LineEnd;
    SpanLines(r, b);
    ShownLines(r, b, r.ContextFirst(b), r.ContextLast(b) + 1);
    var rows := LinesRows(r, b, r.ContextFirst(b), r.ContextLast(b) + 1);
    LineText(b, r.Last(b));
    if r.showTopBorder {
      ShownCat([Border(r.Gutter(b))], rows);
      ShownOne(Border(r.Gutter(b)));
    } else {
      assert [] + rows == rows;
    }
  }
}
