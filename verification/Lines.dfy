/** Lines as the renderer sees them, and the cursor marker hidden inside a frame.

A line of text is the columns it fills on screen, together with the control sequences in it, each with
the column it stands before. The cursor marker is one of those control sequences. */
module Lines {

  import opened Basics

  /** One column of a terminal row: the k-th column of a glyph. */
  datatype Cell = Cell(glyph: string, offset: nat)

  datatype Control = Control(code: string, column: nat)

  datatype Line = Line(cells: seq<Cell>, controls: seq<Control>)

  /** A terminal row, as what happened to it since it was last blank: cells written over it from some
      column on, or everything from some column on erased. */
  datatype Row = Blank | Over(below: Row, col: nat, cells: seq<Cell>) | Erased(below: Row, col: nat)

  datatype CursorPosition = CursorPosition(row: nat, col: nat)

  const CURSOR_MARKER := "_pi:c"

  function VisibleWidth(line: Line): nat { |line.cells| }

  /** What a reader sees in a column of a row. */
  function Look(row: Row, column: nat): Option<Cell>
  {
    match row
    case Blank => None
    case Over(below, col, cells) =>
      if col <= column < col + |cells| then Some(cells[column - col]) else Look(below, column)
    case Erased(below, col) => if col <= column then None else Look(below, column)
  }

  /** The row that shows a line written from column 0 onto a blank row. */
  function RowOf(line: Line): Row { Over(Blank, 0, line.cells) }

  lemma LookOf(line: Line, c: nat)
    ensures Look(RowOf(line), c) == if c < |line.cells| then Some(line.cells[c]) else None
  {
    assert Look(Blank, c) == None;
  }

  /** Two lines look alike on blank rows exactly when their rows are the same. */
  lemma SameLookSameRow(a: Line, b: Line)
    ensures (forall c: nat :: Look(RowOf(a), c) == Look(RowOf(b), c)) <==> RowOf(a) == RowOf(b)
  {
    if RowOf(a) != RowOf(b) {
      if |a.cells| == |b.cells| {
        var c :| 0 <= c < |a.cells| && a.cells[c] != b.cells[c];
        assert Look(RowOf(a), c) != Look(RowOf(b), c);
      } else {
        var c := Min(|a.cells|, |b.cells|);
        LookOf(a, c);
        LookOf(b, c);
        assert Look(RowOf(a), c) != Look(RowOf(b), c);
      }
    }
  }

  predicate Fits(lines: seq<Line>, width: nat)
  {
    forall i :: 0 <= i < |lines| ==> VisibleWidth(lines[i]) <= width
  }

  /** First logical line that a window of the given height shows. */
  function ViewportTop(count: nat, height: nat): nat
  {
    SaturatingSub(count, height)
  }

  // ---------------------------------------------------------------- cursor marker

  /** Position among the control sequences of the first marker, or their number if there is none. */
  function MarkerIndex(controls: seq<Control>): (i: nat)
    ensures i <= |controls|
    ensures i < |controls| ==> controls[i].code == CURSOR_MARKER
    ensures forall j :: 0 <= j < i ==> controls[j].code != CURSOR_MARKER
  {
    if controls == [] || controls[0].code == CURSOR_MARKER then 0 else 1 + MarkerIndex(controls[1..])
  }

  predicate HasMarker(line: Line) { MarkerIndex(line.controls) < |line.controls| }

  /** The line without its first marker. Control sequences fill no column: the cells stay. */
  function Unmarked(line: Line): (r: Line)
    requires HasMarker(line)
  {
    var i := MarkerIndex(line.controls);
    line.(controls := line.controls[..i] + line.controls[i + 1..])
  }

  function MarkerColumn(line: Line): nat
    requires HasMarker(line)
  {
    line.controls[MarkerIndex(line.controls)].column
  }

  /** The result of searching rows `start .. end` from the bottom for a marker. */
  function LastMarkedRow(lines: seq<Line>, start: nat, end: nat): (r: Option<nat>)
    requires start <= end <= |lines|
    ensures r.Some? ==>
              && start <= r.value < end
              && HasMarker(lines[r.value])
              && forall i :: r.value < i < end ==> !HasMarker(lines[i])
    ensures r.None? ==> forall i :: start <= i < end ==> !HasMarker(lines[i])
    decreases end - start
  {
    if start == end then None
    else if HasMarker(lines[end - 1]) then Some(end - 1)
    else LastMarkedRow(lines, start, end - 1)
  }

  /** The cursor a frame asks for: the first marker of the bottom-most marked row on show. */
  function CursorOf(frame: seq<Line>, height: nat): (c: Option<CursorPosition>)
    ensures c.Some? ==> ViewportTop(|frame|, height) <= c.value.row < |frame|
  {
    match LastMarkedRow(frame, ViewportTop(|frame|, height), |frame|)
    case None => None
    case Some(row) => Some(CursorPosition(row, MarkerColumn(frame[row])))
  }

  /** The frame with that one marker taken out. */
  function LinesOf(frame: seq<Line>, height: nat): (lines: seq<Line>)
    ensures |lines| == |frame|
  {
    match LastMarkedRow(frame, ViewportTop(|frame|, height), |frame|)
    case None => frame
    case Some(row) => frame[row := Unmarked(frame[row])]
  }

  /** No control sequence of the line is the marker. */
  predicate HasNoMarker(line: Line) { forall k :: 0 <= k < |line.controls| ==> line.controls[k].code != CURSOR_MARKER }

  /** The first marker of a line is its control sequence `m`, in column `col`; without it the line is `bare`. */
  predicate TakenOut(line: Line, bare: Line, m: nat, col: nat)
  {
    && m < |line.controls| && line.controls[m].code == CURSOR_MARKER && line.controls[m].column == col
    && (forall k :: 0 <= k < m ==> line.controls[k].code != CURSOR_MARKER)
    && bare.cells == line.cells && bare.controls == line.controls[..m] + line.controls[m + 1..]
  }

  /** Of a frame one marker is taken out at most: the first of the last marked line among the last `height` ones. No
      text is lost, and every other line stays as it is. */
  ghost predicate WithoutMarker(frame: seq<Line>, height: nat, lines: seq<Line>, cursor: Option<CursorPosition>)
  {
    && |lines| == |frame| && (forall i :: 0 <= i < |frame| ==> lines[i].cells == frame[i].cells)
    && match cursor
       case None => lines == frame && forall i :: 0 <= i < |frame| && i + height >= |frame| ==> HasNoMarker(frame[i])
       case Some(c) =>
         && c.row < |frame| <= c.row + height
         && (exists m: nat :: TakenOut(frame[c.row], lines[c.row], m, c.col))
         && (forall i :: 0 <= i < |frame| && i != c.row ==> lines[i] == frame[i])
         && forall i :: c.row < i < |frame| ==> HasNoMarker(frame[i])
  }

  lemma MarkerMeans(line: Line)
    ensures HasMarker(line) <==> !HasNoMarker(line)
    ensures HasMarker(line) ==> TakenOut(line, Unmarked(line), MarkerIndex(line.controls), MarkerColumn(line))
  {
  }

  /** That is what is done to every frame. */
  lemma MarkerIsTakenOut(frame: seq<Line>, height: nat)
    ensures WithoutMarker(frame, height, LinesOf(frame, height), CursorOf(frame, height))
  {
    var found := LastMarkedRow(frame, ViewportTop(|frame|, height), |frame|);
    forall i | 0 <= i < |frame| ensures HasMarker(frame[i]) <==> !HasNoMarker(frame[i]) { MarkerMeans(frame[i]); }
    if found.Some? { MarkerMeans(frame[found.value]); }
  }

  /** In-place extraction: a reverse scan over the rows on show that edits the matching line. */
  method ExtractCursorMarker(lines: array<Line>, height: nat) returns (cursor: Option<CursorPosition>)
    modifies lines
    ensures cursor == CursorOf(old(lines[..]), height)
    ensures lines[..] == LinesOf(old(lines[..]), height)
    ensures WithoutMarker(old(lines[..]), height, lines[..], cursor)
  {
    MarkerIsTakenOut(lines[..], height);
    var start := ViewportTop(lines.Length, height);
    ghost var frame := lines[..];
    var row := lines.Length;
    while row > start
      invariant start <= row <= lines.Length
      invariant lines[..] == frame
      invariant LastMarkedRow(frame, start, |frame|) == LastMarkedRow(frame, start, row)
    {
      row := row - 1;
      if HasMarker(lines[row]) {
        var line := lines[row];
        cursor := Some(CursorPosition(row, MarkerColumn(line)));
        lines[row] := Unmarked(line);
        assert lines[..] == frame[row := Unmarked(line)];
        return;
      }
    }
    cursor := None;
  }
}
