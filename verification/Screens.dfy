/** What a terminal does with the operations the renderer sends it.

A screen is an endless tape of rows that are blank until written. `height` of them are the window; the
rows above it are scrollback. A new line on the bottom row of the window scrolls: the window moves one
row down the tape, onto a blank row. Vertical moves stop at the edges of the window, and the erase
operations blank cells (CUU, CUD, CHA, EL and ED in section 8.3 of ECMA-48).

Text that runs past the right margin stays on its row, as in the terminal of the repository's tests. A real
terminal may wrap there. `overrun` remembers whether it ever happened. */
module Screens {
  import opened Basics
  import opened Lines

  datatype Screen = Screen(
    width: nat,
    height: nat,
    rows: map<nat, Row>,
    top: nat,
    row: nat,
    col: nat,
    visible: bool,
    overrun: bool)
  {
    ghost predicate Valid()
    {
      && 1 <= width && 1 <= height
      && top <= row < top + height
    }
  }

  /** Row `i` of a tape. */
  function RowAt(rows: map<nat, Row>, i: int): (r: Row)
  {
    if i in rows then rows[i] else Blank
  }

  /** Writing a line from the cursor on. */
  function Write(s: Screen, line: Line): (t: Screen)
  {
    s.(rows := s.rows[s.row := Over(RowAt(s.rows, s.row), s.col, line.cells)],
       col := s.col + VisibleWidth(line),
       overrun := s.overrun || s.col + VisibleWidth(line) > s.width)
  }

  function NewLine(s: Screen): (t: Screen)
  {
    if s.row + 1 < s.top + s.height then
      s.(row := s.row + 1, col := 0)
    else
      s.(top := s.top + 1, row := s.row + 1, col := 0)
  }

  function CarriageReturn(s: Screen): (t: Screen)
  {
    s.(col := 0)
  }

  function MoveBy(s: Screen, delta: int): (t: Screen)
  {
    s.(row := Max(s.top, Min(s.top + s.height - 1, s.row + delta)))
  }

  function MoveToColumn(s: Screen, column: nat): (t: Screen)
  {
    s.(col := if column < s.width then column else SaturatingSub(s.width, 1))
  }

  function ClearLine(s: Screen): (t: Screen)
  {
    s.(rows := s.rows[s.row := Blank])
  }

  /** The tape with every row from `from` on blank. */
  function Above(rows: map<nat, Row>, from: nat): map<nat, Row>
  {
    map i | i in rows && i < from :: rows[i]
  }

  function EraseFrom(row: Row, col: nat): Row
  {
    if col == 0 then Blank else Erased(row, col)
  }

  function ClearFromCursor(s: Screen): (t: Screen)
  {
    s.(rows := Above(s.rows, s.row)[s.row := EraseFrom(RowAt(s.rows, s.row), s.col)])
  }

  function ClearScreen(s: Screen): (t: Screen)
  {
    s.(rows := Above(s.rows, s.top), row := s.top, col := 0)
  }

  function SetVisible(s: Screen, visible: bool): (t: Screen)
  {
    s.(visible := visible)
  }

  /** A terminal that keeps its screen up to date in place. */
  class Terminal {
    const width: nat
    const height: nat
    var rows: map<nat, Row>
    var top: nat
    var row: nat
    var col: nat
    var visible: bool
    ghost var overrun: bool

    ghost function Contents(): Screen
      reads this
    {
      Screen(width, height, rows, top, row, col, visible, overrun)
    }

    constructor (s: Screen)
      ensures Contents() == s
    {
      width, height := s.width, s.height;
      rows, top, row, col, visible, overrun := s.rows, s.top, s.row, s.col, s.visible, s.overrun;
    }

    method Put(line: Line)
      modifies this
      ensures Contents() == Write(old(Contents()), line)
    {
      var cells := line.cells;
      rows := rows[row := Over(RowAt(rows, row), col, cells)];
      overrun := overrun || col + |cells| > width;
      col := col + |cells|;
    }

    method LineFeed()
      modifies this
      ensures Contents() == NewLine(old(Contents()))
    {
      if row + 1 >= top + height {
        top := top + 1;
      }
      row := row + 1;
      col := 0;
    }

    method Return()
      modifies this
      ensures Contents() == CarriageReturn(old(Contents()))
    {
      col := 0;
    }

    method Move(delta: int)
      modifies this
      ensures Contents() == MoveBy(old(Contents()), delta)
    {
      row := Max(top, Min(top + height - 1, row + delta));
    }

    method Column(column: nat)
      modifies this
      ensures Contents() == MoveToColumn(old(Contents()), column)
    {
      col := if column < width then column else SaturatingSub(width, 1);
    }

    method EraseLine()
      modifies this
      ensures Contents() == ClearLine(old(Contents()))
    {
      rows := rows[row := Blank];
    }

    method EraseBelow()
      modifies this
      ensures Contents() == ClearFromCursor(old(Contents()))
    {
      rows := Above(rows, row)[row := EraseFrom(RowAt(rows, row), col)];
    }

    method EraseAll()
      modifies this
      ensures Contents() == ClearScreen(old(Contents()))
    {
      rows := Above(rows, top);
      row, col := top, 0;
    }

    method Show(on: bool)
      modifies this
      ensures Contents() == SetVisible(old(Contents()), on)
    {
      visible := on;
    }
  }
}
