/** The terminal renderer: it remembers the frame it drew last and sends only what changed.

The functions describe each rendering path as a change of the renderer's fields and of the screen; the
class below them carries out the same paths step by step on a terminal it updates in place. */
module Rendering {
  import opened Basics
  import opened Lines
  import opened Screens

  datatype Surface = Inline | Clearing

  datatype Strategy = FullRedraw | Differential(first: nat, last: nat) | NoChange

  datatype Outcome = Drawn(strategy: Strategy, lineCount: nat) | LineTooWide(index: nat)

  /** The renderer's fields between two frames. */
  datatype Fields = Fields(
    surface: Surface,
    lines: seq<Line>,
    width: nat,
    height: nat,
    viewportTop: nat,
    ownedRows: nat,
    renderedOnce: bool,
    cursorRow: nat,
    cursorVisible: bool)

  type Drawing = (Fields, Screen)

  function Initial(surface: Surface): Fields
  {
    Fields(surface, [], 0, 0, 0, 0, false, 0, false)
  }

  /** The cast of an integer to 16 signed bits. */
  function AsI16(n: int): (r: int)
    ensures -0x8000 <= r < 0x8000 && (r - n) % 0x1_0000 == 0
  {
    if -0x8000 <= n < 0x8000 then n else (n + 0x8000) % 0x1_0000 - 0x8000
  }

  /** The difference of two rows in 16-bit arithmetic that wraps around. */
  function RowDelta(target: nat, current: nat): int { AsI16(AsI16(target) - AsI16(current)) }

  // ---------------------------------------------------------------- which lines changed

  /** First and last differing index among the first `k` lines of both frames. */
  function ChangesBelow(previous: seq<Line>, next: seq<Line>, k: nat): (r: Option<(nat, nat)>)
    requires k <= |previous| && k <= |next|
    ensures r.None? ==> previous[..k] == next[..k]
    ensures r.Some? ==>
              && r.value.0 <= r.value.1 < k
              && previous[..r.value.0] == next[..r.value.0]
              && previous[r.value.0] != next[r.value.0]
              && previous[r.value.1] != next[r.value.1]
              && forall i :: r.value.1 < i < k ==> previous[i] == next[i]
  {
    if k == 0 then None else
      var below := ChangesBelow(previous, next, k - 1);
      if previous[k - 1] == next[k - 1] then below
      else if below.None? then Some((k - 1, k - 1))
      else Some((below.value.0, k - 1))
  }

  function ChangedRange(previous: seq<Line>, next: seq<Line>): (r: Option<(nat, nat)>)
    ensures r.None? <==> previous == next
    ensures r.Some? ==>
              && r.value.0 <= r.value.1 < Max(|previous|, |next|)
              && r.value.0 <= |previous| && r.value.0 <= |next|
              && previous[..r.value.0] == next[..r.value.0]
              && (|previous| != |next| ==> r.value.1 == Max(|previous|, |next|) - 1)
              && (r.value.0 < |previous| && r.value.0 < |next| ==> previous[r.value.0] != next[r.value.0])
              && forall i :: r.value.1 < i < |previous| && i < |next| ==> previous[i] == next[i]
  {
    var shared := Min(|previous|, |next|);
    var changes := ChangesBelow(previous, next, shared);
    if |previous| != |next| then
      Some((if changes.Some? then changes.value.0 else shared, Max(|previous|, |next|) - 1))
    else
      assert previous[..shared] == previous && next[..shared] == next;
      changes
  }

  // ---------------------------------------------------------------- rendering paths

  /** A line is written, and a new line follows unless it is the last. */
  function WriteOne(u: Screen, line: Line, more: bool): Screen
  {
    var t := Write(u, line);
    if more then NewLine(t) else t
  }

  /** The screen after the first `k` of the lines were written, a new line between each two. */
  function WriteLines(s: Screen, lines: seq<Line>, k: nat): (t: Screen)
    requires k <= |lines|
  {
    if k == 0 then s else WriteOne(WriteLines(s, lines, k - 1), lines[k - 1], k < |lines|)
  }

  /** A row is cleared and rewritten, and a new line follows unless it is the last. */
  function RewriteOne(u: Screen, line: Option<Line>, more: bool): Screen
  {
    var cleared := ClearLine(CarriageReturn(u));
    var t := if line.Some? then Write(cleared, line.value) else cleared;
    if more then NewLine(t) else t
  }

  /** The screen after the first `k` of `count` rows were cleared and rewritten. */
  function RewriteRows(s: Screen, lines: seq<Line>, count: nat, k: nat): (t: Screen)
    requires k <= count
  {
    if k == 0 then s else
      RewriteOne(RewriteRows(s, lines, count, k - 1), if k - 1 < |lines| then Some(lines[k - 1]) else None, k < count)
  }

  function MoveToLogicalRow(f: Fields, s: Screen, target: nat): (d: Drawing)
  {
    var delta := RowDelta(SaturatingSub(target, f.viewportTop), SaturatingSub(f.cursorRow, f.viewportTop));
    (f.(cursorRow := target), MoveBy(s, delta))
  }

  /** The screen with the cursor at the start of a logical row. */
  function AtRow(f: Fields, s: Screen, target: nat): Screen
  {
    MoveToColumn(MoveToLogicalRow(f, s, target).1, 0)
  }

  function FullInline(f: Fields, s: Screen, lines: seq<Line>): (d: Drawing)
  {
    var g, t := f.(cursorVisible := false), SetVisible(s, false);
    if f.renderedOnce then
      var top := ViewportTop(|lines|, s.height);
      var onShow := lines[top..];
      var count := Min(Max(f.ownedRows, |onShow|), s.height);
      if count > 0 then
        (g.(cursorRow := top + count - 1), RewriteRows(AtRow(g, t, f.viewportTop), onShow, count, count))
      else (g, t)
    else
      (g.(cursorRow := SaturatingSub(|lines|, 1)), WriteLines(t, lines, |lines|))
  }

  /** Lines were added below the old ones: step below the last of them and go on. */
  function AppendInline(f: Fields, s: Screen, lines: seq<Line>, first: nat): (d: Drawing)
    requires 0 < first <= |lines|
  {
    (f.(cursorRow := SaturatingSub(|lines|, 1)),
     WriteLines(NewLine(AtRow(f, s, first - 1)), lines[first..], |lines| - first))
  }

  /** How many of the lines `first .. last` there are among `count`. */
  function Touched(first: nat, last: nat, count: nat): nat
    requires first <= last
  {
    if first < count then Min(last, count - 1) - first + 1 else 0
  }

  /** Lines `first .. last` changed: clear and rewrite those rows. */
  function ChangeInline(f: Fields, s: Screen, lines: seq<Line>, first: nat, last: nat): (d: Drawing)
    requires first <= last && first <= |lines| && first <= |f.lines|
  {
    var toWrite := Touched(first, last, |lines|);
    var toClear := Touched(first, last, |f.lines|);
    var count := Max(toWrite, toClear);
    (f.(cursorRow := if count == 0 then first else first + count - 1),
     RewriteRows(AtRow(f, s, first), lines[first..first + toWrite], count, count))
  }

  function DifferentialInline(f: Fields, s: Screen, lines: seq<Line>, first: nat, last: nat): (d: Drawing)
    requires first <= last && first <= |lines| && first <= |f.lines|
  {
    if first < f.viewportTop then
      FullInline(f, s, lines)
    else if |lines| > |f.lines| && first == |f.lines| && first > 0 then
      AppendInline(f, s, lines, first)
    else
      ChangeInline(f, s, lines, first, last)
  }

  function FullClearing(f: Fields, s: Screen, lines: seq<Line>): (d: Drawing)
  {
    (f.(cursorVisible := false, cursorRow := SaturatingSub(|lines|, 1), ownedRows := Min(|lines|, s.height)),
     WriteLines(ClearScreen(SetVisible(s, false)), lines, |lines|))
  }

  function DifferentialClearing(f: Fields, s: Screen, lines: seq<Line>, first: nat): (d: Drawing)
    requires first <= |lines|
  {
    var moved := MoveToColumn(MoveBy(s, RowDelta(first, f.cursorRow)), 0);
    (f.(cursorRow := SaturatingSub(|lines|, 1)),
     WriteLines(ClearFromCursor(moved), lines[first..], |lines| - first))
  }

  function PositionCursor(f: Fields, s: Screen, cursor: Option<CursorPosition>): (d: Drawing)
  {
    match cursor
    case None => if f.cursorVisible then (f.(cursorVisible := false), SetVisible(s, false)) else (f, s)
    case Some(c) =>
      var delta := RowDelta(SaturatingSub(c.row, f.viewportTop), SaturatingSub(f.cursorRow, f.viewportTop));
      var t := MoveToColumn(MoveBy(s, delta), c.col);
      (f.(cursorVisible := true, cursorRow := c.row), if f.cursorVisible then t else SetVisible(t, true))
  }

  function ChooseStrategy(f: Fields, s: Screen, lines: seq<Line>): Strategy
  {
    if f.width == 0 || f.height == 0 || f.width != s.width || f.height != s.height then FullRedraw
    else if |lines| < |f.lines| then FullRedraw
    else match ChangedRange(f.lines, lines)
      case None => NoChange
      case Some((first, last)) => Differential(first, last)
  }

  predicate Applies(f: Fields, lines: seq<Line>, strategy: Strategy)
  {
    strategy.Differential? ==>
      strategy.first <= strategy.last && strategy.first <= |lines| && strategy.first <= |f.lines|
  }

  function DrawInline(f: Fields, s: Screen, lines: seq<Line>, strategy: Strategy): Drawing
    requires Applies(f, lines, strategy)
  {
    match strategy
    case NoChange => (f, s)
    case FullRedraw => FullInline(f, s, lines)
    case Differential(first, last) => DifferentialInline(f, s, lines, first, last)
  }

  function DrawClearing(f: Fields, s: Screen, lines: seq<Line>, strategy: Strategy): Drawing
    requires Applies(f, lines, strategy)
  {
    match strategy
    case NoChange => (f, s)
    case FullRedraw => FullClearing(f, s, lines)
    case Differential(first, _) => DifferentialClearing(f, s, lines, first)
  }

  function Draw(f: Fields, s: Screen, lines: seq<Line>): Drawing
  {
    var strategy := ChooseStrategy(f, s, lines);
    if f.surface.Inline? then DrawInline(f, s, lines, strategy) else DrawClearing(f, s, lines, strategy)
  }

  /** What follows the drawing: the fields take the new frame, the cursor goes where it wants it. */
  function Settle(d: Drawing, lines: seq<Line>, cursor: Option<CursorPosition>): Drawing
  {
    var (g, t) := d;
    var g' := g.(viewportTop := ViewportTop(|lines|, t.height), ownedRows := Min(|lines|, t.height),
                 renderedOnce := true);
    var (h, u) := PositionCursor(g', t, cursor);
    (h.(lines := lines, width := u.width, height := u.height), u)
  }

  /** One call of the renderer with the frame its components produced. A frame with a line that is too
      wide changes nothing. */
  function Render(f: Fields, s: Screen, frame: seq<Line>): (d: Drawing)
  {
    var lines := LinesOf(frame, s.height);
    if Fits(lines, s.width) then Settle(Draw(f, s, lines), lines, CursorOf(frame, s.height)) else (f, s)
  }

  // ---------------------------------------------------------------- the renderer itself

  method TakeMarker(frame: seq<Line>, height: nat) returns (lines: seq<Line>, cursor: Option<CursorPosition>)
    ensures lines == LinesOf(frame, height) && cursor == CursorOf(frame, height)
  {
    var buffer := new Line[|frame|](i requires 0 <= i < |frame| => frame[i]);
    assert buffer[..] == frame;
    cursor := ExtractCursorMarker(buffer, height);
    lines := buffer[..];
  }

  method FirstTooWide(lines: seq<Line>, width: nat) returns (r: Option<nat>)
    ensures r.None? <==> Fits(lines, width)
    ensures r.Some? ==> r.value < |lines| && VisibleWidth(lines[r.value]) > width && Fits(lines[..r.value], width)
  {
    for index := 0 to |lines|
      invariant Fits(lines[..index], width)
    {
      if VisibleWidth(lines[index]) > width {
        return Some(index);
      }
    }
    return None;
  }

  class Tui {
    const surface: Surface
    const terminal: Terminal
    var previousLines: seq<Line>
    var previousWidth: nat
    var previousHeight: nat
    var previousViewportTop: nat
    var ownedRows: nat
    var renderedOnce: bool
    var hardwareCursorRow: nat
    var hardwareCursorVisible: bool

    ghost function State(): Fields
      reads this
    {
      Fields(surface, previousLines, previousWidth, previousHeight, previousViewportTop, ownedRows,
             renderedOnce, hardwareCursorRow, hardwareCursorVisible)
    }

    /** Fields and screen together. */
    ghost function Now(): Drawing
      reads this, terminal
    {
      (State(), terminal.Contents())
    }

    constructor (surface: Surface, terminal: Terminal)
      ensures State() == Initial(surface) && this.terminal == terminal
    {
      this.surface, this.terminal := surface, terminal;
      previousLines, previousWidth, previousHeight, previousViewportTop := [], 0, 0, 0;
      ownedRows, renderedOnce, hardwareCursorRow, hardwareCursorVisible := 0, false, 0, false;
    }

    method PutLines(lines: seq<Line>)
      modifies terminal
      ensures terminal.Contents() == WriteLines(old(terminal.Contents()), lines, |lines|)
    {
      ghost var before := terminal.Contents();
      for index := 0 to |lines|
        invariant terminal.Contents() == WriteLines(before, lines, index)
      {
        terminal.Put(lines[index]);
        if index + 1 < |lines| {
          terminal.LineFeed();
        }
      }
    }

    method Rewrite(startRow: nat, lines: seq<Line>, count: nat)
      modifies this`hardwareCursorRow, terminal
      ensures terminal.Contents() == RewriteRows(old(terminal.Contents()), lines, count, count)
      ensures hardwareCursorRow == if count == 0 then old(hardwareCursorRow) else startRow + count - 1
    {
      if count == 0 {
        return;
      }
      ghost var before := terminal.Contents();
      for offset := 0 to count
        invariant terminal.Contents() == RewriteRows(before, lines, count, offset)
        invariant hardwareCursorRow == old(hardwareCursorRow)
      {
        terminal.Return();
        terminal.EraseLine();
        if offset < |lines| {
          terminal.Put(lines[offset]);
        }
        if offset + 1 < count {
          terminal.LineFeed();
        }
      }
      hardwareCursorRow := startRow + count - 1;
    }

    method GoToLogicalRow(target: nat)
      modifies this`hardwareCursorRow, terminal
      ensures Now() == MoveToLogicalRow(old(State()), old(terminal.Contents()), target)
    {
      var to := AsI16(SaturatingSub(target, previousViewportTop));
      var from := AsI16(SaturatingSub(hardwareCursorRow, previousViewportTop));
      terminal.Move(AsI16(to - from));
      hardwareCursorRow := target;
    }

    method GoToStartOf(target: nat)
      modifies this`hardwareCursorRow, terminal
      ensures State() == old(State()).(cursorRow := target)
      ensures terminal.Contents() == AtRow(old(State()), old(terminal.Contents()), target)
    {
      GoToLogicalRow(target);
      terminal.Column(0);
    }

    method RenderFullInline(lines: seq<Line>)
      modifies this`hardwareCursorRow, this`hardwareCursorVisible, terminal
      ensures Now() == FullInline(old(State()), old(terminal.Contents()), lines)
    {
      terminal.Show(false);
      hardwareCursorVisible := false;
      if renderedOnce {
        var top := ViewportTop(|lines|, terminal.height);
        var onShow := lines[top..];
        var count := Min(Max(ownedRows, |onShow|), terminal.height);
        if count > 0 {
          GoToLogicalRow(previousViewportTop);
          terminal.Column(0);
          Rewrite(top, onShow, count);
        }
      } else {
        PutLines(lines);
        hardwareCursorRow := SaturatingSub(|lines|, 1);
      }
    }

    method RenderAppended(lines: seq<Line>, first: nat)
      requires 0 < first <= |lines|
      modifies this`hardwareCursorRow, terminal
      ensures Now() == AppendInline(old(State()), old(terminal.Contents()), lines, first)
    {
      GoToLogicalRow(first - 1);
      terminal.Column(0);
      terminal.LineFeed();
      PutLines(lines[first..]);
      hardwareCursorRow := SaturatingSub(|lines|, 1);
    }

    method RenderChanged(lines: seq<Line>, first: nat, last: nat)
      requires first <= last && first <= |lines| && first <= |previousLines|
      modifies this`hardwareCursorRow, terminal
      ensures Now() == ChangeInline(old(State()), old(terminal.Contents()), lines, first, last)
    {
      GoToStartOf(first);
      var toWrite := Touched(first, last, |lines|);
      var toClear := Touched(first, last, |previousLines|);
      Rewrite(first, lines[first..first + toWrite], Max(toWrite, toClear));
    }

    method RenderDifferentialInline(lines: seq<Line>, first: nat, last: nat)
      requires first <= last && first <= |lines| && first <= |previousLines|
      modifies this`hardwareCursorRow, this`hardwareCursorVisible, terminal
      ensures Now() == DifferentialInline(old(State()), old(terminal.Contents()), lines, first, last)
    {
      if first < previousViewportTop {
        RenderFullInline(lines);
        return;
      }
      var appended := |lines| > |previousLines| && first == |previousLines|;
      if appended && first > 0 {
        RenderAppended(lines, first);
      } else {
        RenderChanged(lines, first, last);
      }
    }

    method RenderFullClearing(lines: seq<Line>)
      modifies this`hardwareCursorRow, this`hardwareCursorVisible, this`ownedRows, terminal
      ensures Now() == FullClearing(old(State()), old(terminal.Contents()), lines)
    {
      terminal.Show(false);
      hardwareCursorVisible := false;
      terminal.EraseAll();
      PutLines(lines);
      hardwareCursorRow := SaturatingSub(|lines|, 1);
      ownedRows := Min(|lines|, terminal.height);
    }

    method RenderDifferentialClearing(lines: seq<Line>, first: nat)
      requires first <= |lines|
      modifies this`hardwareCursorRow, terminal
      ensures Now() == DifferentialClearing(old(State()), old(terminal.Contents()), lines, first)
    {
      terminal.Move(AsI16(AsI16(first) - AsI16(hardwareCursorRow)));
      terminal.Column(0);
      terminal.EraseBelow();
      PutLines(lines[first..]);
      hardwareCursorRow := SaturatingSub(|lines|, 1);
    }

    method PositionHardwareCursor(cursor: Option<CursorPosition>)
      modifies this`hardwareCursorRow, this`hardwareCursorVisible, terminal
      ensures Now() == PositionCursor(old(State()), old(terminal.Contents()), cursor)
    {
      match cursor
      case None =>
        if hardwareCursorVisible {
          terminal.Show(false);
          hardwareCursorVisible := false;
        }
      case Some(c) =>
        GoToLogicalRow(c.row);
        terminal.Column(c.col);
        if !hardwareCursorVisible {
          terminal.Show(true);
          hardwareCursorVisible := true;
        }
    }

    /** First and last changed line, by one pass over the lines both frames have. */
    method ChangedLineRange(next: seq<Line>) returns (r: Option<(nat, nat)>)
      ensures r == ChangedRange(previousLines, next)
    {
      var shared := Min(|previousLines|, |next|);
      var changes: Option<(nat, nat)> := None;
      for index := 0 to shared
        invariant changes == ChangesBelow(previousLines, next, index)
      {
        if previousLines[index] != next[index] {
          changes := if changes.None? then Some((index, index)) else Some((changes.value.0, index));
        }
      }
      if |previousLines| != |next| {
        var first := if changes.Some? then changes.value.0 else shared;
        return Some((first, SaturatingSub(Max(|previousLines|, |next|), 1)));
      }
      return changes;
    }

    method RenderLines(lines: seq<Line>) returns (strategy: Strategy)
      modifies this`hardwareCursorRow, this`hardwareCursorVisible, this`ownedRows, terminal
      ensures strategy == ChooseStrategy(old(State()), old(terminal.Contents()), lines)
      ensures Now() == Draw(old(State()), old(terminal.Contents()), lines)
    {
      var resized := previousWidth == 0 || previousHeight == 0
                     || previousWidth != terminal.width || previousHeight != terminal.height;
      if resized || |lines| < |previousLines| {
        if surface == Inline {
          RenderFullInline(lines);
        } else {
          RenderFullClearing(lines);
        }
        return FullRedraw;
      }
      var range := ChangedLineRange(lines);
      match range
      case None => return NoChange;
      case Some((first, last)) =>
        if surface == Inline {
          RenderDifferentialInline(lines, first, last);
        } else {
          RenderDifferentialClearing(lines, first);
        }
        return Differential(first, last);
    }

    method ShowLines(lines: seq<Line>, cursor: Option<CursorPosition>) returns (strategy: Strategy)
      modifies this, terminal
      ensures strategy == ChooseStrategy(old(State()), old(terminal.Contents()), lines)
      ensures Now() == Settle(Draw(old(State()), old(terminal.Contents()), lines), lines, cursor)
    {
      strategy := RenderLines(lines);
      previousViewportTop := ViewportTop(|lines|, terminal.height);
      ownedRows := Min(|lines|, terminal.height);
      renderedOnce := true;
      PositionHardwareCursor(cursor);
      previousLines := lines;
      previousWidth, previousHeight := terminal.width, terminal.height;
    }

    /** Draws a frame. What the new screen shows is the subject of `InlineStep` and `ClearingStep`. */
    method RenderOnce(frame: seq<Line>) returns (r: Outcome)
      modifies this, terminal
      ensures Now() == Render(old(State()), old(terminal.Contents()), frame)
      ensures r.Drawn? <==> forall i :: 0 <= i < |frame| ==> |frame[i].cells| <= terminal.width
      ensures r.Drawn? ==>
                && r.lineCount == |frame|
                && r.strategy == ChooseStrategy(old(State()), old(terminal.Contents()), LinesOf(frame, terminal.height))
      ensures r.LineTooWide? ==>
                && r.index < |frame| && |frame[r.index].cells| > terminal.width
                && (forall i :: 0 <= i < r.index ==> |frame[i].cells| <= terminal.width)
                && Now() == old(Now())
    {
      MarkerIsTakenOut(frame, terminal.height);
      var lines, cursor := TakeMarker(frame, terminal.height);
      var tooWide := FirstTooWide(lines, terminal.width);
      if tooWide.Some? {
        return LineTooWide(tooWide.value);
      }
      var strategy := ShowLines(lines, cursor);
      return Drawn(strategy, |lines|);
    }
  }
}
