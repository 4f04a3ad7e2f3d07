/** The clearing surface: it agrees with a full redraw except in one family of steps, which is named
exactly.

When lines are only added below a frame that already fills the window, the renderer asks the terminal to
move one row below the last line. The terminal stops at the bottom of the window instead, so the last line
of the old frame is erased and the rows above it stay one row too low. */
module ClearingProofs {
  import opened Basics
  import opened Lines
  import opened Screens
  import opened Rendering
  import opened RenderProofs

  /** What every call keeps on this surface: the region starts at the top of the window, and size, last frame
      and cursor are as the fields say. The rows on show may be wrong. */
  ghost predicate Aligned(f: Fields, s: Screen)
  {
    && f.surface.Clearing? && s.Valid() && s.height <= 0x7fff
    && if !f.renderedOnce then f.width == 0 && f.lines == [] else
         && f.width == s.width && f.height == s.height && f.cursorVisible == s.visible
         && f.viewportTop == ViewportTop(|f.lines|, s.height)
         && f.cursorRow <= SaturatingSub(|f.lines|, 1)
         && Stands(s, |f.lines|, f.cursorRow, s.top) && Fits(f.lines, s.width)
  }

  /** The window shows the lines as a full redraw would. */
  ghost predicate ShowsFrame(s: Screen, lines: seq<Line>)
  {
    Shown(s.rows, s.height, lines, s.top)
  }

  /** And the rows on show are right too. */
  ghost predicate ClearSync(f: Fields, s: Screen)
  {
    Aligned(f, s) && (f.renderedOnce ==> ShowsFrame(s, f.lines))
  }

  predicate LookAlike(lines: seq<Line>, k: nat)
    requires k + 1 < |lines|
  {
    RowOf(lines[k]) == RowOf(lines[k + 1])
  }

  /** The failing family: lines are appended to a frame that fills the window, fewer than a windowful, and
      two neighbouring lines that should move up one row look different. */
  ghost predicate LosesRow(shown: seq<Line>, lines: seq<Line>, height: nat)
  {
    && height <= |shown| < |lines| && shown == lines[..|shown|]
    && exists k :: |lines| - height - 1 <= k < |shown| - 1 && !LookAlike(lines, k)
  }

  /** Line `first` is the first one, or one before the last windowful, and it is new or differs. */
  predicate StartsEarly(shown: seq<Line>, lines: seq<Line>, height: nat, first: nat)
  {
    && first < |lines| && first <= |shown| && (first < |shown| ==> shown[first] != lines[first])
    && (first == 0 || first + height <= |lines|)
  }

  /** The step rewrites every row on show. */
  ghost predicate Repaints(shown: seq<Line>, lines: seq<Line>, height: nat)
  {
    |lines| < |shown| || exists first :: StartsEarly(shown, lines, height, first)
  }

  // ---------------------------------------------------------------- full redraw

  lemma ClearedIsBlank(s: Screen)
    requires s.Valid()
    ensures var c := ClearScreen(SetVisible(s, false));
            && c.Valid() && c.col == 0 && !c.visible && c.row == c.top && c.width == s.width && c.height == s.height
            && BlankFrom(c.rows, c.row)
  {
  }

  lemma ClearingRedraw(f: Fields, s: Screen, lines: seq<Line>)
    requires s.Valid()
    ensures var (g, t) := FullClearing(f, s, lines);
            && (Fits(lines, s.width) ==> Placed(t, lines, g.cursorRow, t.top))
            && Advanced(ClearScreen(SetVisible(s, false)), t, |lines|, |lines|)
            && !t.visible && !g.cursorVisible && g.surface == f.surface
  {
    ClearedIsBlank(s);
    var cleared := ClearScreen(SetVisible(s, false));
    var t := WriteLines(cleared, lines, |lines|);
    DrawFresh(cleared, t, lines);
    TopFollows(cleared, t, |lines|);
  }

  /** Lines written from the top of the window on push it down by as many rows as do not fit. */
  lemma TopFollows(s: Screen, t: Screen, count: nat)
    requires s.Valid() && s.row == s.top && Advanced(s, t, count, count)
    ensures t.top == s.row + ViewportTop(count, s.height)
  {
  }

  // ---------------------------------------------------------------- differential

  /** The screen the new lines are written on: everything from row `p` on is blank. */
  ghost function ClearedFrom(s: Screen, p: nat): Screen
  {
    ClearFromCursor(s.(row := p, col := 0))
  }

  lemma ClearedRow(s: Screen, p: nat, i: int)
    ensures RowAt(ClearedFrom(s, p).rows, i) == if i < p then RowAt(s.rows, i) else Blank
  {
  }

  /** The tape after the differential path started at tape row `p`. */
  lemma ClearingPaints(s: Screen, p: nat, lines: seq<Line>, first: nat, i: int)
    requires s.Valid() && s.top <= p < s.top + s.height && first <= |lines|
    ensures var t := WriteLines(ClearedFrom(s, p), lines[first..], |lines| - first);
            && Advanced(s.(row := p), t, |lines| - first, |lines| - first)
            && RowAt(t.rows, i) == if i < p then RowAt(s.rows, i)
                                   else if i < p + |lines| - first then RowOf(lines[first + i - p])
                                   else Blank
  {
    var cleared := ClearedFrom(s, p);
    forall j | cleared.row <= j
      ensures RowAt(cleared.rows, j) == Blank
    {
      ClearedRow(s, p, j);
    }
    ClearedRow(s, p, i);
    WritePaints(cleared, lines, first);
  }

  /** Where the differential path starts: exactly on the first changed line when that line is on show,
      one row too high when it would be below the window, and somewhere in the window otherwise. */
  lemma ClearingStart(f: Fields, s: Screen, lines: seq<Line>, first: nat) returns (p: nat)
    requires Aligned(f, s) && f.renderedOnce && first <= |f.lines| && first <= |lines|
    ensures s.top <= p < s.top + s.height
    ensures f.viewportTop <= first ==> p == Min(s.top + first - f.viewportTop, s.top + s.height - 1)
    ensures DifferentialClearing(f, s, lines, first) ==
            (f.(cursorRow := SaturatingSub(|lines|, 1)),
             WriteLines(ClearedFrom(s, p), lines[first..], |lines| - first))
  {
    p := MoveBy(s, RowDelta(first, f.cursorRow)).row;
    if f.viewportTop <= first {
      RowDeltaExact(first, f.cursorRow);
    }
  }

  /** The tape after the lines from number `first` on replaced everything from tape row `p` on. */
  ghost predicate Replaced(s: Screen, t: Screen, p: nat, lines: seq<Line>, first: nat)
    requires first <= |lines|
  {
    && Advanced(s.(row := p), t, |lines| - first, |lines| - first)
    && forall i :: RowAt(t.rows, i) ==
         if i < p then RowAt(s.rows, i)
         else if i < p + |lines| - first then RowOf(lines[first + i - p])
         else Blank
  }

  /** The cursor ends on the last line, at the distance from the window top that a full redraw gives. */
  lemma ReplacedCursor(f: Fields, s: Screen, t: Screen, p: nat, lines: seq<Line>, first: nat)
    requires Aligned(f, s) && f.renderedOnce && first <= |f.lines| <= |lines| && first < |lines|
    requires s.top <= p < s.top + s.height
    requires f.viewportTop <= first ==> p == Min(s.top + first - f.viewportTop, s.top + s.height - 1)
    requires Replaced(s, t, p, lines, first)
    ensures t.Valid() && t.row == t.top + |lines| - 1 - ViewportTop(|lines|, s.height)
  {
  }

  /** A change on show, or above the window: the frame comes out right. Above the window more lines than
      the window holds are written, so it does not matter on which of its rows they start. */
  lemma ReplacedShows(f: Fields, s: Screen, t: Screen, p: nat, lines: seq<Line>, first: nat, last: nat)
    requires ClearSync(f, s) && f.renderedOnce && Changes(f.lines, lines, first, last)
    requires s.top <= p < s.top + s.height
    requires f.viewportTop <= first ==> p == s.top + first - f.viewportTop
    requires Replaced(s, t, p, lines, first)
    ensures ShowsFrame(t, lines)
  {
    forall i | t.top <= i
      ensures RowAt(t.rows, i) == FrameRow(lines, s.height, i - t.top)
    {
      if i < p {
        assert RowAt(s.rows, i) == FrameRow(f.lines, s.height, i - s.top);
      }
    }
  }

  /** Enough is rewritten: it does not matter what was on show before. */
  lemma ReplacedRepaints(f: Fields, s: Screen, t: Screen, p: nat, lines: seq<Line>, first: nat)
    requires Aligned(f, s) && f.renderedOnce && first <= |f.lines| <= |lines| && f.lines[..first] == lines[..first]
    requires Repaints(f.lines, lines, s.height)
    requires s.top <= p < s.top + s.height
    requires f.viewportTop <= first ==> p == Min(s.top + first - f.viewportTop, s.top + s.height - 1)
    requires Replaced(s, t, p, lines, first)
    ensures ShowsFrame(t, lines)
  {
    var early :| StartsEarly(f.lines, lines, s.height, early);
    FirstIsFirst(f.lines, lines, first, early);
    assert t.top >= p;
  }

  /** Then the rows above the last one show the line before the one they should show. */
  lemma OverflowRow(f: Fields, s: Screen, t: Screen, lines: seq<Line>, i: int)
    requires ClearSync(f, s) && f.renderedOnce
    requires s.height <= |f.lines| < |lines| && f.lines == lines[..|f.lines|]
    requires Replaced(s, t, s.top + s.height - 1, lines, |f.lines|) && t.top <= i
    ensures var k := |f.lines| - s.height + i - s.top;
            if i < s.top + s.height - 1
            then && |lines| - s.height - 1 <= k < |f.lines| - 1
                 && RowAt(t.rows, i) == RowOf(lines[k]) && FrameRow(lines, s.height, i - t.top) == RowOf(lines[k + 1])
            else RowAt(t.rows, i) == FrameRow(lines, s.height, i - t.top)
  {
    if i < s.top + s.height - 1 {
      assert RowAt(s.rows, i) == FrameRow(f.lines, s.height, i - s.top);
    }
  }

  lemma OverflowLoses(f: Fields, s: Screen, t: Screen, lines: seq<Line>, k: nat)
    requires ClearSync(f, s) && f.renderedOnce
    requires s.height <= |f.lines| < |lines| && f.lines == lines[..|f.lines|]
    requires Replaced(s, t, s.top + s.height - 1, lines, |f.lines|)
    requires |lines| - s.height - 1 <= k < |f.lines| - 1 && !LookAlike(lines, k)
    ensures !ShowsFrame(t, lines)
  {
    var i := k - |f.lines| + s.height + s.top;
    OverflowRow(f, s, t, lines, i);
    assert RowAt(t.rows, i) != FrameRow(lines, s.height, i - t.top);
  }

  /** Lines added below a full window: right exactly when no row is lost. */
  lemma OverflowShows(f: Fields, s: Screen, t: Screen, lines: seq<Line>)
    requires ClearSync(f, s) && f.renderedOnce
    requires s.height <= |f.lines| < |lines| && f.lines == lines[..|f.lines|]
    requires Replaced(s, t, s.top + s.height - 1, lines, |f.lines|)
    ensures ShowsFrame(t, lines) <==> !LosesRow(f.lines, lines, s.height)
  {
    if LosesRow(f.lines, lines, s.height) {
      var k :| |lines| - s.height - 1 <= k < |f.lines| - 1 && !LookAlike(lines, k);
      OverflowLoses(f, s, t, lines, k);
    } else {
      forall i | t.top <= i
        ensures RowAt(t.rows, i) == FrameRow(lines, s.height, i - t.top)
      {
        OverflowRow(f, s, t, lines, i);
        var k := |f.lines| - s.height + i - s.top;
        assert i < s.top + s.height - 1 ==> LookAlike(lines, k);
      }
    }
  }

  lemma ClearingReplaces(s: Screen, p: nat, lines: seq<Line>, first: nat)
    requires s.Valid() && s.top <= p < s.top + s.height && first <= |lines|
    ensures Replaced(s, WriteLines(ClearedFrom(s, p), lines[first..], |lines| - first), p, lines, first)
  {
    var t := WriteLines(ClearedFrom(s, p), lines[first..], |lines| - first);
    forall i
      ensures RowAt(t.rows, i) == if i < p then RowAt(s.rows, i)
                                  else if i < p + |lines| - first then RowOf(lines[first + i - p])
                                  else Blank
    {
      ClearingPaints(s, p, lines, first, i);
    }
    ClearingPaints(s, p, lines, first, 0);
  }

  lemma ReplacedAgrees(f: Fields, s: Screen, t: Screen, p: nat, lines: seq<Line>, first: nat, last: nat)
    requires ClearSync(f, s) && f.renderedOnce && Changes(f.lines, lines, first, last)
    requires first < |f.lines| ==> f.lines[first] != lines[first]
    requires s.top <= p < s.top + s.height
    requires f.viewportTop <= first ==> p == Min(s.top + first - f.viewportTop, s.top + s.height - 1)
    requires Replaced(s, t, p, lines, first)
    ensures ShowsFrame(t, lines) <==> !LosesRow(f.lines, lines, s.height)
  {
    if s.height <= first == |f.lines| {
      assert f.lines == lines[..|f.lines|];
      OverflowShows(f, s, t, lines);
    } else {
      ReplacedShows(f, s, t, p, lines, first, last);
      assert first < |f.lines| ==> lines[..|f.lines|][first] != f.lines[first];
    }
  }

  /** The differential path keeps the alignment. It is right from any screen when it repaints, and from a right
      one exactly outside the failing family. */
  lemma ClearingChange(f: Fields, s: Screen, lines: seq<Line>, first: nat, last: nat)
    requires Aligned(f, s) && f.renderedOnce
    requires |f.lines| <= |lines| && ChangedRange(f.lines, lines) == Some((first, last))
    ensures var (g, t) := DifferentialClearing(f, s, lines, first);
            && t.Valid() && t.width == s.width && t.height == s.height && t.visible == s.visible
            && g == f.(cursorRow := |lines| - 1)
            && t.row == t.top + g.cursorRow - ViewportTop(|lines|, s.height)
            && (Repaints(f.lines, lines, s.height) ==> ShowsFrame(t, lines))
            && (ClearSync(f, s) ==> (ShowsFrame(t, lines) <==> !LosesRow(f.lines, lines, s.height)))
  {
    RangeChanges(f.lines, lines, first, last);
    var p := ClearingStart(f, s, lines, first);
    var t := WriteLines(ClearedFrom(s, p), lines[first..], |lines| - first);
    ClearingReplaces(s, p, lines, first);
    ReplacedCursor(f, s, t, p, lines, first);
    if Repaints(f.lines, lines, s.height) {
      ReplacedRepaints(f, s, t, p, lines, first);
    }
    if ClearSync(f, s) {
      ReplacedAgrees(f, s, t, p, lines, first, last);
    }
  }

  lemma FirstIsFirst(shown: seq<Line>, lines: seq<Line>, first: nat, differs: nat)
    requires first <= |shown| <= |lines| && shown[..first] == lines[..first]
    requires differs <= |shown| && (differs < |shown| ==> shown[differs] != lines[differs])
    ensures first <= differs
  {
    forall n | 0 <= n < first
      ensures shown[n] == lines[n]
    {
      assert shown[..first][n] == lines[..first][n];
    }
  }

  lemma ClearingDraw(f: Fields, s: Screen, lines: seq<Line>, strategy: Strategy)
    requires Aligned(f, s) && Fits(lines, s.width) && strategy == ChooseStrategy(f, s, lines)
    ensures var (g, t) := DrawClearing(f, s, lines, strategy);
            && t.Valid() && t.width == s.width && t.height == s.height
            && g.cursorVisible == t.visible && g.surface.Clearing?
            && ViewportTop(|lines|, s.height) <= g.cursorRow <= SaturatingSub(|lines|, 1)
            && t.row == t.top + g.cursorRow - ViewportTop(|lines|, s.height)
            && (Repaints(f.lines, lines, s.height) ==> ShowsFrame(t, lines))
            && (ClearSync(f, s) ==> (ShowsFrame(t, lines) <==> !LosesRow(f.lines, lines, s.height)))
  {
    match strategy
    case NoChange => assert !LosesRow(f.lines, lines, s.height);
    case FullRedraw =>
      ClearingRedraw(f, s, lines);
      assert !LosesRow(f.lines, lines, s.height);
    case Differential(first, last) => ClearingChange(f, s, lines, first, last);
  }

  /** One call with any frame, from any screen that is aligned. A frame that fits is on show with its cursor if the
      call repaints, and if the screen was right, exactly when the step is outside the failing family. */
  lemma ClearingStep(f: Fields, s: Screen, frame: seq<Line>)
    requires Aligned(f, s)
    ensures var (g, t) := Render(f, s, frame);
            var lines := LinesOf(frame, s.height);
            if !Fits(lines, s.width) then g == f && t == s else
              && t.width == s.width && t.height == s.height && g.lines == lines && g.renderedOnce
              && Aligned(g, t)
              && (Repaints(f.lines, lines, s.height) ==> ShowsFrame(t, lines))
              && (ClearSync(f, s) ==> (ShowsFrame(t, lines) <==> !LosesRow(f.lines, lines, s.height)))
              && (ShowsFrame(t, lines) ==>
                    ClearSync(g, t) && CursorShown(t, lines, t.top, CursorOf(frame, s.height)))
  {
    var lines := LinesOf(frame, s.height);
    if Fits(lines, s.width) {
      ClearingDraw(f, s, lines, ChooseStrategy(f, s, lines));
      SettleClearing(lines, CursorOf(frame, s.height), Draw(f, s, lines));
    }
  }

  /** After the terminal has changed its size, from any fields and any screen whatever, the next frame that fits is on
      show with its cursor. */
  lemma ResizedRecovers(f: Fields, s: Screen, frame: seq<Line>)
    requires f.surface.Clearing? && s.Valid() && s.height <= 0x7fff && (f.width != s.width || f.height != s.height)
    requires Fits(LinesOf(frame, s.height), s.width)
    ensures var (g, t) := Render(f, s, frame);
            var lines := LinesOf(frame, s.height);
            ShowsFrame(t, lines) && ClearSync(g, t) && CursorShown(t, lines, t.top, CursorOf(frame, s.height))
  {
    var lines := LinesOf(frame, s.height);
    ClearingRedraw(f, s, lines);
    SettleClearing(lines, CursorOf(frame, s.height), Draw(f, s, lines));
  }

  lemma SettleClearing(lines: seq<Line>, cursor: Option<CursorPosition>, d: Drawing)
    requires d.1.Valid() && d.1.height <= 0x7fff && Fits(lines, d.1.width)
    requires d.0.cursorVisible == d.1.visible && d.0.surface.Clearing?
    requires ViewportTop(|lines|, d.1.height) <= d.0.cursorRow <= SaturatingSub(|lines|, 1)
    requires d.1.row == d.1.top + d.0.cursorRow - ViewportTop(|lines|, d.1.height)
    requires cursor.Some? ==> ViewportTop(|lines|, d.1.height) <= cursor.value.row < |lines|
    ensures var (g, t) := Settle(d, lines, cursor);
            && t.width == d.1.width && t.height == d.1.height && g.lines == lines && g.renderedOnce && Aligned(g, t)
            && (ShowsFrame(t, lines) <==> ShowsFrame(d.1, lines))
            && (ShowsFrame(d.1, lines) ==> ClearSync(g, t) && CursorShown(t, lines, t.top, cursor))
  {
    var g := d.0.(viewportTop := ViewportTop(|lines|, d.1.height), ownedRows := Min(|lines|, d.1.height),
                  renderedOnce := true);
    PositionIs(g, d.1, |lines|, d.1.top, cursor);
    if ShowsFrame(d.1, lines) {
      PositionKeeps(g, d.1, lines, d.1.top, cursor);
    }
  }

  // ---------------------------------------------------------------- which steps put a wrong window right

  /** The lines are on show after they were drawn over these rows. */
  ghost predicate DrawsRight(f: Fields, s: Screen, lines: seq<Line>, rows: map<nat, Row>)
  {
    ShowsFrame(Draw(f, s.(rows := rows), lines).1, lines)
  }

  predicate InWindow(s: Screen, i: nat) { s.top <= i < s.top + s.height }

  /** A window of equal rows. */
  function Filled(s: Screen, row: Row): map<nat, Row>
  {
    map i: nat | i < s.top + s.height && InWindow(s, i) :: row
  }

  /** A row of a window that was filled with one wrong row is still there. */
  lemma StaysWrong(f: Fields, s: Screen, lines: seq<Line>, wrong: Row)
    requires Aligned(f, s) && f.renderedOnce && !Repaints(f.lines, lines, s.height)
    requires wrong != FrameRow(lines, s.height, 0) && s.rows == Filled(s, wrong)
    ensures !ShowsFrame(DrawClearing(f, s, lines, ChooseStrategy(f, s, lines)).1, lines)
  {
    match ChooseStrategy(f, s, lines)
    case NoChange => assert InWindow(s, s.top) && RowAt(s.rows, s.top) == wrong;
    case Differential(first, last) =>
      assert !StartsEarly(f.lines, lines, s.height, first);
      var p := ClearingStart(f, s, lines, first);
      ClearingReplaces(s, p, lines, first);
      TopStays(f, s, WriteLines(ClearedFrom(s, p), lines[first..], |lines| - first), p, lines, first, wrong);
  }

  lemma TopStays(f: Fields, s: Screen, t: Screen, p: nat, lines: seq<Line>, first: nat, wrong: Row)
    requires Aligned(f, s) && f.renderedOnce && first <= |f.lines| <= |lines| && first < |lines|
    requires first > 0 && first + s.height > |lines|
    requires p == Min(s.top + first - f.viewportTop, s.top + s.height - 1)
    requires Replaced(s, t, p, lines, first)
    requires wrong != FrameRow(lines, s.height, 0) && s.rows == Filled(s, wrong)
    ensures !ShowsFrame(t, lines)
  {
    assert InWindow(s, t.top) && t.top < p;
    assert RowAt(t.rows, t.top) == wrong;
  }

  /** A step puts every wrong window right exactly when it repaints. */
  lemma RepaintsExactly(f: Fields, s: Screen, lines: seq<Line>)
    requires Aligned(f, s) && f.renderedOnce && Fits(lines, s.width)
    ensures Repaints(f.lines, lines, s.height) <==> forall rows :: DrawsRight(f, s, lines, rows)
  {
    forall rows | Repaints(f.lines, lines, s.height)
      ensures DrawsRight(f, s, lines, rows)
    {
      ClearingDraw(f, s.(rows := rows), lines, ChooseStrategy(f, s.(rows := rows), lines));
    }
    if !Repaints(f.lines, lines, s.height) {
      var a, b := RowOf(Line([Cell("a", 0)], [])), RowOf(Line([Cell("b", 0)], []));
      var wrong := if FrameRow(lines, s.height, 0) == a then b else a;
      StaysWrong(f, s.(rows := Filled(s, wrong)), lines, wrong);
      assert !DrawsRight(f, s, lines, Filled(s, wrong));
    }
  }
}
