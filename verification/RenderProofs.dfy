/** The incremental renderer agrees with a full redraw, for every sequence of frames. */
module RenderProofs {
  import opened Basics
  import opened Lines
  import opened Screens
  import opened Rendering

  /** Row `j` below the top of the drawn region when the lines are on show: the last `height` of them,
      then blank rows for ever. */
  ghost function FrameRow(lines: seq<Line>, height: nat, j: int): Row
  {
    if 0 <= j < Min(|lines|, height) then RowOf(lines[ViewportTop(|lines|, height) + j])
    else Blank
  }

  /** A region for `count` lines starts at tape row `r` and lies inside the window, and the terminal's cursor
      is on logical row `cursorRow`. */
  ghost predicate Stands(s: Screen, count: nat, cursorRow: nat, r: int)
  {
    && s.Valid()
    && s.top <= r && r + Min(count, s.height) <= s.top + s.height
    && ViewportTop(count, s.height) <= cursorRow
    && s.row == r + cursorRow - ViewportTop(count, s.height)
  }

  /** From tape row `r` down the lines are on show, and nothing below them. */
  ghost predicate Shown(rows: map<nat, Row>, height: nat, lines: seq<Line>, r: int)
  {
    forall i :: r <= i ==> RowAt(rows, i) == FrameRow(lines, height, i - r)
  }

  ghost predicate BlankFrom(rows: map<nat, Row>, r: int)
  {
    forall i :: r <= i ==> RowAt(rows, i) == Blank
  }

  /** No row above `above` differs. */
  ghost predicate SameAbove(was: map<nat, Row>, rows: map<nat, Row>, above: int)
  {
    forall i :: i < above ==> RowAt(rows, i) == RowAt(was, i)
  }

  /** Such a region, with the lines on show in it and nothing below. */
  ghost predicate Placed(s: Screen, lines: seq<Line>, cursorRow: nat, r: int)
  {
    Stands(s, |lines|, cursorRow, r) && Fits(lines, s.width) && Shown(s.rows, s.height, lines, r)
  }

  /** Tape row of the first line on show. */
  ghost function RegionTop(f: Fields, s: Screen): int
  {
    s.row - (f.cursorRow - f.viewportTop)
  }

  /** The fields tell where the region and the cursor are. */
  ghost predicate Located(f: Fields, s: Screen)
  {
    && s.height <= 0x7fff
    && f.viewportTop == ViewportTop(|f.lines|, s.height)
    && f.ownedRows == Min(|f.lines|, s.height)
    && Stands(s, |f.lines|, f.cursorRow, RegionTop(f, s))
  }

  /** What every call keeps: the fields describe the screen. */
  ghost predicate InSync(f: Fields, s: Screen)
  {
    && Located(f, s)
    && Placed(s, f.lines, f.cursorRow, RegionTop(f, s))
    && (f.renderedOnce ==> f.width == s.width && f.height == s.height && f.cursorVisible == s.visible)
    && (!f.renderedOnce ==> f.lines == [] && f.width == 0 && f.cursorRow == 0 && s.col == 0)
  }

  /** Before its first frame, an inline renderer needs blank rows from the cursor down. */
  ghost predicate BlankStart(s: Screen)
  {
    s.Valid() && s.height <= 0x7fff && s.col == 0 && BlankFrom(s.rows, s.row)
  }

  lemma InitiallyInSync(s: Screen)
    requires BlankStart(s)
    ensures InSync(Initial(Inline), s) && RegionTop(Initial(Inline), s) == s.row
  {
  }

  // ---------------------------------------------------------------- arithmetic of row moves

  /** Wrapping twice cancels out: the move is exact whenever the distance fits 16 bits, however large
      the two rows are. */
  lemma RowDeltaExact(target: nat, current: nat)
    requires -0x8000 <= target - current <= 0x7fff
    ensures RowDelta(target, current) == target - current
  {
  }

  // ---------------------------------------------------------------- what the two loops leave behind

  /** Where a loop over `count` rows stands after `k` of them. */
  ghost predicate Advanced(s: Screen, t: Screen, count: nat, k: nat)
  {
    && t.row == s.row + (if 0 < k == count then k - 1 else k)
    && t.top == Max(s.top, t.row - s.height + 1)
    && t.visible == s.visible
    && t.width == s.width && t.height == s.height
  }

  lemma WriteOneAdvances(s: Screen, u: Screen, line: Line, count: nat, k: nat)
    requires s.Valid() && k < count && Advanced(s, u, count, k)
    ensures Advanced(s, WriteOne(u, line, k + 1 < count), count, k + 1)
  {
  }

  lemma {:induction false} WriteAdvances(s: Screen, lines: seq<Line>, k: nat)
    requires s.Valid() && s.col == 0 && k <= |lines|
    ensures Advanced(s, WriteLines(s, lines, k), |lines|, k)
    ensures k < |lines| ==> WriteLines(s, lines, k).col == 0
  {
    if k > 0 {
      WriteAdvances(s, lines, k - 1);
      WriteOneAdvances(s, WriteLines(s, lines, k - 1), lines[k - 1], |lines|, k - 1);
    }
  }

  lemma RewriteOneAdvances(s: Screen, u: Screen, line: Option<Line>, count: nat, k: nat)
    requires s.Valid() && k < count && Advanced(s, u, count, k)
    ensures Advanced(s, RewriteOne(u, line, k + 1 < count), count, k + 1)
  {
  }

  lemma {:induction false} RewriteAdvances(s: Screen, lines: seq<Line>, count: nat, k: nat)
    requires s.Valid() && k <= count
    ensures Advanced(s, RewriteRows(s, lines, count, k), count, k)
  {
    if k > 0 {
      RewriteAdvances(s, lines, count, k - 1);
      RewriteOneAdvances(s, RewriteRows(s, lines, count, k - 1), if k - 1 < |lines| then Some(lines[k - 1]) else None,
                         count, k - 1);
    }
  }

  lemma OneRowWritten(u: Screen, line: Line, more: bool, i: int)
    requires u.col == 0
    ensures RowAt(WriteOne(u, line, more).rows, i) ==
            if i == u.row then Over(RowAt(u.rows, i), 0, line.cells) else RowAt(u.rows, i)
  {
  }

  lemma WrittenStep(s: Screen, u: Screen, t: Screen, lines: seq<Line>, k: nat, i: int)
    requires 0 < k <= |lines| && u.row == s.row + k - 1 && u.col == 0 && t == WriteOne(u, lines[k - 1], k < |lines|)
    requires RowAt(u.rows, i) ==
             if s.row <= i < s.row + k - 1 then Over(RowAt(s.rows, i), 0, lines[i - s.row].cells) else RowAt(s.rows, i)
    ensures RowAt(t.rows, i) ==
            if s.row <= i < s.row + k then Over(RowAt(s.rows, i), 0, lines[i - s.row].cells) else RowAt(s.rows, i)
  {
    OneRowWritten(u, lines[k - 1], k < |lines|, i);
  }

  /** Each line is written over its own row; no other row changes. */
  lemma {:induction false} WrittenRow(s: Screen, lines: seq<Line>, k: nat, i: int)
    requires s.Valid() && s.col == 0 && k <= |lines|
    ensures RowAt(WriteLines(s, lines, k).rows, i) ==
            if s.row <= i < s.row + k then Over(RowAt(s.rows, i), 0, lines[i - s.row].cells) else RowAt(s.rows, i)
  {
    if k > 0 {
      WriteAdvances(s, lines, k - 1);
      WrittenRow(s, lines, k - 1, i);
      WrittenStep(s, WriteLines(s, lines, k - 1), WriteLines(s, lines, k), lines, k, i);
    }
  }

  /** The row that rewriting puts in place of offset `j`. */
  ghost function Rewritten(lines: seq<Line>, j: nat): Row
  {
    if j < |lines| then RowOf(lines[j]) else Blank
  }

  lemma OneRowRewritten(u: Screen, line: Option<Line>, more: bool, i: int)
    ensures RowAt(RewriteOne(u, line, more).rows, i) ==
            if i == u.row then (if line.Some? then RowOf(line.value) else Blank) else RowAt(u.rows, i)
  {
  }

  lemma RewrittenStep(s: Screen, u: Screen, t: Screen, lines: seq<Line>, count: nat, k: nat, i: int)
    requires 0 < k <= count && u.row == s.row + k - 1
    requires t == RewriteOne(u, if k - 1 < |lines| then Some(lines[k - 1]) else None, k < count)
    requires RowAt(u.rows, i) == if s.row <= i < s.row + k - 1 then Rewritten(lines, i - s.row) else RowAt(s.rows, i)
    ensures RowAt(t.rows, i) == if s.row <= i < s.row + k then Rewritten(lines, i - s.row) else RowAt(s.rows, i)
  {
    OneRowRewritten(u, if k - 1 < |lines| then Some(lines[k - 1]) else None, k < count, i);
  }

  lemma {:induction false} RewrittenRow(s: Screen, lines: seq<Line>, count: nat, k: nat, i: int)
    requires s.Valid() && k <= count
    ensures RowAt(RewriteRows(s, lines, count, k).rows, i) ==
            if s.row <= i < s.row + k then Rewritten(lines, i - s.row) else RowAt(s.rows, i)
  {
    if k > 0 {
      RewriteAdvances(s, lines, count, k - 1);
      RewrittenRow(s, lines, count, k - 1, i);
      RewrittenStep(s, RewriteRows(s, lines, count, k - 1), RewriteRows(s, lines, count, k), lines, count, k, i);
    }
  }

  // ---------------------------------------------------------------- inline surface

  /** The rows `from .. from + count` of the tape now show the lines from number `first` on, the rows past
      the last line are blank, and every other row is as before. */
  ghost predicate Painted(s: Screen, t: Screen, from: int, count: nat, lines: seq<Line>, first: nat)
  {
    forall i :: RowAt(t.rows, i) ==
         if !(from <= i < from + count) then RowAt(s.rows, i)
         else if first + i - from < |lines| then RowOf(lines[first + i - from])
         else Blank
  }

  lemma WritePaints(s: Screen, lines: seq<Line>, first: nat)
    requires s.Valid() && s.col == 0 && first <= |lines|
    requires BlankFrom(s.rows, s.row)
    ensures var t := WriteLines(s, lines[first..], |lines| - first);
            && Advanced(s, t, |lines| - first, |lines| - first)
            && Painted(s, t, s.row, |lines| - first, lines, first)
  {
    var rest := lines[first..];
    var t := WriteLines(s, rest, |rest|);
    WriteAdvances(s, rest, |rest|);
    forall i
      ensures RowAt(t.rows, i) ==
              if !(s.row <= i < s.row + |rest|) then RowAt(s.rows, i)
              else if first + i - s.row < |lines| then RowOf(lines[first + i - s.row])
              else Blank
    {
      WrittenRow(s, rest, |rest|, i);
      if s.row <= i < s.row + |rest| {
        assert rest[i - s.row] == lines[first + i - s.row];
      }
    }
  }

  lemma RewritePaints(s: Screen, lines: seq<Line>, first: nat, end: nat, count: nat)
    requires s.Valid() && first <= end <= |lines|
    requires end == |lines| || count <= end - first
    ensures var t := RewriteRows(s, lines[first..end], count, count);
            && Advanced(s, t, count, count)
            && Painted(s, t, s.row, count, lines, first)
  {
    var part := lines[first..end];
    RewriteAdvances(s, part, count, count);
    forall i
      ensures RowAt(RewriteRows(s, part, count, count).rows, i) ==
              if !(s.row <= i < s.row + count) then RowAt(s.rows, i)
              else if first + i - s.row < |lines| then RowOf(lines[first + i - s.row])
              else Blank
    {
      RewrittenRow(s, part, count, count, i);
    }
  }

  /** Painting onto blank rows from logical row 0 on. */
  lemma PaintFirst(s: Screen, t: Screen, lines: seq<Line>)
    requires s.Valid() && Fits(lines, t.width)
    requires BlankFrom(s.rows, s.row)
    requires Advanced(s, t, |lines|, |lines|) && Painted(s, t, s.row, |lines|, lines, 0)
    ensures Placed(t, lines, SaturatingSub(|lines|, 1), s.row + ViewportTop(|lines|, s.height))
    ensures SameAbove(s.rows, t.rows, s.row)
  {
  }

  /** A whole frame written onto blank rows. */
  lemma DrawFresh(s: Screen, t: Screen, lines: seq<Line>)
    requires s.Valid() && s.col == 0 && t == WriteLines(s, lines, |lines|)
    requires BlankFrom(s.rows, s.row)
    ensures Advanced(s, t, |lines|, |lines|)
    ensures Fits(lines, s.width) ==> Placed(t, lines, SaturatingSub(|lines|, 1), s.row + ViewportTop(|lines|, s.height))
    ensures Fits(lines, s.width) ==> SameAbove(s.rows, t.rows, s.row)
  {
    assert lines[0..] == lines;
    WritePaints(s, lines, 0);
    if Fits(lines, s.width) { PaintFirst(s, t, lines); }
  }

  /** The lines from number `first` on are painted, and those before them are the same: all are on show. */
  lemma PaintedShown(s: Screen, t: Screen, shown: seq<Line>, lines: seq<Line>, base: int, first: nat, count: nat)
    requires ViewportTop(|shown|, s.height) <= first && s.row == base + first
    requires Shown(s.rows, s.height, shown, base + ViewportTop(|shown|, s.height))
    requires first <= |shown| && first + count <= |lines| && |shown| <= |lines|
    requires |shown| < |lines| ==> first + count == |lines|
    requires forall n :: 0 <= n < |shown| && !(first <= n < first + count) ==> shown[n] == lines[n]
    requires Painted(s, t, s.row, count, lines, first)
    ensures Shown(t.rows, s.height, lines, base + ViewportTop(|lines|, s.height))
  {
    var r, was := base + ViewportTop(|lines|, s.height), base + ViewportTop(|shown|, s.height);
    forall i | r <= i
      ensures RowAt(t.rows, i) == FrameRow(lines, s.height, i - r)
    {
      if !(first <= i - base < first + count) {
        assert RowAt(s.rows, i) == FrameRow(shown, s.height, i - was);
      }
    }
  }

  /** Painting the lines from number `first` on, which is on show, when those before it are the same. The
      tape row of line number 0 would be `base`. */
  lemma PaintSome(s: Screen, t: Screen, shown: seq<Line>, lines: seq<Line>, base: int, first: nat, count: nat)
    requires s.Valid() && Fits(lines, t.width)
    requires ViewportTop(|shown|, s.height) <= first && s.row == base + first
    requires s.top <= base + ViewportTop(|lines|, s.height) && base + |shown| <= s.top + s.height
    requires Shown(s.rows, s.height, shown, base + ViewportTop(|shown|, s.height))
    requires 0 < count && first <= |shown| && first + count <= |lines| && |shown| <= |lines|
    requires |shown| < |lines| ==> first + count == |lines|
    requires forall n :: 0 <= n < |shown| && !(first <= n < first + count) ==> shown[n] == lines[n]
    requires Advanced(s, t, count, count) && Painted(s, t, s.row, count, lines, first)
    ensures first + count - 1 >= ViewportTop(|lines|, s.height)
    ensures Placed(t, lines, first + count - 1, base + ViewportTop(|lines|, s.height))
    ensures SameAbove(s.rows, t.rows, base + ViewportTop(|shown|, s.height))
  {
    PaintedShown(s, t, shown, lines, base, first, count);
  }

  /** Painting the lines on show over everything the frame before owned. */
  lemma RedrawShows(s: Screen, t: Screen, shown: seq<Line>, lines: seq<Line>, count: nat, r: nat)
    requires Shown(s.rows, s.height, shown, r) && count == Max(Min(|shown|, s.height), Min(|lines|, s.height))
    requires Painted(s, t, r, count, lines, ViewportTop(|lines|, s.height))
    ensures Shown(t.rows, s.height, lines, r)
  {
    forall i | r <= i
      ensures RowAt(t.rows, i) == FrameRow(lines, s.height, i - r)
    {
      assert RowAt(s.rows, i) == FrameRow(shown, s.height, i - r);
    }
  }

  lemma RedrawPlaces(f: Fields, s: Screen, lines: seq<Line>, count: nat, moved: Screen, t: Screen)
    requires InSync(f, s) && Fits(lines, s.width) && 0 < count == Max(f.ownedRows, Min(|lines|, s.height))
    requires moved == s.(row := RegionTop(f, s), col := 0, visible := false)
    requires Advanced(moved, t, count, count)
    requires Painted(moved, t, moved.row, count, lines, ViewportTop(|lines|, s.height))
    ensures Placed(t, lines, ViewportTop(|lines|, s.height) + count - 1, RegionTop(f, s))
    ensures SameAbove(s.rows, t.rows, RegionTop(f, s))
  {
    RedrawShows(moved, t, f.lines, lines, count, moved.row);
  }

  /** The outcome of drawing below the old region top: the new frame is in place at `r`, the fields know
      whether the cursor is visible, and no row above the old region top changed. */
  ghost predicate Redrawn(s: Screen, d: Drawing, lines: seq<Line>, above: int, r: int)
  {
    && Placed(d.1, lines, d.0.cursorRow, r)
    && d.0.surface.Inline? && d.1.width == s.width && d.1.height == s.height
    && d.0.cursorVisible == d.1.visible
    && SameAbove(s.rows, d.1.rows, above)
  }

  lemma StartsBlank(f: Fields, s: Screen)
    requires InSync(f, s) && !f.renderedOnce
    ensures BlankFrom(s.rows, s.row)
  {
  }

  lemma FirstDraws(f: Fields, s: Screen, lines: seq<Line>, d: Drawing)
    requires s.Valid() && s.col == 0 && !s.visible && BlankFrom(s.rows, s.row) && Fits(lines, s.width)
    requires f.surface.Inline?
    requires d == (f.(cursorVisible := false, cursorRow := SaturatingSub(|lines|, 1)), WriteLines(s, lines, |lines|))
    ensures Redrawn(s, d, lines, s.row, s.row + ViewportTop(|lines|, s.height))
  {
    DrawFresh(s, d.1, lines);
  }

  /** The first frame is written from the cursor down. */
  lemma FirstInlineDraw(f: Fields, s: Screen, lines: seq<Line>)
    requires InSync(f, s) && f.surface.Inline? && !f.renderedOnce && Fits(lines, s.width)
    ensures Redrawn(s, FullInline(f, s, lines), lines, s.row, s.row + ViewportTop(|lines|, s.height))
  {
    StartsBlank(f, s);
    FirstDraws(f, SetVisible(s, false), lines, FullInline(f, s, lines));
  }

  /** A move between two rows of the region is exact. */
  lemma MoveExact(f: Fields, s: Screen, target: nat)
    requires s.Valid() && s.height <= 0x7fff
    requires f.viewportTop <= f.cursorRow && f.viewportTop <= target
    requires s.top <= RegionTop(f, s) && RegionTop(f, s) + target - f.viewportTop < s.top + s.height
    ensures MoveToLogicalRow(f, s, target) ==
            (f.(cursorRow := target), s.(row := RegionTop(f, s) + target - f.viewportTop))
  {
    RowDeltaExact(target - f.viewportTop, f.cursorRow - f.viewportTop);
  }

  lemma AtRowIs(f: Fields, s: Screen, target: nat)
    requires Located(f, s) && f.viewportTop <= target
    requires RegionTop(f, s) + target - f.viewportTop < s.top + s.height
    ensures AtRow(f, s, target) == s.(row := RegionTop(f, s) + target - f.viewportTop, col := 0)
  {
    MoveExact(f, s, target);
  }

  lemma RedrawRedraws(f: Fields, s: Screen, lines: seq<Line>, count: nat)
    requires InSync(f, s) && f.surface.Inline? && Fits(lines, s.width)
    requires 0 < count == Max(f.ownedRows, Min(|lines|, s.height))
    ensures var top := ViewportTop(|lines|, s.height);
            var moved := s.(row := RegionTop(f, s), col := 0, visible := false);
            Redrawn(s, (f.(cursorVisible := false, cursorRow := top + count - 1),
                        RewriteRows(moved, lines[top..], count, count)), lines, RegionTop(f, s), RegionTop(f, s))
  {
    var top := ViewportTop(|lines|, s.height);
    var moved := s.(row := RegionTop(f, s), col := 0, visible := false);
    assert lines[top..|lines|] == lines[top..];
    RewritePaints(moved, lines, top, |lines|, count);
    RedrawPlaces(f, s, lines, count, moved, RewriteRows(moved, lines[top..], count, count));
  }

  lemma FullInlineIs(f: Fields, s: Screen, lines: seq<Line>, count: nat)
    requires Located(f, s) && f.renderedOnce && 0 < count == Max(f.ownedRows, Min(|lines|, s.height))
    ensures var top := ViewportTop(|lines|, s.height);
            var moved := s.(row := RegionTop(f, s), col := 0, visible := false);
            FullInline(f, s, lines) ==
            (f.(cursorVisible := false, cursorRow := top + count - 1), RewriteRows(moved, lines[top..], count, count))
  {
    AtRowIs(f.(cursorVisible := false), SetVisible(s, false), f.viewportTop);
  }

  /** A redraw clears every row the old frame owned and writes the new rows in their place. */
  lemma InlineRedraw(f: Fields, s: Screen, lines: seq<Line>)
    requires InSync(f, s) && f.surface.Inline? && f.renderedOnce && Fits(lines, s.width)
    ensures Redrawn(s, FullInline(f, s, lines), lines, RegionTop(f, s), RegionTop(f, s))
  {
    var count := Max(f.ownedRows, Min(|lines|, s.height));
    if count > 0 {
      FullInlineIs(f, s, lines, count);
      RedrawRedraws(f, s, lines, count);
    }
  }

  /** A frame that did not shrink differs from the one before in lines `first .. last` only. */
  ghost predicate Changes(shown: seq<Line>, lines: seq<Line>, first: nat, last: nat)
  {
    && first <= last < |lines| && first <= |shown| <= |lines|
    && (|shown| < |lines| ==> last == |lines| - 1)
    && forall n :: 0 <= n < |shown| && !(first <= n <= last) ==> shown[n] == lines[n]
  }

  lemma RangeChanges(shown: seq<Line>, lines: seq<Line>, first: nat, last: nat)
    requires |shown| <= |lines| && ChangedRange(shown, lines) == Some((first, last))
    ensures Changes(shown, lines, first, last)
  {
    forall n | 0 <= n < |shown| && !(first <= n <= last)
      ensures shown[n] == lines[n]
    {
      if n < first {
        assert shown[..first][n] == lines[..first][n];
      }
    }
  }

  /** Painting over a region that starts at tape row `r`. */
  lemma ChangePlaces(s: Screen, shown: seq<Line>, r: int, lines: seq<Line>, first: nat, last: nat, t: Screen)
    requires s.Valid() && Fits(lines, s.width) && Changes(shown, lines, first, last)
    requires Shown(s.rows, s.height, shown, r)
    requires s.top <= r && r + Min(|shown|, s.height) <= s.top + s.height
    requires ViewportTop(|shown|, s.height) <= first && s.row == r - ViewportTop(|shown|, s.height) + first
    requires Advanced(s, t, last - first + 1, last - first + 1)
    requires Painted(s, t, s.row, last - first + 1, lines, first)
    ensures Placed(t, lines, last, r - ViewportTop(|shown|, s.height) + ViewportTop(|lines|, s.height))
    ensures SameAbove(s.rows, t.rows, r)
  {
    var base, count := r - ViewportTop(|shown|, s.height), last - first + 1;
    assert base + ViewportTop(|shown|, s.height) == r;
    PaintSome(s, t, shown, lines, base, first, count);
  }

  lemma ChangeRedraws(f: Fields, s: Screen, lines: seq<Line>, first: nat, last: nat, moved: Screen, d: Drawing)
    requires InSync(f, s) && f.surface.Inline? && f.renderedOnce && Fits(lines, s.width)
    requires Changes(f.lines, lines, first, last) && f.viewportTop <= first && (first < |f.lines| || first == 0)
    requires moved == s.(row := RegionTop(f, s) + first - f.viewportTop, col := 0) && moved.Valid()
    requires d.0 == f.(cursorRow := last)
    requires Advanced(moved, d.1, last - first + 1, last - first + 1)
    requires Painted(moved, d.1, moved.row, last - first + 1, lines, first)
    ensures Redrawn(s, d, lines, RegionTop(f, s), RegionTop(f, s) - f.viewportTop + ViewportTop(|lines|, s.height))
  {
    ChangePlaces(moved, f.lines, RegionTop(f, s), lines, first, last, d.1);
  }

  /** Rewriting the changed rows, and going on below them when the frame grew. */
  lemma InlineChange(f: Fields, s: Screen, lines: seq<Line>, first: nat, last: nat)
    requires InSync(f, s) && f.surface.Inline? && f.renderedOnce && Fits(lines, s.width)
    requires Changes(f.lines, lines, first, last) && f.viewportTop <= first && (first < |f.lines| || first == 0)
    ensures Redrawn(s, ChangeInline(f, s, lines, first, last), lines, RegionTop(f, s),
                    RegionTop(f, s) - f.viewportTop + ViewportTop(|lines|, s.height))
  {
    var moved := s.(row := RegionTop(f, s) + first - f.viewportTop, col := 0);
    AtRowIs(f, s, first);
    ChangeTouches(f.lines, lines, first, last);
    ChangeInlineIs(f, s, lines, first, last, moved);
    ChangePaints(f, lines, first, last, moved, ChangeInline(f, s, lines, first, last));
    ChangeRedraws(f, s, lines, first, last, moved, ChangeInline(f, s, lines, first, last));
  }

  lemma ChangeTouches(shown: seq<Line>, lines: seq<Line>, first: nat, last: nat)
    requires Changes(shown, lines, first, last) && |shown| <= |lines|
    ensures Touched(first, last, |lines|) == last - first + 1 >= Touched(first, last, |shown|)
  {
  }

  lemma ChangePaints(f: Fields, lines: seq<Line>, first: nat, last: nat, moved: Screen, d: Drawing)
    requires first <= last < |lines| && moved.Valid()
    requires d == (f.(cursorRow := last), RewriteRows(moved, lines[first..last + 1], last - first + 1,
                                                      last - first + 1))
    ensures d.0 == f.(cursorRow := last) && Advanced(moved, d.1, last - first + 1, last - first + 1)
    ensures Painted(moved, d.1, moved.row, last - first + 1, lines, first)
  {
    RewritePaints(moved, lines, first, last + 1, last - first + 1);
  }

  lemma ChangeInlineIs(f: Fields, s: Screen, lines: seq<Line>, first: nat, last: nat, moved: Screen)
    requires first <= last < |lines| && first <= |f.lines| && AtRow(f, s, first) == moved
    requires Touched(first, last, |lines|) == last - first + 1 >= Touched(first, last, |f.lines|)
    ensures ChangeInline(f, s, lines, first, last) ==
            (f.(cursorRow := last), RewriteRows(moved, lines[first..last + 1], last - first + 1, last - first + 1))
  {
  }

  /** The screen after a step from tape row `row - 1` to the row below it. */
  ghost function SteppedTo(s: Screen, row: nat): Screen
  {
    s.(row := row, col := 0, top := Max(s.top, row - s.height + 1))
  }

  lemma StepDown(s: Screen, row: nat)
    requires s.Valid() && s.top < row <= s.top + s.height
    ensures NewLine(s.(row := row - 1, col := 0)) == SteppedTo(s, row) && SteppedTo(s, row).Valid()
  {
  }

  /** Painting below a region that starts at tape row `r`. */
  lemma AppendPlaces(s: Screen, shown: seq<Line>, r: int, lines: seq<Line>, below: Screen, t: Screen)
    requires s.Valid() && Fits(lines, s.width) && |shown| < |lines| && shown == lines[..|shown|]
    requires Shown(s.rows, s.height, shown, r)
    requires s.top <= r && r + Min(|shown|, s.height) <= s.top + s.height
    requires below == SteppedTo(s, r + |shown| - ViewportTop(|shown|, s.height)) && below.Valid()
    requires Advanced(below, t, |lines| - |shown|, |lines| - |shown|)
    requires Painted(below, t, below.row, |lines| - |shown|, lines, |shown|)
    ensures Placed(t, lines, |lines| - 1, r - ViewportTop(|shown|, s.height) + ViewportTop(|lines|, s.height))
    ensures SameAbove(s.rows, t.rows, r)
  {
    var base, count := r - ViewportTop(|shown|, s.height), |lines| - |shown|;
    assert base + ViewportTop(|shown|, s.height) == r && below.rows == s.rows;
    PaintSome(below, t, shown, lines, base, |shown|, count);
  }

  lemma BlankBelow(rows: map<nat, Row>, height: nat, shown: seq<Line>, r: int)
    requires Shown(rows, height, shown, r)
    ensures BlankFrom(rows, r + Min(|shown|, height))
  {
  }

  lemma AppendRedraws(f: Fields, s: Screen, lines: seq<Line>, below: Screen, d: Drawing)
    requires InSync(f, s) && f.surface.Inline? && f.renderedOnce && Fits(lines, s.width)
    requires |f.lines| < |lines| && f.lines == lines[..|f.lines|]
    requires below == SteppedTo(s, RegionTop(f, s) + |f.lines| - f.viewportTop) && below.Valid()
    requires d.0 == f.(cursorRow := |lines| - 1)
    requires Advanced(below, d.1, |lines| - |f.lines|, |lines| - |f.lines|)
    requires Painted(below, d.1, below.row, |lines| - |f.lines|, lines, |f.lines|)
    ensures Redrawn(s, d, lines, RegionTop(f, s), RegionTop(f, s) - f.viewportTop + ViewportTop(|lines|, s.height))
  {
    AppendPlaces(s, f.lines, RegionTop(f, s), lines, below, d.1);
  }

  /** Writing the new lines below the old ones. */
  lemma InlineAppend(f: Fields, s: Screen, lines: seq<Line>)
    requires InSync(f, s) && f.surface.Inline? && f.renderedOnce && Fits(lines, s.width)
    requires 0 < |f.lines| < |lines| && f.lines == lines[..|f.lines|]
    ensures Redrawn(s, AppendInline(f, s, lines, |f.lines|), lines, RegionTop(f, s),
                    RegionTop(f, s) - f.viewportTop + ViewportTop(|lines|, s.height))
  {
    var below := SteppedTo(s, RegionTop(f, s) + |f.lines| - f.viewportTop);
    AppendPaints(f, s, lines, below);
    AppendRedraws(f, s, lines, below, AppendInline(f, s, lines, |f.lines|));
  }

  lemma AppendPaints(f: Fields, s: Screen, lines: seq<Line>, below: Screen)
    requires InSync(f, s) && 0 < |f.lines| < |lines|
    requires below == SteppedTo(s, RegionTop(f, s) + |f.lines| - f.viewportTop)
    ensures below.Valid() && AppendInline(f, s, lines, |f.lines|).0 == f.(cursorRow := |lines| - 1)
    ensures var t := AppendInline(f, s, lines, |f.lines|).1;
            && Advanced(below, t, |lines| - |f.lines|, |lines| - |f.lines|)
            && Painted(below, t, below.row, |lines| - |f.lines|, lines, |f.lines|)
  {
    StepsBelow(f, s, below);
    BlankBelow(s.rows, s.height, f.lines, RegionTop(f, s));
    WritePaints(below, lines, |f.lines|);
  }

  lemma StepsBelow(f: Fields, s: Screen, below: Screen)
    requires Located(f, s) && 0 < |f.lines| && below == SteppedTo(s, RegionTop(f, s) + |f.lines| - f.viewportTop)
    ensures below.Valid() && NewLine(AtRow(f, s, |f.lines| - 1)) == below
    ensures below.row == RegionTop(f, s) + Min(|f.lines|, s.height)
  {
    AtRowIs(f, s, |f.lines| - 1);
    StepDown(s, RegionTop(f, s) + |f.lines| - f.viewportTop);
  }

  lemma InlineDifferential(f: Fields, s: Screen, lines: seq<Line>, first: nat, last: nat)
    requires InSync(f, s) && f.surface.Inline? && f.renderedOnce && Fits(lines, s.width)
    requires Changes(f.lines, lines, first, last)
    ensures Redrawn(s, DifferentialInline(f, s, lines, first, last), lines, RegionTop(f, s),
                    if first < f.viewportTop then RegionTop(f, s)
                    else RegionTop(f, s) - f.viewportTop + ViewportTop(|lines|, s.height))
  {
    if first < f.viewportTop {
      InlineRedraw(f, s, lines);
    } else if |lines| > |f.lines| && first == |f.lines| && first > 0 {
      assert f.lines == lines[..first];
      InlineAppend(f, s, lines);
    } else {
      InlineChange(f, s, lines, first, last);
    }
  }

  /** Any strategy leaves the new frame in place, at the old region top or, when it grew, below it. */
  lemma InlineDraw(f: Fields, s: Screen, lines: seq<Line>, strategy: Strategy) returns (r: int)
    requires InSync(f, s) && f.surface.Inline? && Fits(lines, s.width)
    requires strategy == ChooseStrategy(f, s, lines)
    ensures RegionTop(f, s) <= r && Redrawn(s, DrawInline(f, s, lines, strategy), lines, RegionTop(f, s), r)
  {
    r := RegionTop(f, s);
    match strategy
    case NoChange =>
    case FullRedraw =>
      if f.renderedOnce {
        InlineRedraw(f, s, lines);
      } else {
        FirstInlineDraw(f, s, lines);
        r := s.row + ViewportTop(|lines|, s.height);
      }
    case Differential(first, last) =>
      RangeChanges(f.lines, lines, first, last);
      InlineDifferential(f, s, lines, first, last);
      r := if first < f.viewportTop then r else r - f.viewportTop + ViewportTop(|lines|, s.height);
  }

  // ---------------------------------------------------------------- the cursor

  /** The cursor is where the marker of the frame was, on the row that shows the marker's line, and it is
      visible exactly when there was a marker. A terminal has no column past its last one. */
  ghost predicate CursorShown(s: Screen, lines: seq<Line>, r: int, cursor: Option<CursorPosition>)
  {
    && s.visible == cursor.Some?
    && (cursor.Some? ==>
          && cursor.value.row < |lines|
          && s.row == r + cursor.value.row - ViewportTop(|lines|, s.height)
          && RowAt(s.rows, s.row) == RowOf(lines[cursor.value.row])
          && s.col == Min(cursor.value.col, s.width - 1))
  }

  /** Placing the cursor is exact and leaves the rows alone. */
  lemma PositionIs(f: Fields, s: Screen, count: nat, r: int, cursor: Option<CursorPosition>)
    requires s.height <= 0x7fff && Stands(s, count, f.cursorRow, r)
    requires f.viewportTop == ViewportTop(count, s.height) && f.cursorVisible == s.visible
    requires cursor.Some? ==> f.viewportTop <= cursor.value.row < count
    ensures PositionCursor(f, s, cursor) ==
            match cursor
            case None => (f.(cursorVisible := false), s.(visible := false))
            case Some(c) =>
              (f.(cursorVisible := true, cursorRow := c.row),
               s.(visible := true, row := r + c.row - f.viewportTop, col := Min(c.col, s.width - 1)))
  {
    if cursor.Some? {
      MoveExact(f, s, cursor.value.row);
    }
  }

  lemma PositionKeeps(f: Fields, s: Screen, lines: seq<Line>, r: int, cursor: Option<CursorPosition>)
    requires s.height <= 0x7fff && Placed(s, lines, f.cursorRow, r)
    requires f.viewportTop == ViewportTop(|lines|, s.height) && f.cursorVisible == s.visible
    requires cursor.Some? ==> f.viewportTop <= cursor.value.row < |lines|
    ensures var (g, t) := PositionCursor(f, s, cursor);
            && Placed(t, lines, g.cursorRow, r)
            && t.rows == s.rows && t.top == s.top && t.width == s.width && t.height == s.height
            && g == f.(cursorRow := g.cursorRow, cursorVisible := t.visible)
            && CursorShown(t, lines, r, cursor)
  {
    PositionIs(f, s, |lines|, r, cursor);
    if cursor.Some? {
      assert RowAt(s.rows, r + cursor.value.row - f.viewportTop) ==
             FrameRow(lines, s.height, cursor.value.row - f.viewportTop);
    }
  }

  // ---------------------------------------------------------------- one call, inline

  /** One call with any frame. A frame that fits is on show afterwards with its cursor; one that does not
      fit changes nothing. Either way the fields still describe the screen, and no row above the region
      changed. */
  lemma InlineStep(f: Fields, s: Screen, frame: seq<Line>)
    requires InSync(f, s) && f.surface.Inline?
    ensures var (g, t) := Render(f, s, frame);
            && InSync(g, t) && g.surface.Inline? && t.width == s.width && t.height == s.height
            && RegionTop(f, s) <= RegionTop(g, t)
            && (forall i :: i < RegionTop(f, s) ==> RowAt(t.rows, i) == RowAt(s.rows, i))
            && if Fits(LinesOf(frame, s.height), s.width)
               then g.renderedOnce && g.lines == LinesOf(frame, s.height)
                    && CursorShown(t, g.lines, RegionTop(g, t), CursorOf(frame, s.height))
               else g == f && t == s
  {
    var lines := LinesOf(frame, s.height);
    if Fits(lines, s.width) {
      var r := InlineDraw(f, s, lines, ChooseStrategy(f, s, lines));
      SettleInline(s, lines, CursorOf(frame, s.height), Draw(f, s, lines), RegionTop(f, s), r);
    }
  }

  lemma SettleInline(s: Screen, lines: seq<Line>, cursor: Option<CursorPosition>, d: Drawing, above: int, r: int)
    requires s.height <= 0x7fff && Redrawn(s, d, lines, above, r)
    requires cursor.Some? ==> ViewportTop(|lines|, s.height) <= cursor.value.row < |lines|
    ensures var (g, t) := Settle(d, lines, cursor);
            && InSync(g, t) && g.surface.Inline? && t.width == s.width && t.height == s.height
            && RegionTop(g, t) == r && g.renderedOnce && g.lines == lines
            && (forall i :: i < above ==> RowAt(t.rows, i) == RowAt(s.rows, i))
            && CursorShown(t, lines, r, cursor)
  {
    var g := d.0.(viewportTop := ViewportTop(|lines|, s.height), ownedRows := Min(|lines|, s.height),
                  renderedOnce := true);
    PositionKeeps(g, d.1, lines, r, cursor);
  }
}
