/** Nothing is ever written past the right margin, so that what a terminal does there never matters. */
module Margins {
  import opened Basics
  import opened Lines
  import opened Screens
  import opened Rendering
  import opened RenderRuns

  /** The next frame is written from the start of a row. */
  ghost predicate Ready(f: Fields, s: Screen)
  {
    f.renderedOnce || f.surface.Clearing? || s.col == 0
  }

  /** Nothing ran past the margin from one screen to the other. */
  ghost predicate Inside(s: Screen, t: Screen) { t.overrun == s.overrun && t.width == s.width }

  lemma {:induction false} WriteStaysInside(s: Screen, lines: seq<Line>, k: nat)
    requires s.col == 0 && k <= |lines| && Fits(lines, s.width)
    ensures var t := WriteLines(s, lines, k);
            Inside(s, t) && (k < |lines| ==> t.col == 0)
  {
    if k > 0 { WriteStaysInside(s, lines, k - 1); }
  }

  lemma RewriteOneStaysInside(u: Screen, line: Option<Line>, more: bool)
    requires line.Some? ==> VisibleWidth(line.value) <= u.width
    ensures Inside(u, RewriteOne(u, line, more))
  {
  }

  lemma {:induction false} RewriteStaysInside(s: Screen, lines: seq<Line>, count: nat, k: nat)
    requires k <= count && Fits(lines, s.width)
    ensures Inside(s, RewriteRows(s, lines, count, k))
  {
    if k > 0 {
      RewriteStaysInside(s, lines, count, k - 1);
      RewriteOneStaysInside(RewriteRows(s, lines, count, k - 1), if k - 1 < |lines| then Some(lines[k - 1]) else None,
                            k < count);
    }
  }

  lemma FullInlineStaysInside(f: Fields, s: Screen, lines: seq<Line>)
    requires Fits(lines, s.width) && (f.renderedOnce || s.col == 0)
    ensures Inside(s, FullInline(f, s, lines).1)
  {
    if f.renderedOnce {
      var top := ViewportTop(|lines|, s.height);
      var count := Min(Max(f.ownedRows, |lines[top..]|), s.height);
      if count > 0 {
        RewriteStaysInside(AtRow(f.(cursorVisible := false), SetVisible(s, false), f.viewportTop), lines[top..], count,
                           count);
      }
    } else {
      WriteStaysInside(SetVisible(s, false), lines, |lines|);
    }
  }

  lemma DifferentialInlineStaysInside(f: Fields, s: Screen, lines: seq<Line>, first: nat, last: nat)
    requires Fits(lines, s.width) && (f.renderedOnce || s.col == 0)
    requires first <= last && first <= |lines| && first <= |f.lines|
    ensures Inside(s, DifferentialInline(f, s, lines, first, last).1)
  {
    if first < f.viewportTop {
      FullInlineStaysInside(f, s, lines);
    } else if |lines| > |f.lines| && first == |f.lines| && first > 0 {
      WriteStaysInside(NewLine(AtRow(f, s, first - 1)), lines[first..], |lines| - first);
    } else {
      var count := Max(Touched(first, last, |lines|), Touched(first, last, |f.lines|));
      RewriteStaysInside(AtRow(f, s, first), lines[first..first + Touched(first, last, |lines|)], count, count);
    }
  }

  lemma ClearingStaysInside(f: Fields, s: Screen, lines: seq<Line>, first: nat)
    requires Fits(lines, s.width) && first <= |lines| && 0 < s.width
    ensures Inside(s, FullClearing(f, s, lines).1)
    ensures Inside(s, DifferentialClearing(f, s, lines, first).1)
  {
    WriteStaysInside(ClearScreen(SetVisible(s, false)), lines, |lines|);
    WriteStaysInside(ClearFromCursor(MoveToColumn(MoveBy(s, RowDelta(first, f.cursorRow)), 0)), lines[first..],
                     |lines| - first);
  }

  lemma DrawStaysInside(f: Fields, s: Screen, lines: seq<Line>)
    requires Ready(f, s) && Fits(lines, s.width) && 0 < s.width
    ensures Inside(s, Draw(f, s, lines).1)
  {
    var strategy := ChooseStrategy(f, s, lines);
    if f.surface.Inline? {
      match strategy
      case NoChange =>
      case FullRedraw => FullInlineStaysInside(f, s, lines);
      case Differential(first, last) => DifferentialInlineStaysInside(f, s, lines, first, last);
    } else {
      ClearingStaysInside(f, s, lines, if strategy.Differential? then strategy.first else 0);
    }
  }

  lemma RenderStaysInside(f: Fields, s: Screen, frame: seq<Line>)
    requires Ready(f, s) && 0 < s.width
    ensures var (g, t) := Render(f, s, frame); Inside(s, t) && Ready(g, t)
  {
    var lines := LinesOf(frame, s.height);
    if Fits(lines, s.width) {
      DrawStaysInside(f, s, lines);
      SettleStaysInside(Draw(f, s, lines), lines, CursorOf(frame, s.height));
    }
  }

  lemma SettleStaysInside(d: Drawing, lines: seq<Line>, cursor: Option<CursorPosition>)
    ensures var (g, t) := Settle(d, lines, cursor); Inside(d.1, t) && g.renderedOnce
  {
  }

  /** Whatever frames come, on either surface: once the renderer starts at the start of a row, or clears the screen, no
      text runs past the right margin. */
  lemma {:induction false} NothingPastMargin(f: Fields, s: Screen, frames: seq<seq<Line>>)
    requires Ready(f, s) && 0 < s.width
    ensures var (g, t) := RenderAll(f, s, frames); Inside(s, t) && Ready(g, t)
  {
    if frames != [] {
      var n := |frames| - 1;
      NothingPastMargin(f, s, frames[..n]);
      var (g, t) := RenderAll(f, s, frames[..n]);
      RenderStaysInside(g, t, frames[n]);
    }
  }
}
