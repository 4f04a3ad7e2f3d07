/** The renderer sends only what changed: rows whose lines are the same in both frames are not written at all. That is
said by looking at a screen with any rows whatever on show: what a call leaves there it has not touched. */
module Economy {
  import opened Basics
  import opened Lines
  import opened Screens
  import opened Rendering
  import opened RenderProofs
  import opened ClearingProofs

  lemma PrefixAt<T>(a: seq<T>, b: seq<T>, k: nat, i: nat)
    requires i < k <= |a| && k <= |b| && a[..k] == b[..k]
    ensures a[i] == b[i]
  {
    assert a[..k][i] == b[..k][i];
  }

  lemma SuffixAt<T>(a: seq<T>, b: seq<T>, k: nat, i: nat)
    requires k <= i < |a| == |b| && a[k..] == b[k..]
    ensures a[i] == b[i]
  {
    assert a[k..][i - k] == b[k..][i - k];
  }

  /** Lines up to number `n` are the same in both frames, or from number `n` on in frames of one length. */
  ghost predicate SameAround(shown: seq<Line>, lines: seq<Line>, n: nat)
  {
    && n < |shown| <= |lines|
    && (shown[..n + 1] == lines[..n + 1] || (|shown| == |lines| && shown[n..] == lines[n..]))
  }

  /** Such a line is outside of what changed. */
  lemma OutsideChange(shown: seq<Line>, lines: seq<Line>, n: nat, first: nat, last: nat)
    requires SameAround(shown, lines, n) && ChangedRange(shown, lines) == Some((first, last))
    ensures n < first || n > last
  {
    if shown[..n + 1] == lines[..n + 1] {
      NotAbove(shown, lines, first, n + 1);
    } else {
      LastDiffers(shown, lines, first, last);
      NotBelow(shown, lines, last, n);
    }
  }

  lemma LastDiffers(shown: seq<Line>, lines: seq<Line>, first: nat, last: nat)
    requires |shown| == |lines| && ChangedRange(shown, lines) == Some((first, last))
    ensures last < |shown| && shown[last] != lines[last]
  {
  }

  lemma NotAbove(shown: seq<Line>, lines: seq<Line>, first: nat, top: nat)
    requires first <= |shown| <= |lines| && top <= |shown| && shown[..top] == lines[..top]
    requires first < |shown| ==> shown[first] != lines[first]
    ensures top <= first
  {
    forall i | 0 <= i < top ensures shown[i] == lines[i] { PrefixAt(shown, lines, top, i); }
  }

  lemma NotBelow(shown: seq<Line>, lines: seq<Line>, last: nat, n: nat)
    requires last < |shown| == |lines| && n <= |shown| && shown[n..] == lines[n..] && shown[last] != lines[last]
    ensures last < n
  {
    forall i | n <= i < |shown| ensures shown[i] == lines[i] { SuffixAt(shown, lines, n, i); }
  }

  lemma ChangeLeaves(f: Fields, s: Screen, lines: seq<Line>, first: nat, last: nat, i: int)
    requires Located(f, s) && f.viewportTop <= first && (first < |f.lines| || first == 0)
    requires Changes(f.lines, lines, first, last)
    requires var base := RegionTop(f, s) - f.viewportTop; i < base + first || i > base + last
    ensures RowAt(ChangeInline(f, s, lines, first, last).1.rows, i) == RowAt(s.rows, i)
  {
    var moved := s.(row := RegionTop(f, s) + first - f.viewportTop, col := 0);
    AtRowIs(f, s, first);
    ChangeLeavesAround(f, s, lines, first, last, moved, i);
  }

  lemma ChangeLeavesAround(f: Fields, s: Screen, lines: seq<Line>, first: nat, last: nat, moved: Screen, i: int)
    requires Changes(f.lines, lines, first, last) && AtRow(f, s, first) == moved && moved.Valid()
    requires moved.rows == s.rows && (i < moved.row || i > moved.row + last - first)
    ensures RowAt(ChangeInline(f, s, lines, first, last).1.rows, i) == RowAt(s.rows, i)
  {
    ChangeTouches(f.lines, lines, first, last);
    ChangeInlineIs(f, s, lines, first, last, moved);
    RewrittenLeaves(moved, lines[first..last + 1], last - first + 1, i);
  }

  lemma RewrittenLeaves(s: Screen, lines: seq<Line>, count: nat, i: int)
    requires s.Valid() && !(s.row <= i < s.row + count)
    ensures RowAt(RewriteRows(s, lines, count, count).rows, i) == RowAt(s.rows, i)
  {
    RewrittenRow(s, lines, count, count, i);
  }

  lemma AppendLeaves(f: Fields, s: Screen, lines: seq<Line>, i: int)
    requires Located(f, s) && 0 < |f.lines| < |lines| && i < RegionTop(f, s) - f.viewportTop + |f.lines|
    ensures RowAt(AppendInline(f, s, lines, |f.lines|).1.rows, i) == RowAt(s.rows, i)
  {
    var below := SteppedTo(s, RegionTop(f, s) + |f.lines| - f.viewportTop);
    StepsBelow(f, s, below);
    WrittenRow(below, lines[|f.lines|..], |lines| - |f.lines|, i);
  }

  /** The renderer's size is that of the terminal, and the new frame is not shorter. */
  ghost predicate Differs(f: Fields, s: Screen, lines: seq<Line>)
  {
    f.renderedOnce && f.width == s.width && f.height == s.height && 0 < s.width && |f.lines| <= |lines|
  }

  lemma InlineLeaves(f: Fields, s: Screen, lines: seq<Line>, n: nat)
    requires Located(f, s) && f.surface.Inline? && Differs(f, s, lines)
    requires SameAround(f.lines, lines, n) && f.viewportTop <= n
    requires f.lines[..f.viewportTop] == lines[..f.viewportTop]
    ensures var i := RegionTop(f, s) + n - f.viewportTop;
            RowAt(Draw(f, s, lines).1.rows, i) == RowAt(s.rows, i)
  {
    var range := ChangedRange(f.lines, lines);
    if range.Some? {
      var (first, last) := range.value;
      OutsideChange(f.lines, lines, n, first, last);
      RangeChanges(f.lines, lines, first, last);
      NotAbove(f.lines, lines, first, f.viewportTop);
      if |lines| > |f.lines| && first == |f.lines| && first > 0 {
        AppendLeaves(f, s, lines, RegionTop(f, s) + n - f.viewportTop);
      } else {
        ChangeLeaves(f, s, lines, first, last, RegionTop(f, s) + n - f.viewportTop);
      }
    }
  }

  lemma SettleLeaves(d: Drawing, lines: seq<Line>, cursor: Option<CursorPosition>)
    ensures Settle(d, lines, cursor).1.rows == d.1.rows
  {
  }

  /** Which strategy a frame gets: all is drawn anew at first, in another size, and when there are fewer lines; nothing
      is drawn when there are the same lines; and otherwise what is from the first line that differs to the last one. */
  lemma StrategyMeans(f: Fields, s: Screen, lines: seq<Line>)
    requires 0 < s.width && 0 < s.height
    ensures var strategy := ChooseStrategy(f, s, lines);
            && (strategy.FullRedraw? <==> f.width != s.width || f.height != s.height || |lines| < |f.lines|)
            && (strategy.NoChange? <==> f.width == s.width && f.height == s.height && lines == f.lines)
            && (strategy.Differential? ==>
                  && (forall i :: 0 <= i < strategy.first ==> f.lines[i] == lines[i])
                  && (strategy.first < |f.lines| ==> f.lines[strategy.first] != lines[strategy.first])
                  && (|f.lines| < |lines| ==> strategy.last == |lines| - 1)
                  && (|f.lines| == |lines| ==>
                        && f.lines[strategy.last] != lines[strategy.last]
                        && forall i :: strategy.last < i < |lines| ==> f.lines[i] == lines[i]))
  {
    var range := ChangedRange(f.lines, lines);
    if range.Some? && |f.lines| <= |lines| {
      var first := range.value.0;
      forall i | 0 <= i < first ensures f.lines[i] == lines[i] { PrefixAt(f.lines, lines, first, i); }
      if |f.lines| == |lines| { LastDiffers(f.lines, lines, first, range.value.1); }
    }
  }

  /** A frame like the one before writes nothing, on either surface. */
  lemma SameFrameWritesNothing(f: Fields, s: Screen, frame: seq<Line>)
    requires Differs(f, s, LinesOf(frame, s.height)) && 0 < s.height && f.lines == LinesOf(frame, s.height)
    ensures Render(f, s, frame).1.rows == s.rows
  {
    SettleLeaves(Draw(f, s, f.lines), f.lines, CursorOf(frame, s.height));
  }

  /** On the inline surface, when nothing above the window changed: the row of a line is left alone if the lines up to
      it are the same as before, or those from it on in a frame of the same length. */
  lemma InlineWritesOnlyChanges(f: Fields, s: Screen, frame: seq<Line>, n: nat)
    requires Located(f, s) && f.surface.Inline? && Differs(f, s, LinesOf(frame, s.height))
    requires SameAround(f.lines, LinesOf(frame, s.height), n) && f.viewportTop <= n
    requires f.lines[..f.viewportTop] == LinesOf(frame, s.height)[..f.viewportTop]
    ensures var i := RegionTop(f, s) + n - f.viewportTop;
            RowAt(Render(f, s, frame).1.rows, i) == RowAt(s.rows, i)
  {
    var lines := LinesOf(frame, s.height);
    InlineLeaves(f, s, lines, n);
    SettleLeaves(Draw(f, s, lines), lines, CursorOf(frame, s.height));
  }

  lemma ClearingLeaves(f: Fields, s: Screen, lines: seq<Line>, n: nat)
    requires Aligned(f, s) && Differs(f, s, lines) && n < |f.lines| && f.lines[..n + 1] == lines[..n + 1]
    requires f.viewportTop <= n < f.viewportTop + s.height - 1
    ensures RowAt(Draw(f, s, lines).1.rows, s.top + n - f.viewportTop) == RowAt(s.rows, s.top + n - f.viewportTop)
  {
    var range := ChangedRange(f.lines, lines);
    if range.Some? {
      var (first, last) := range.value;
      NotAbove(f.lines, lines, first, n + 1);
      DifferentialLeaves(f, s, lines, first, n);
    }
  }

  lemma DifferentialLeaves(f: Fields, s: Screen, lines: seq<Line>, first: nat, n: nat)
    requires Aligned(f, s) && f.renderedOnce && first <= |f.lines| && first <= |lines|
    requires f.viewportTop <= n < first && n < f.viewportTop + s.height - 1
    ensures var i := s.top + n - f.viewportTop;
            RowAt(DifferentialClearing(f, s, lines, first).1.rows, i) == RowAt(s.rows, i)
  {
    var p := ClearingStart(f, s, lines, first);
    ClearingReplaces(s, p, lines, first);
    ReplacedLeaves(s, WriteLines(ClearedFrom(s, p), lines[first..], |lines| - first), p, lines, first,
                   s.top + n - f.viewportTop);
  }

  lemma ReplacedLeaves(s: Screen, t: Screen, p: nat, lines: seq<Line>, first: nat, i: int)
    requires first <= |lines| && Replaced(s, t, p, lines, first) && i < p
    ensures RowAt(t.rows, i) == RowAt(s.rows, i)
  {
  }

  /** On the clearing surface the rows above the first change are left alone, except the last one of the window. */
  lemma ClearingWritesFromChange(f: Fields, s: Screen, frame: seq<Line>, n: nat)
    requires Aligned(f, s) && Differs(f, s, LinesOf(frame, s.height)) && n < |f.lines|
    requires f.lines[..n + 1] == LinesOf(frame, s.height)[..n + 1]
    requires f.viewportTop <= n < f.viewportTop + s.height - 1
    ensures var i := s.top + n - f.viewportTop; RowAt(Render(f, s, frame).1.rows, i) == RowAt(s.rows, i)
  {
    var lines := LinesOf(frame, s.height);
    ClearingLeaves(f, s, lines, n);
    SettleLeaves(Draw(f, s, lines), lines, CursorOf(frame, s.height));
  }
}
