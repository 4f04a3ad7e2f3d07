/** What a reader of the terminal sees: the text of the frame, character by character, and the cursor at its marker. */
module Seen {
  import opened Basics
  import opened Lines
  import opened Screens
  import opened Rendering
  import opened RenderProofs
  import opened ClearingProofs
  import opened RenderRuns

  /** From row `r` down there is the text of the last lines of the frame, as many as the window has rows, and nothing
      else, column by column. */
  ghost predicate ShowsText(s: Screen, frame: seq<Line>, r: int)
  {
    forall j: nat, c: nat :: Look(RowBelow(s, r, j), c) == TextAt(frame, Max(0, |frame| - s.height) + j, c)
  }

  function RowBelow(s: Screen, r: int, j: nat): Row { RowAt(s.rows, r + j) }

  function TextAt(frame: seq<Line>, i: int, c: nat): Option<Cell>
  {
    if 0 <= i < |frame| && c < |frame[i].cells| then Some(frame[i].cells[c]) else None
  }

  /** The cursor is visible exactly when one of those lines has a marker, and then it is at the first marker of the
      last such line, or in the last column when the marker is behind it. */
  ghost predicate CursorAtMarker(s: Screen, frame: seq<Line>, r: int)
  {
    && (s.visible <==> exists i :: MarkedOnShow(frame, s.height, i))
    && forall i, m: nat :: LastMarker(frame, s.height, i, m) ==>
                             && s.row == r + i - Max(0, |frame| - s.height)
                             && s.col == Min(frame[i].controls[m].column, s.width - 1)
  }

  /** Control sequence `m` of line `i` is that marker. */
  predicate LastMarker(frame: seq<Line>, height: nat, i: int, m: nat)
  {
    && MarkedOnShow(frame, height, i) && FirstMarker(frame[i].controls, m)
    && forall k :: i < k < |frame| ==> HasNoMarker(frame[k])
  }

  predicate MarkedOnShow(frame: seq<Line>, height: nat, i: int)
  {
    0 <= i < |frame| <= i + height && !HasNoMarker(frame[i])
  }

  predicate FirstMarker(controls: seq<Control>, m: nat)
  {
    && m < |controls| && controls[m].code == CURSOR_MARKER
    && forall k :: 0 <= k < m ==> controls[k].code != CURSOR_MARKER
  }

  /** No line is wider than the window. */
  predicate TextFits(frame: seq<Line>, width: nat) { forall i :: 0 <= i < |frame| ==> |frame[i].cells| <= width }

  lemma FitsIs(frame: seq<Line>, height: nat, width: nat)
    ensures Fits(LinesOf(frame, height), width) <==> TextFits(frame, width)
  {
    var lines := LinesOf(frame, height);
    MarkerIsTakenOut(frame, height);
    assert forall i :: 0 <= i < |frame| ==> VisibleWidth(lines[i]) == |frame[i].cells|;
  }

  lemma FrameIsSeen(s: Screen, frame: seq<Line>, r: int)
    requires Shown(s.rows, s.height, LinesOf(frame, s.height), r)
    ensures ShowsText(s, frame, r)
  {
    var lines := LinesOf(frame, s.height);
    MarkerIsTakenOut(frame, s.height);
    forall j: nat, c: nat
      ensures Look(RowBelow(s, r, j), c) == TextAt(frame, Max(0, |frame| - s.height) + j, c)
    {
      var i := Max(0, |frame| - s.height) + j;
      assert RowAt(s.rows, r + j) == FrameRow(lines, s.height, j);
      if i < |frame| { LookOf(lines[i], c); }
    }
  }

  lemma CursorIsAtMarker(s: Screen, frame: seq<Line>, r: int)
    requires CursorShown(s, LinesOf(frame, s.height), r, CursorOf(frame, s.height))
    ensures CursorAtMarker(s, frame, r)
  {
    var cursor := CursorOf(frame, s.height);
    MarkerIsTakenOut(frame, s.height);
    if cursor.Some? {
      var i := cursor.value.row;
      var m: nat :| TakenOut(frame[i], LinesOf(frame, s.height)[i], m, cursor.value.col);
      assert MarkedOnShow(frame, s.height, i);
    }
  }

  /** One call on the inline surface. */
  lemma InlineShowsText(f: Fields, s: Screen, frame: seq<Line>)
    requires InSync(f, s) && f.surface.Inline?
    ensures var (g, t) := Render(f, s, frame);
            if TextFits(frame, s.width)
            then ShowsText(t, frame, RegionTop(g, t)) && CursorAtMarker(t, frame, RegionTop(g, t))
            else g == f && t == s
  {
    InlineStep(f, s, frame);
    FitsIs(frame, s.height, s.width);
    var (g, t) := Render(f, s, frame);
    if TextFits(frame, s.width) {
      FrameIsSeen(t, frame, RegionTop(g, t));
      CursorIsAtMarker(t, frame, RegionTop(g, t));
    }
  }

  /** However many frames came before, on any blank terminal: an accepted frame is read as it was given, and nothing
      above the starting row has changed. */
  lemma InlineRunShowsText(s: Screen, frames: seq<seq<Line>>, frame: seq<Line>)
    requires BlankStart(s) && TextFits(frame, s.width)
    ensures var (g, t) := RenderAll(Initial(Inline), s, frames + [frame]);
            && s.row <= RegionTop(g, t) && SameAbove(s.rows, t.rows, s.row)
            && ShowsText(t, frame, RegionTop(g, t)) && CursorAtMarker(t, frame, RegionTop(g, t))
  {
    InlineRun(s, frames);
    InlineRun(s, frames + [frame]);
    assert (frames + [frame])[..|frames|] == frames;
    var before := RenderAll(Initial(Inline), s, frames);
    InlineShowsText(before.0, before.1, frame);
  }

  /** Each frame of a run on the clearing surface that fits is read as it was given, right after it was rendered. */
  ghost predicate AllRead(f: Fields, s: Screen, frames: seq<seq<Line>>)
    decreases |frames|
  {
    frames == [] ||
    (var (g, t) := Render(f, s, frames[0]);
     && (TextFits(frames[0], s.width) ==> ShowsText(t, frames[0], t.top) && CursorAtMarker(t, frames[0], t.top))
     && AllRead(g, t, frames[1..]))
  }

  lemma {:induction false} ShownIsRead(f: Fields, s: Screen, frames: seq<seq<Line>>)
    requires Aligned(f, s) && AllShown(f, s, frames)
    ensures AllRead(f, s, frames)
    decreases |frames|
  {
    if frames != [] {
      var (g, t) := Render(f, s, frames[0]);
      ClearingStep(f, s, frames[0]);
      FitsIs(frames[0], s.height, s.width);
      if TextFits(frames[0], s.width) {
        FrameIsSeen(t, frames[0], t.top);
        CursorIsAtMarker(t, frames[0], t.top);
      }
      ShownIsRead(g, t, frames[1..]);
    }
  }

  /** A run that stays outside the failing family is read frame by frame as it was given. */
  lemma ClearingRunIsRead(s: Screen, frames: seq<seq<Line>>)
    requires s.Valid() && s.height <= 0x7fff && NeverLosesRow([], frames, s.width, s.height)
    ensures AllRead(Initial(Clearing), s, frames)
  {
    ClearingRun(s, frames);
    ShownIsRead(Initial(Clearing), s, frames);
  }

  /** And so is what follows the next frame that repaints, however many rows were lost before. */
  lemma ClearingRecoversRead(s: Screen, frames: seq<seq<Line>>, frame: seq<Line>, rest: seq<seq<Line>>)
    requires s.Valid() && s.height <= 0x7fff && TextFits(frame, s.width)
    requires Repaints(LastAccepted(frames, s.width, s.height), LinesOf(frame, s.height), s.height)
    requires NeverLosesRow(LinesOf(frame, s.height), rest, s.width, s.height)
    ensures var (g, t) := RenderAll(Initial(Clearing), s, frames); AllRead(g, t, [frame] + rest)
  {
    FitsIs(frame, s.height, s.width);
    ClearingRecovers(s, frames, frame, rest);
    ClearingRunAligned(s, frames);
    var (g, t) := RenderAll(Initial(Clearing), s, frames);
    ShownIsRead(g, t, [frame] + rest);
  }
}
