/** Whole runs of the renderer: any number of frames, accepted or not. */
module RenderRuns {
  import opened Lines
  import opened Screens
  import opened Rendering
  import opened RenderProofs
  import opened ClearingProofs

  /** Fields and screen after all the frames were rendered, one call each. */
  function RenderAll(f: Fields, s: Screen, frames: seq<seq<Line>>): Drawing
  {
    if frames == [] then (f, s) else
      var (g, t) := RenderAll(f, s, frames[..|frames| - 1]);
      Render(g, t, frames[|frames| - 1])
  }

  // ---------------------------------------------------------------- inline surface

  /** Every reachable state of an inline renderer is in sync, and no run ever changes a row above the one
      the cursor started on. */
  lemma {:induction false} InlineRun(s: Screen, frames: seq<seq<Line>>)
    requires BlankStart(s)
    ensures var (g, t) := RenderAll(Initial(Inline), s, frames);
            && InSync(g, t) && g.surface.Inline? && t.width == s.width && t.height == s.height
            && s.row <= RegionTop(g, t)
            && forall i :: i < s.row ==> RowAt(t.rows, i) == RowAt(s.rows, i)
  {
    if frames == [] {
      InitiallyInSync(s);
    } else {
      InlineRun(s, frames[..|frames| - 1]);
      var (g, t) := RenderAll(Initial(Inline), s, frames[..|frames| - 1]);
      InlineStep(g, t, frames[|frames| - 1]);
    }
  }

  /** What a reader sees: the row `j` rows below the region top. */
  ghost function Below(d: Drawing, j: nat): Row
  {
    RowAt(d.1.rows, RegionTop(d.0, d.1) + j)
  }

  ghost predicate SameView(d: Drawing, e: Drawing)
  {
    && (forall j: nat :: Below(d, j) == Below(e, j))
    && d.1.visible == e.1.visible
    && (d.1.visible ==>
          && d.1.row - RegionTop(d.0, d.1) == e.1.row - RegionTop(e.0, e.1)
          && d.1.col == e.1.col)
  }

  /** However many frames came before, an accepted frame looks as if it were the first one drawn, on any
      other terminal of the same size. */
  lemma InlineAgreesWithFreshDraw(s: Screen, frames: seq<seq<Line>>, frame: seq<Line>, unused: Screen)
    requires BlankStart(s) && BlankStart(unused) && s.width == unused.width && s.height == unused.height
    requires Fits(LinesOf(frame, s.height), s.width)
    ensures SameView(RenderAll(Initial(Inline), s, frames + [frame]), Render(Initial(Inline), unused, frame))
  {
    var before := RenderAll(Initial(Inline), s, frames);
    assert (frames + [frame])[..|frames|] == frames;
    InlineRun(s, frames);
    InlineStep(before.0, before.1, frame);
    InitiallyInSync(unused);
    InlineStep(Initial(Inline), unused, frame);
    var d, e := Render(before.0, before.1, frame), Render(Initial(Inline), unused, frame);
    ViewOfFrame(d.0, d.1, e.0, e.1);
  }

  lemma ViewOfFrame(f: Fields, s: Screen, g: Fields, t: Screen)
    requires InSync(f, s) && InSync(g, t) && f.lines == g.lines && s.height == t.height
    ensures forall j: nat :: Below((f, s), j) == Below((g, t), j)
  {
    forall j: nat
      ensures Below((f, s), j) == Below((g, t), j)
    {
      assert RowAt(s.rows, RegionTop(f, s) + j) == FrameRow(f.lines, s.height, RegionTop(f, s) + j - RegionTop(f, s));
      assert RowAt(t.rows, RegionTop(g, t) + j) == FrameRow(g.lines, t.height, RegionTop(g, t) + j - RegionTop(g, t));
    }
  }

  // ---------------------------------------------------------------- clearing surface

  /** Each frame of the run that fits is on show, with its cursor, right after it was rendered. */
  ghost predicate AllShown(f: Fields, s: Screen, frames: seq<seq<Line>>)
    decreases |frames|
  {
    frames == [] ||
    (var lines := LinesOf(frames[0], s.height);
     var (g, t) := Render(f, s, frames[0]);
     && (Fits(lines, s.width) ==> ShowsFrame(t, lines) && CursorShown(t, lines, t.top, CursorOf(frames[0], s.height)))
     && AllShown(g, t, frames[1..]))
  }

  /** No two accepted frames in a row are in the failing family. It takes only the frames and the size of the
      terminal to tell. */
  ghost predicate NeverLosesRow(shown: seq<Line>, frames: seq<seq<Line>>, width: nat, height: nat)
    decreases |frames|
  {
    frames == [] ||
    (var lines := LinesOf(frames[0], height);
     if Fits(lines, width)
     then !LosesRow(shown, lines, height) && NeverLosesRow(lines, frames[1..], width, height)
     else NeverLosesRow(shown, frames[1..], width, height))
  }

  lemma {:induction false} ClearingRunFrom(f: Fields, s: Screen, frames: seq<seq<Line>>)
    requires ClearSync(f, s)
    ensures AllShown(f, s, frames) <==> NeverLosesRow(f.lines, frames, s.width, s.height)
    decreases |frames|
  {
    if frames != [] {
      ClearingStep(f, s, frames[0]);
      var lines := LinesOf(frames[0], s.height);
      var (g, t) := Render(f, s, frames[0]);
      if !Fits(lines, s.width) || !LosesRow(f.lines, lines, s.height) {
        ClearingRunFrom(g, t, frames[1..]);
      }
    }
  }

  /** A run on the clearing surface shows every accepted frame if and only if it stays outside the failing
      family, from any screen whatever. */
  lemma ClearingRun(s: Screen, frames: seq<seq<Line>>)
    requires s.Valid() && s.height <= 0x7fff
    ensures AllShown(Initial(Clearing), s, frames) <==> NeverLosesRow([], frames, s.width, s.height)
  {
    ClearingRunFrom(Initial(Clearing), s, frames);
  }

  /** The last frame of a run that was accepted. */
  function LastAccepted(frames: seq<seq<Line>>, width: nat, height: nat): seq<Line>
  {
    if frames == [] then [] else
      var lines := LinesOf(frames[|frames| - 1], height);
      if Fits(lines, width) then lines else LastAccepted(frames[..|frames| - 1], width, height)
  }

  /** Every run leaves the fields aligned with the screen, whatever rows it lost. */
  lemma {:induction false} ClearingRunAligned(s: Screen, frames: seq<seq<Line>>)
    requires s.Valid() && s.height <= 0x7fff
    ensures var (g, t) := RenderAll(Initial(Clearing), s, frames);
            && Aligned(g, t) && t.width == s.width && t.height == s.height
            && g.lines == LastAccepted(frames, s.width, s.height)
  {
    if frames != [] {
      ClearingRunAligned(s, frames[..|frames| - 1]);
      var (g, t) := RenderAll(Initial(Clearing), s, frames[..|frames| - 1]);
      ClearingStep(g, t, frames[|frames| - 1]);
    }
  }

  /** However many rows a run lost, the next frame that repaints is on show with its cursor, and from there on a
      run is right exactly when it stays outside the failing family. */
  lemma ClearingRecovers(s: Screen, frames: seq<seq<Line>>, frame: seq<Line>, rest: seq<seq<Line>>)
    requires s.Valid() && s.height <= 0x7fff && Fits(LinesOf(frame, s.height), s.width)
    requires Repaints(LastAccepted(frames, s.width, s.height), LinesOf(frame, s.height), s.height)
    ensures var (g, t) := RenderAll(Initial(Clearing), s, frames);
            AllShown(g, t, [frame] + rest) <==> NeverLosesRow(LinesOf(frame, s.height), rest, s.width, s.height)
  {
    var (g, t) := RenderAll(Initial(Clearing), s, frames);
    ClearingRunAligned(s, frames);
    ClearingStep(g, t, frame);
    var (h, u) := Render(g, t, frame);
    ClearingRunFrom(h, u, rest);
    assert ([frame] + rest)[1..] == rest;
  }

  /** The failing family is not empty: adding a third line below two different ones in a window of two
      rows leaves the wrong two lines on show. */
  lemma ClearingLosesRow(s: Screen, a: Cell, b: Cell, c: Cell)
    requires s.Valid() && s.height == 2 && a != b
    ensures var l1, l2, l3 := Line([a], []), Line([b], []), Line([c], []);
            !AllShown(Initial(Clearing), s, [[l1, l2], [l1, l2, l3]])
  {
    var l1, l2, l3 := Line([a], []), Line([b], []), Line([c], []);
    var two, three := [l1, l2], [l1, l2, l3];
    assert three[..2] == two;
    assert !LookAlike(three, 0);
    assert LosesRow(two, three, 2);
    UnmarkedFrame(two, 2);
    UnmarkedFrame(three, 2);
    assert !NeverLosesRow(two, [three], s.width, 2);
    assert [two, three][1..] == [three];
    ClearingRun(s, [two, three]);
  }

  lemma UnmarkedFrame(frame: seq<Line>, height: nat)
    requires forall i :: 0 <= i < |frame| ==> frame[i].controls == []
    ensures LinesOf(frame, height) == frame
  {
  }
}
