/**
 The draw pass of the panel, recast as a pure generator of canvas commands.
 One pass clears the canvas, and once the background image has loaded it
 draws the image, a solid polyline through the projected track points, a
 dashed segment from the last point to the destination, and one filled
 circle per point.
 */
module Render {
  import opened Scaling
  import opened Extraction

  /** The panel options the draw pass reads. */
  datatype Options = Options(
    imageUrl: string,
    topLeftLat: real,
    topLeftLong: real,
    bottomRightLat: real,
    bottomRightLong: real,
    destLat: real,
    destLong: real)

  /** Canvas operations, abstracted: a stroke records the line width and
      whether the line dash pattern in force is the dashed one; an arc
      records only its centre and radius. */
  datatype Cmd =
    | Clear(width: real, height: real)
    | DrawImage(url: string, width: real, height: real)
    | BeginPath
    | MoveTo(x: real, y: real)
    | LineTo(x: real, y: real)
    | Stroke(lineWidth: real, dashed: bool)
    | Arc(x: real, y: real, radius: real)
    | Fill

  /** The part of the canvas context's drawing state that outlives a pass and
      matters to the output: whether the 10-on/5-off line dash is in force. */
  datatype Context = Context(lineDashed: bool)

  const LineWidth: real := 2.0
  const PointRadius: real := 3.0
  const LastPointRadius: real := 5.0

  /** Neither corner pair is degenerate, so both axes can be scaled. */
  predicate ValidBounds(o: Options) {
    o.topLeftLong != o.bottomRightLong && o.topLeftLat != o.bottomRightLat
  }

  /** Longitude to canvas x: the left edge maps to 0, the right edge to the width. */
  function CanvasX(lon: real, o: Options, width: real): (x: real)
    requires ValidBounds(o)
    ensures lon == o.topLeftLong ==> x == 0.0
    ensures lon == o.bottomRightLong ==> x == width
  {
    Scale(lon, o.topLeftLong, o.bottomRightLong, 0.0, width)
  }

  /** Latitude to canvas y: the top edge maps to 0, the bottom edge to the height. */
  function CanvasY(lat: real, o: Options, height: real): (y: real)
    requires ValidBounds(o)
    ensures lat == o.topLeftLat ==> y == 0.0
    ensures lat == o.bottomRightLat ==> y == height
  {
    Scale(lat, o.topLeftLat, o.bottomRightLat, 0.0, height)
  }

  /** The path command for point `i`: the first point starts the path, every later one extends it. */
  function PathStep(points: seq<Coordinate>, i: nat, o: Options, width: real, height: real): Cmd
    requires ValidBounds(o) && i < |points|
  {
    var x := CanvasX(points[i].x, o, width);
    var y := CanvasY(points[i].y, o, height);
    if i == 0 then MoveTo(x, y) else LineTo(x, y)
  }

  /** Marker radius: the last point is drawn larger. */
  function Radius(count: nat, index: nat): real {
    if index == count - 1 then LastPointRadius else PointRadius
  }

  /** Command `part` (0, 1 or 2) of the marker for point `k`: begin a path, the circle, fill it. */
  function MarkerPart(points: seq<Coordinate>, k: nat, part: nat, o: Options, width: real, height: real): Cmd
    requires ValidBounds(o) && k < |points|
  {
    if part == 0 then BeginPath
    else if part == 1 then
      Arc(CanvasX(points[k].x, o, width), CanvasY(points[k].y, o, height), Radius(|points|, k))
    else Fill
  }

  /** Number of commands a completed pass issues for n points: clear, image,
      the path (begin, n moves/lines, stroke), the dashed segment (begin,
      move, line, stroke) and three per marker. */
  function SceneLength(n: nat): nat {
    8 + 4 * n
  }

  /** Command `m` of a completed pass, laid out section by section:
      [0, 3) header, [3, 3 + n) path, [3 + n, 8 + n) path stroke and dashed
      segment, [8 + n, 8 + 4n) markers.  `pathDashed` is the dash state the
      track's stroke is drawn with. */
  function SceneCmd(pathDashed: bool, points: seq<Coordinate>, o: Options, width: real, height: real, m: nat): (c: Cmd)
    requires |points| > 0 && ValidBounds(o) && m < SceneLength(|points|)
  {
    var n := |points|;
    var last := points[n - 1];
    if m == 0 then Clear(width, height)
    else if m == 1 then DrawImage(o.imageUrl, width, height)
    else if m == 2 then BeginPath
    else if m < 3 + n then PathStep(points, m - 3, o, width, height)
    else if m == 3 + n then Stroke(LineWidth, pathDashed)
    else if m == 4 + n then BeginPath
    else if m == 5 + n then MoveTo(CanvasX(last.x, o, width), CanvasY(last.y, o, height))
    else if m == 6 + n then LineTo(CanvasX(o.destLong, o, width), CanvasY(o.destLat, o, height))
    else if m == 7 + n then Stroke(LineWidth, true)
    else MarkerPart(points, (m - 8 - n) / 3, (m - 8 - n) % 3, o, width, height)
  }

  /** One pass: nothing at all for an empty track, otherwise a clear, and the
      rest of the scene only if the image loaded. */
  function Pass(pathDashed: bool, points: seq<Coordinate>, o: Options, width: real, height: real, loaded: bool): (r: seq<Cmd>)
    requires |points| > 0 && loaded ==> ValidBounds(o)
  {
    if |points| == 0 then []
    else if !loaded then [Clear(width, height)]
    else seq(SceneLength(|points|), m requires 0 <= m < SceneLength(|points|) =>
               SceneCmd(pathDashed, points, o, width, height, m))
  }

  /** The draw pass with the track stroked solid, whatever state an earlier
      pass left in the context. */
  function Render(points: seq<Coordinate>, o: Options, width: real, height: real, loaded: bool): (r: seq<Cmd>)
    requires |points| > 0 && loaded ==> ValidBounds(o)
    ensures |points| == 0 <==> r == []
    ensures |points| > 0 ==> r[0] == Clear(width, height)
    ensures |points| > 0 && !loaded ==> r == [Clear(width, height)]
    ensures |r| == (if |points| == 0 then 0 else if loaded then 8 + 4 * |points| else 1)
  {
    Pass(false, points, o, width, height, loaded)
  }

  /** The draw pass as the panel writes it: the track is stroked with
      whatever line dash the context carries in, because the pass sets the
      dashed pattern for the destination segment and never resets it. */
  function RenderAsWritten(ctx: Context, points: seq<Coordinate>, o: Options, width: real, height: real, loaded: bool): (r: seq<Cmd>)
    requires |points| > 0 && loaded ==> ValidBounds(o)
    ensures !ctx.lineDashed ==> r == Render(points, o, width, height, loaded)
    ensures |r| == |Render(points, o, width, height, loaded)|
    ensures forall m :: 0 <= m < |r| && m != 3 + |points| ==> r[m] == Render(points, o, width, height, loaded)[m]
    ensures |points| > 0 && loaded ==> r[3 + |points|] == Stroke(LineWidth, ctx.lineDashed)
  {
    Pass(ctx.lineDashed, points, o, width, height, loaded)
  }

  /** Context state after a pass as written: a pass that reaches the
      destination segment leaves the dashed pattern in force, and no pass
      ever clears it. */
  function ContextAfter(ctx: Context, points: seq<Coordinate>, loaded: bool): (after: Context)
    ensures |points| > 0 && loaded ==> after.lineDashed
    ensures !(|points| > 0 && loaded) ==> after == ctx
    ensures ctx.lineDashed ==> after.lineDashed
  {
    if |points| > 0 && loaded then Context(true) else ctx
  }

  /** The track: a begin-path, a move to the first projected point, one line
      to each later projected point in list order, and a solid stroke of
      width 2. */
  lemma RenderTrack(points: seq<Coordinate>, o: Options, width: real, height: real)
    requires |points| > 0 && ValidBounds(o)
    ensures var r := Render(points, o, width, height, true);
            var n := |points|;
            && r[1] == DrawImage(o.imageUrl, width, height)
            && r[2] == BeginPath
            && r[3] == MoveTo(CanvasX(points[0].x, o, width), CanvasY(points[0].y, o, height))
            && (forall i :: 1 <= i < n ==>
                  r[3 + i] == LineTo(CanvasX(points[i].x, o, width), CanvasY(points[i].y, o, height)))
            && r[3 + n] == Stroke(LineWidth, false)
  {
    var r := Render(points, o, width, height, true);
    var n := |points|;
    forall i | 1 <= i < n
      ensures r[3 + i] == LineTo(CanvasX(points[i].x, o, width), CanvasY(points[i].y, o, height))
    {
      assert r[3 + i] == SceneCmd(false, points, o, width, height, 3 + i);
    }
  }

  /** The dashed segment: it starts at the projected last track point and
      ends at the projected destination, and is stroked dashed. */
  lemma RenderDashedSegment(points: seq<Coordinate>, o: Options, width: real, height: real)
    requires |points| > 0 && ValidBounds(o)
    ensures var r := Render(points, o, width, height, true);
            var n := |points|;
            && r[4 + n] == BeginPath
            && r[5 + n] == MoveTo(CanvasX(points[n - 1].x, o, width), CanvasY(points[n - 1].y, o, height))
            && r[6 + n] == LineTo(CanvasX(o.destLong, o, width), CanvasY(o.destLat, o, height))
            && r[7 + n] == Stroke(LineWidth, true)
  {
    var r := Render(points, o, width, height, true);
    var n := |points|;
    assert r[4 + n] == SceneCmd(false, points, o, width, height, 4 + n);
    assert r[5 + n] == SceneCmd(false, points, o, width, height, 5 + n);
    assert r[6 + n] == SceneCmd(false, points, o, width, height, 6 + n);
    assert r[7 + n] == SceneCmd(false, points, o, width, height, 7 + n);
  }

  /** The destination end of the dashed segment does not depend on the track. */
  lemma DestinationIndependentOfTrack(p: seq<Coordinate>, q: seq<Coordinate>, o: Options, width: real, height: real)
    requires |p| > 0 && |q| > 0 && ValidBounds(o)
    ensures Render(p, o, width, height, true)[6 + |p|] == Render(q, o, width, height, true)[6 + |q|]
  {
    RenderDashedSegment(p, o, width, height);
    RenderDashedSegment(q, o, width, height);
  }

  /** The marker for point `k` of a completed pass: a begin-path, a circle at
      the point's projected position with radius 5 for the last point and 3
      for every other, and a fill, placed after the dashed stroke. */
  predicate MarkerDrawn(points: seq<Coordinate>, o: Options, width: real, height: real, k: nat)
    requires |points| > 0 && ValidBounds(o) && k < |points|
  {
    var r := Render(points, o, width, height, true);
    var n := |points|;
    && r[8 + n + 3 * k] == BeginPath
    && r[9 + n + 3 * k] == Arc(CanvasX(points[k].x, o, width), CanvasY(points[k].y, o, height),
                               if k == n - 1 then LastPointRadius else PointRadius)
    && r[10 + n + 3 * k] == Fill
  }

  /** The markers come after the dashed stroke, three commands per point in
      list order. */
  lemma RenderMarkers(points: seq<Coordinate>, o: Options, width: real, height: real)
    requires |points| > 0 && ValidBounds(o)
    ensures forall k :: 0 <= k < |points| ==> MarkerDrawn(points, o, width, height, k)
  {
    forall k | 0 <= k < |points| {
      RenderMarkerAt(points, o, width, height, k);
    }
  }

  /** The marker for one point. */
  lemma RenderMarkerAt(points: seq<Coordinate>, o: Options, width: real, height: real, k: nat)
    requires |points| > 0 && ValidBounds(o) && k < |points|
    ensures MarkerDrawn(points, o, width, height, k)
  {
    RenderMarkerPart(points, o, width, height, k, 0);
    RenderMarkerPart(points, o, width, height, k, 1);
    RenderMarkerPart(points, o, width, height, k, 2);
  }

  /** Command `part` of the marker for point `k` in a completed pass. */
  lemma RenderMarkerPart(points: seq<Coordinate>, o: Options, width: real, height: real, k: nat, part: nat)
    requires |points| > 0 && ValidBounds(o) && k < |points| && part < 3
    ensures 8 + |points| + 3 * k + part < |Render(points, o, width, height, true)|
    ensures Render(points, o, width, height, true)[8 + |points| + 3 * k + part]
            == MarkerPart(points, k, part, o, width, height)
  {
    SceneMarkerAt(false, points, o, width, height, k, part);
    RenderAt(points, o, width, height, 8 + |points| + 3 * k + part);
  }

  /** Command `m` of a completed pass is the layout's command `m`. */
  lemma RenderAt(points: seq<Coordinate>, o: Options, width: real, height: real, m: nat)
    requires |points| > 0 && ValidBounds(o) && m < SceneLength(|points|)
    ensures Render(points, o, width, height, true)[m] == SceneCmd(false, points, o, width, height, m)
  {
  }

  /** Position of command `part` of marker `k` in the layout. */
  lemma SceneMarkerAt(pathDashed: bool, points: seq<Coordinate>, o: Options, width: real, height: real, k: nat, part: nat)
    requires |points| > 0 && ValidBounds(o) && k < |points| && part < 3
    ensures SceneCmd(pathDashed, points, o, width, height, 8 + |points| + 3 * k + part)
            == MarkerPart(points, k, part, o, width, height)
  {
    assert (3 * k + part) / 3 == k && (3 * k + part) % 3 == part;
  }

  /** Exactly one circle per point: a command of a completed pass is an arc
      precisely when it is the middle command of a marker. */
  lemma RenderOneArcPerPoint(points: seq<Coordinate>, o: Options, width: real, height: real)
    requires |points| > 0 && ValidBounds(o)
    ensures var r := Render(points, o, width, height, true);
            var n := |points|;
            forall m :: 0 <= m < |r| ==> (r[m].Arc? <==> 8 + n <= m && (m - 8 - n) % 3 == 1)
  {
    var r := Render(points, o, width, height, true);
    forall m | 0 <= m < |r|
      ensures r[m].Arc? <==> 8 + |points| <= m && (m - 8 - |points|) % 3 == 1
    {
      assert r[m] == SceneCmd(false, points, o, width, height, m);
    }
  }

  /** A one-point track gets the large marker. */
  lemma SinglePointMarker(c: Coordinate, o: Options, width: real, height: real)
    requires ValidBounds(o)
    ensures Render([c], o, width, height, true)[10]
            == Arc(CanvasX(c.x, o, width), CanvasY(c.y, o, height), LastPointRadius)
  {
    RenderMarkerAt([c], o, width, height, 0);
  }

  /** The line-dash leak of the panel as written.  On a fresh context the
      first pass draws as intended, but it leaves the dashed pattern in
      force, so an identical second pass on the same canvas strokes the
      track dashed. */
  lemma LineDashLeaks(points: seq<Coordinate>, o: Options, width: real, height: real)
    requires |points| > 0 && ValidBounds(o)
    ensures RenderAsWritten(Context(false), points, o, width, height, true) == Render(points, o, width, height, true)
    ensures ContextAfter(Context(false), points, true) == Context(true)
    ensures RenderAsWritten(Context(true), points, o, width, height, true)[3 + |points|] == Stroke(LineWidth, true)
    ensures RenderAsWritten(Context(true), points, o, width, height, true) != Render(points, o, width, height, true)
  {
    var n := |points|;
    var bad := RenderAsWritten(Context(true), points, o, width, height, true);
    assert bad[3 + n] == SceneCmd(true, points, o, width, height, 3 + n);
    RenderTrack(points, o, width, height);
  }

  /** The track loop of the draw pass: move to the first point, line to every
      later one.  The cursor it leaves behind is the projected last point,
      which is where the dashed segment starts. */
  method DrawTrack(points: seq<Coordinate>, o: Options, width: real, height: real)
    returns (path: seq<Cmd>, canvasX: real, canvasY: real)
    requires |points| > 0 && ValidBounds(o)
    ensures |path| == |points|
    ensures forall i :: 0 <= i < |points| ==> path[i] == PathStep(points, i, o, width, height)
    ensures canvasX == CanvasX(points[|points| - 1].x, o, width)
    ensures canvasY == CanvasY(points[|points| - 1].y, o, height)
  {
    path := [];
    canvasX, canvasY := 0.0, 0.0;
    var i := 0;
    while i < |points|
      invariant 0 <= i <= |points|
      invariant |path| == i
      invariant forall j :: 0 <= j < i ==> path[j] == PathStep(points, j, o, width, height)
      invariant i > 0 ==> canvasX == CanvasX(points[i - 1].x, o, width)
      invariant i > 0 ==> canvasY == CanvasY(points[i - 1].y, o, height)
    {
      canvasX := CanvasX(points[i].x, o, width);
      canvasY := CanvasY(points[i].y, o, height);
      if i == 0 {
        path := path + [MoveTo(canvasX, canvasY)];
      } else {
        path := path + [LineTo(canvasX, canvasY)];
      }
      i := i + 1;
    }
  }

  /** The marker loop of the draw pass: one filled circle per point. */
  method DrawMarkers(points: seq<Coordinate>, o: Options, width: real, height: real)
    returns (marks: seq<Cmd>)
    requires ValidBounds(o)
    ensures |marks| == 3 * |points|
    ensures forall m :: 0 <= m < |marks| ==> marks[m] == MarkerPart(points, m / 3, m % 3, o, width, height)
  {
    marks := [];
    var j := 0;
    while j < |points|
      invariant 0 <= j <= |points|
      invariant |marks| == 3 * j
      invariant forall m :: 0 <= m < |marks| ==> marks[m] == MarkerPart(points, m / 3, m % 3, o, width, height)
    {
      var x := CanvasX(points[j].x, o, width);
      var y := CanvasY(points[j].y, o, height);
      var radius := if j == |points| - 1 then LastPointRadius else PointRadius;
      assert (3 * j) / 3 == j && (3 * j) % 3 == 0;
      assert (3 * j + 1) / 3 == j && (3 * j + 1) % 3 == 1;
      assert (3 * j + 2) / 3 == j && (3 * j + 2) % 3 == 2;
      marks := marks + [BeginPath, Arc(x, y, radius), Fill];
      j := j + 1;
    }
  }

  /** The blocks the draw pass issues, in the order it issues them, make up the layout. */
  lemma AssembleScene(points: seq<Coordinate>, o: Options, width: real, height: real,
                      head: seq<Cmd>, path: seq<Cmd>, mid: seq<Cmd>, marks: seq<Cmd>)
    requires |points| > 0 && ValidBounds(o)
    requires head == [Clear(width, height), DrawImage(o.imageUrl, width, height), BeginPath]
    requires |path| == |points|
    requires forall i :: 0 <= i < |points| ==> path[i] == PathStep(points, i, o, width, height)
    requires mid == [ Stroke(LineWidth, false),
                      BeginPath,
                      MoveTo(CanvasX(points[|points| - 1].x, o, width), CanvasY(points[|points| - 1].y, o, height)),
                      LineTo(CanvasX(o.destLong, o, width), CanvasY(o.destLat, o, height)),
                      Stroke(LineWidth, true) ]
    requires |marks| == 3 * |points|
    requires forall m :: 0 <= m < |marks| ==> marks[m] == MarkerPart(points, m / 3, m % 3, o, width, height)
    ensures head + path + mid + marks == Render(points, o, width, height, true)
  {
    var n := |points|;
    var all := head + path + mid + marks;
    var r := Render(points, o, width, height, true);
    forall m | 0 <= m < |r| ensures all[m] == r[m] {
      assert r[m] == SceneCmd(false, points, o, width, height, m);
      if m < 3 {
        assert all[m] == head[m];
      } else if m < 3 + n {
        assert all[m] == path[m - 3];
      } else if m < 8 + n {
        assert all[m] == mid[m - 3 - n];
      } else {
        assert all[m] == marks[m - 8 - n];
      }
    }
  }

  /** The draw pass step by step, as the panel runs it against a canvas
      context whose line dash persists between passes, with the track's
      dash pattern reset to solid before it is stroked.  The commands do not
      depend on the incoming context. */
  method Draw(ctx: Context, points: seq<Coordinate>, o: Options, width: real, height: real, loaded: bool)
    returns (cmds: seq<Cmd>, after: Context)
    requires |points| > 0 && loaded ==> ValidBounds(o)
    ensures cmds == Render(points, o, width, height, loaded)
    ensures after == ContextAfter(ctx, points, loaded)
  {
    cmds := [];
    after := ctx;
    if |points| > 0 {
      cmds := [Clear(width, height)];
      if loaded {
        var head := cmds + [DrawImage(o.imageUrl, width, height), BeginPath];
        var path, canvasX, canvasY := DrawTrack(points, o, width, height);
        after := Context(false);
        var mid := [Stroke(LineWidth, after.lineDashed), BeginPath, MoveTo(canvasX, canvasY)];
        canvasX := CanvasX(o.destLong, o, width);
        canvasY := CanvasY(o.destLat, o, height);
        after := Context(true);
        mid := mid + [LineTo(canvasX, canvasY), Stroke(LineWidth, after.lineDashed)];
        var marks := DrawMarkers(points, o, width, height);
        AssembleScene(points, o, width, height, head, path, mid, marks);
        cmds := head + path + mid + marks;
      }
    }
  }

  /** The whole panel: extract the track from the data series, then draw it. */
  function Panel(series: seq<Series>, o: Options, width: real, height: real, loaded: bool): (r: seq<Cmd>)
    requires AllReadable(series)
    requires TotalRows(series) > 0 && loaded ==> ValidBounds(o)
    ensures TotalRows(series) == 0 ==> r == []
    ensures |r| == (if TotalRows(series) == 0 then 0 else if loaded then 8 + 4 * TotalRows(series) else 1)
  {
    ExtractLength(series);
    Render(Extract(series), o, width, height, loaded)
  }
}
