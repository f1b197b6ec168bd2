# Indoor position panel: coordinate mapping, point extraction and draw pass

This project models the core of a dashboard panel that draws a track of
geographic points on top of a floor-plan image. The model has three parts:

- `Scaling` (scaling.dfy) is the panel's `scale`. It is an unclamped affine map
  from `[inMin, inMax]` to `[outMin, outMax]`, over the reals. Longitude is
  mapped to canvas x over `[0, width]` and latitude to canvas y over `[0, height]`.
- `Text` (text.dfy) and `Extraction` (extraction.dfy) cover point extraction.
  Each data series is searched for the first field whose lower-cased name starts
  with `"lon"` and the first whose lower-cased name starts with `"lat"`. If both
  exist, the two fields are paired row by row, driven by the longitude field's
  length. Points are collected in series order, then row order.
- `Render` (render.dfy) covers the draw pass. It is recast as a pure function
  from its inputs to a list of abstract canvas commands (`Cmd`). The image load
  is the boolean `loaded`, and the context's line-dash setting is the record
  `Context`. The order is fixed: clear, background image, track, dashed
  segment to the destination, one marker per point.
  - `RenderAsWritten` is the pass as the panel writes it. The track is stroked
    with whatever line dash the context carries in, and `ContextAfter` is the
    state the pass leaves behind.
  - `Render` and `Draw` are the corrected pass, which strokes the track solid
    on every pass (see "## Findings"). `Render` gives the layout command by
    command. `Draw` follows the panel's loops and cursor variables, adds the
    dash reset, and is proved to produce exactly `Render`'s layout.

Two behaviours of the code are worth stating plainly:

- With no points the code draws nothing, not even the clear or the background.
  Everything sits behind the guard at line 48.
- The cursor starts at (0, 0) (lines 57-58), and the dashed segment starts from
  that cursor (line 77). The initial value is never what the segment uses,
  because the track loop always runs at least once before line 77. The segment
  therefore always starts at the projected last point (`DrawTrack`,
  `RenderDashedSegment`).

## Model

| member | source | states |
|---|---|---|
| Scaling.ScaleInterpolates | src/components/SimplePanel.tsx:12-16 | the result lies on the line through (inMin, outMin) and (inMax, outMax): (r - outMin)(inMax - inMin) = (v - inMin)(outMax - outMin) |
| Scaling.Scale | src/components/SimplePanel.tsx:12-16 | the map sends inMin to outMin and inMax to outMax |
| Scaling.ScaleAffine | src/components/SimplePanel.tsx:13 | the difference of two results is the difference of the inputs times the slope (outMax - outMin)/(inMax - inMin) |
| Scaling.ScaleMonotone | src/components/SimplePanel.tsx:13 | non-decreasing for slope >= 0, strictly increasing for slope > 0, strictly decreasing for slope < 0 |
| Scaling.ScaleUnclamped | src/components/SimplePanel.tsx:13 | in either orientation (so also for the latitude axis, whose top bound usually exceeds its bottom bound), v lies between inMin and inMax iff its image lies between outMin and outMax; for increasing intervals, below maps below and above maps above |
| Scaling.ScaleRoundTrip | src/components/SimplePanel.tsx:12-16 | scaling back with the intervals swapped returns the original value |
| Scaling.ScaleExamples | src/components/SimplePanel.tsx:13 | scale(5,0,10,0,100) = 50 and scale(20,0,10,0,100) = 200 (no clamping) |
| Text.Lower | src/components/SimplePanel.tsx:27-28 | lower-casing keeps the length and lower-cases every character (ASCII) |
| Text.NameMatchesIgnoringCase | src/components/SimplePanel.tsx:27-28 | for a lower-case prefix, "lower-case then starts-with" holds iff each leading character is the prefix letter or its capital |
| Text.LonNameExamples | src/components/SimplePanel.tsx:27 | "Lon", "LONGITUDE" and "longitude_deg" qualify as longitude names |
| Text.NonLonNameExamples | src/components/SimplePanel.tsx:27 | "lo" and "x_lon" do not qualify |
| Text.LonLatExclusive | src/components/SimplePanel.tsx:27-28 | no name qualifies as both longitude and latitude |
| Extraction.Zip | src/components/SimplePanel.tsx:31-35 | the pairing has as many points as the shorter column, and point i is (xs[i], ys[i]) |
| Extraction.FindField | src/components/SimplePanel.tsx:27-28 | the result is the index of the first field whose name matches, or None exactly when no field matches |
| Extraction.ContributesIff | src/components/SimplePanel.tsx:27-30 | a series contributes iff some field matches "lon" and some field matches "lat" |
| Extraction.SeriesPoints | src/components/SimplePanel.tsx:30-36 | without both fields a series yields nothing; otherwise one point per longitude value, point i being (lon.values[i], lat.values[i]) |
| Extraction.Extract | src/components/SimplePanel.tsx:26-37 | a series list in which no series has both fields yields no points |
| Extraction.ExtractLength | src/components/SimplePanel.tsx:26-37 | the number of points is the sum of the longitude-field lengths over contributing series |
| Extraction.ExtractAppend | src/components/SimplePanel.tsx:26-37 | the points of earlier series come before those of later series |
| Extraction.ExtractAt | src/components/SimplePanel.tsx:26-37 | row i of series k is the point right after all points of the series before k, and pairs that row's longitude and latitude |
| Extraction.CollectSeries | src/components/SimplePanel.tsx:27-36 | the per-series loop body pushes exactly the series' block of points |
| Extraction.ExtractCoordinates | src/components/SimplePanel.tsx:22-40 | the collecting loop returns the series-by-series extraction, with one point per contributing longitude value |
| Extraction.ExtractPairsRows | src/components/SimplePanel.tsx:26-37 | lon = [1,2,3] and lat = [4,5,6] give [(1,4),(2,5),(3,6)] |
| Extraction.ExtractNeedsBothFields | src/components/SimplePanel.tsx:30 | a series with a longitude field and no latitude field gives no points |
| Extraction.ExtractUsesFirstMatch | src/components/SimplePanel.tsx:27 | when two fields qualify as longitude, the first in field order is used |
| Render.CanvasX | src/components/SimplePanel.tsx:62 | the top-left longitude projects to x = 0 and the bottom-right longitude to x = width |
| Render.CanvasY | src/components/SimplePanel.tsx:63 | the top-left latitude projects to y = 0 and the bottom-right latitude to y = height |
| Render.Render | src/components/SimplePanel.tsx:44-101 | the corrected pass: no points give no commands at all; otherwise the pass starts with a clear; an unloaded image leaves only the clear; a completed pass has 8 + 4n commands |
| Render.RenderTrack | src/components/SimplePanel.tsx:56-73 | after the image comes begin-path, a move to the projected first point, one line to each later projected point in order, then a solid width-2 stroke |
| Render.RenderDashedSegment | src/components/SimplePanel.tsx:76-83 | the dashed segment goes from the projected last point to the projected destination and is stroked dashed at width 2 |
| Render.DestinationIndependentOfTrack | src/components/SimplePanel.tsx:78-80 | the segment's destination end is the same for any two non-empty tracks |
| Render.RenderMarkers | src/components/SimplePanel.tsx:86-98 | after the dashed stroke, point k gets begin-path, an arc at its projected position, and a fill; the radius is 5 for the last point and 3 otherwise |
| Render.RenderOneArcPerPoint | src/components/SimplePanel.tsx:86-98 | a command is an arc exactly when it is the middle command of a marker, so there is one arc per point and none before the markers |
| Render.SinglePointMarker | src/components/SimplePanel.tsx:94 | a one-point track gets the radius-5 marker |
| Render.RenderAsWritten | src/components/SimplePanel.tsx:71-83 | the pass as written has the same length as Render and agrees with it at every command except the track stroke (index 3 + n), which uses the dash the context carries in; with no dash in force it equals Render |
| Render.ContextAfter | src/components/SimplePanel.tsx:76-83 | a pass that reaches the dashed segment leaves the dash set; any other pass leaves the context unchanged; a set dash is never cleared |
| Render.LineDashLeaks | src/components/SimplePanel.tsx:71-83 | a first pass on a fresh context draws correctly but leaves the dash set; an identical second pass strokes the track dashed and differs from Render |
| Render.DrawTrack | src/components/SimplePanel.tsx:57-70 | the track loop issues one path command per point (move first, then lines) and leaves the cursor at the projected last point |
| Render.DrawMarkers | src/components/SimplePanel.tsx:86-98 | the marker loop issues begin-path, arc and fill for every point in order |
| Render.Draw | src/components/SimplePanel.tsx:44-101 | the step-by-step pass, which resets the dash before the track stroke, yields exactly Render whatever context it starts from; it sets the dash when it reaches the segment and otherwise leaves the context unchanged (ContextAfter) |
| Render.Panel | src/components/SimplePanel.tsx:22-101 | a data set with no contributing rows draws nothing; otherwise the command count follows from the number of extracted points |

## Findings

| source | as written | input that shows it | evidently intended | confidence | as-written member | corrected member |
|---|---|---|---|---|---|---|
| src/components/SimplePanel.tsx:82 | `setLineDash([10, 5])` is never undone, and the canvas context keeps it between passes, so the next pass strokes the "solid" track at line 73 dashed | a non-empty track drawn twice on the same canvas at the same size, with the image loaded both times (for example new data arriving on refresh) | the track is solid on every pass: reset the dash (`setLineDash([])`) before line 73 | not executed; follows from the canvas rule that line dash is context state kept across calls | Render.LineDashLeaks | Render.Draw |

## Left out

- `src/module.ts`: it only registers the panel and its options form with the host, and has no logic.
- React plumbing is not modelled: `useRef`, the `useMemo` cache (lines 22 and 40) and the `useEffect` re-run triggers (line 101). The cache changes when the work is done, not its result.
- The `context &&` part of the guard at line 48 is not modelled. The model assumes the canvas has a 2D context.
- The asynchronous image load is the boolean `loaded`. Load timing, and a stale load finishing after a newer pass, are not modelled.
- Colours (`strokeStyle` and `fillStyle` set to `'red'`, lines 71 and 96) and the arc angles `0` to `2 * Math.PI` (line 95) are not modelled. An `Arc` keeps only its centre and radius.
- Line width is not tracked as context state. Every stroke sets it to 2 just before stroking, so each `Stroke` carries the width itself.
- The context's dash state is modelled, but resizing the canvas, which resets all context state, is not. `ContextAfter` describes consecutive passes at the same size.
- Numbers are reals, not IEEE doubles. Equal bounds would divide by zero and give NaN or Infinity; the model requires `inMin != inMax` (`ValidBounds` for the options).
- Lower-casing covers ASCII only. Other characters keep their case.
- Field values are taken to be numbers. The `as number` cast at lines 32-33 is not modelled.
- Extraction.Extract: when a latitude field is shorter than its longitude field, the panel reads `undefined` for the missing rows. `ExtractCoordinates`, `CollectSeries` and `Panel` require the latitude field to cover the longitude field (`Readable`). Outside that precondition, `Extract` pairs only the rows that both fields have.
