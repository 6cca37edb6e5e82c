# raam grid, scroll and line-quad model

A Dafny model of the three deterministic pieces of the `raam` table viewer:

- **Line quad** (`line.dfy`, module `Line`): the `Instance` record (offset and
  scale of one line rectangle), `Instance::new`, and the `VERTICES`/`INDICES`
  constants that draw every instance as two triangles of the unit square.
- **Grid geometry** (`grid.dfy`, module `GridGeometry`): the `Grid` metrics, the
  line count, the pixel extent and the fence-post list of line instances,
  horizontal rules first, then vertical ones.
- **Scrolling** (`camera.dfy`, module `Camera`): the `Camera` offset and the
  `CameraController`, as classes whose methods update their fields in place.
  `process_event` and `update_camera` are specified against pure functions on
  value snapshots (`Process`, `Step`), and the lemmas about those functions
  cover sequences of events and repeated updates.
- `coords.dfy` (module `Coords`) holds `Float2`, the two-component `[f32; 2]`
  array, with its tuple conversions.

Coordinates are exact reals and row/column counts are unbounded naturals.

Scrolling in raam works as follows:

- `update_camera` moves the offset by `delta * speed` on each axis, linearly
  and without any clamp, so the offset may take any sign.
- The deltas are not reset after an update. A single wheel event therefore
  keeps moving the camera on every later update.

Two signatures in the code do not match each other:

- `src/grid.rs:43-47` and `:52-56` pass a third argument (`255.`) to
  `Instance::new`, but `src/line.rs:40` takes two. The model follows
  `line.rs`: an instance has only an offset and a scale.
- `src/state.rs:338-339` passes the window size to `update_camera`. The model
  follows the one-argument signature of `src/camera.rs:80`.

## Model

| member | source | states |
|---|---|---|
| `Line.New` | src/line.rs:40-45 | the offset and scale arrays hold the tuple arguments component by component |
| `Line.NewInjective` | src/line.rs:40-45 | two constructions are equal exactly when both argument pairs are equal |
| `Line.NewSurjective` | src/line.rs:34-45 | every instance record is the result of `Instance::new` on its own offset and scale |
| `Line.Corner` | src/line.rs:23-28 | every vertex lies in the closed unit square |
| `Line.VerticesAreUnitSquare` | src/line.rs:23-28 | four vertices: (0,0), (1,0), (0,1), (1,1), in that order |
| `Line.Triangle` | src/line.rs:23-30 | each triangle references exactly three distinct vertices, all inside the vertex buffer |
| `Line.IndicesValid` | src/line.rs:23-30 | six indices (two triangles), each below the vertex count |
| `Line.TrianglesSplitQuad` | src/line.rs:30 | each triangle has three distinct corners; they share exactly vertices 1 and 2 and together use all four |
| `Line.TriangleAreas` | src/line.rs:23-30 | both triangles are non-degenerate with area 1/2 each, of opposite winding |
| `GridGeometry.New` | src/grid.rs:12-26 | the five arguments are stored unchanged |
| `GridGeometry.LineCount` | src/grid.rs:28-62 | the instance list has `nlines()` elements, `nrows + 1` horizontal plus `ncols + 1` vertical |
| `GridGeometry.HorizontalLineAt` | src/grid.rs:39-49 | element `i <= nrows` has offset `(0, i*row_height)` and scale `(width, line_width)` |
| `GridGeometry.VerticalLineAt` | src/grid.rs:50-58 | element `nrows+1+j`, `j <= ncols`, has offset `(j*col_width, 0)` and scale `(line_width, height)` |
| `GridGeometry.LinesInOrder` | src/grid.rs:39-62 | index `k <= nrows` holds horizontal rule `k`; any later index holds vertical rule `k-nrows-1`, so all horizontal rules come first, each group in rule order |
| `GridGeometry.HorizontalOffsetsIncreasing` | src/grid.rs:41-49 | with a positive row height the horizontal rules' y offsets strictly increase |
| `GridGeometry.VerticalOffsetsIncreasing` | src/grid.rs:50-58 | with a positive column width the vertical rules' x offsets strictly increase |
| `GridGeometry.LastLinesReachSize` | src/grid.rs:32-58 | the extent is `(ncols*col_width + line_width, nrows*row_height + line_width)`: the last horizontal rule ends at the height, the last vertical rule at the width |
| `GridGeometry.LinesWithinSize` | src/grid.rs:32-62 | with non-negative metrics every rule is a rectangle of non-negative size lying within `[0, width] x [0, height]` |
| `GridGeometry.SmallGridExample` | src/grid.rs:12-62 | a 3x2 grid (20, 100, 2) has 7 rules; rule 0 is at (0,0) sized 202x2, the last at (200,0) sized 2x62 |
| `Camera.Process` | src/camera.rs:66-78 | a line-wheel event is consumed and sets both deltas; anything else is not consumed and changes nothing; speed never changes |
| `Camera.ProcessAllKeepsLast` | src/camera.rs:66-78 | after any event sequence the deltas are the last line delta seen (or unchanged if none) and the speed is unchanged |
| `Camera.SecondWheelEventWins` | src/camera.rs:68-73 | after two line-wheel events only the second event's deltas remain |
| `Camera.Step` | src/camera.rs:80-83 | one update moves each axis by exactly `delta * speed` |
| `Camera.StepsClosedForm` | src/camera.rs:80-83 | `n` updates move each axis by `n * delta * speed` (linear, unclamped) |
| `Camera.StillControlsDoNotMove` | src/camera.rs:80-83 | with zero deltas any number of updates is a no-op |
| `Camera.UniformOf` | src/camera.rs:17-23 | the uniform's offset is `[x, y]` of the camera |
| `Camera.Camera.constructor` | src/camera.rs:5-9 | the default camera is at (0, 0) |
| `Camera.Camera.ToUniform` | src/camera.rs:17-23 | the uniform's components are the camera's x and y |
| `Camera.CameraController.constructor` | src/camera.rs:51-64 | speed is the argument, both deltas are 0 |
| `Camera.CameraController.ProcessEvent` | src/camera.rs:66-78 | new fields and result are `Process` of the old fields; consumed iff a line-wheel event; speed kept; a non-consumed event changes nothing |
| `Camera.CameraController.UpdateCamera` | src/camera.rs:80-83 | the camera moves by `Step`; the controller, deltas included, is unchanged |
| `Camera.ScrollThenUpdateTwice` | src/camera.rs:66-83 | two wheel events then two updates move the camera by twice the second delta times the speed |

## Left out

- `f32` rounding, including the `usize as f32` casts: coordinates are exact reals.
- `usize` overflow of `nrows + ncols + 2` in `nlines` and of the range bounds
  `nrows + 1` and `ncols + 1` in `line_instances`: counts are unbounded naturals.
- `Vertex::desc`, `Instance::desc`, `CameraUniform::to_buffer` and
  `CameraUniform::bind_group_layout_desc`: GPU buffer layouts and buffer
  creation through wgpu, with no logic of their own.
- `src/state.rs` and `src/lib.rs`: device, pipeline and text setup, rendering
  and the window event loop. The grid that `src/state.rs:112-127` builds inline
  is the same computation as `Grid::line_instances` and is not modelled twice.
- `WindowEvent` is reduced to a mouse-wheel event (line or pixel delta) and a
  single `Other` case. The fields of a wheel event other than its delta are
  left out because the controller ignores them.
