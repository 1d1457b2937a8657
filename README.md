# Robot path and RoboWatch view state, in Dafny

This project models two small pieces of a robot-programming toolkit and
proves properties of them.

- **The straight-line waypoint generator**, `RobotPath.calculate_path`
  (module `Zigzag`, file `zigzag.dfy`). The generator clears the stored
  point list and emits the start point. It then emits one point every `step`
  along the unit direction from start to end, `int(total / step)` of them.
  Last, it appends the end point when the whole steps fell short of it.
  The class `RobotPath` keeps `points` as a `seq` field. `CalculatePath` is a
  method with the source's loop, proved equal to the specification function
  `StraightPath`. The lemmas about `StraightPath` state what the path is:
  - where it starts and ends;
  - how long it is;
  - where each point lies, and how far apart consecutive points are;
  - how long the final segment is;
  - what a zero or negative step does.
- **The view and point-list state of `RoboWatchGUI`** (module `Robowatch`,
  file `robowatch.dfy`). It has:
  - the loaded mesh (centre and bounding box);
  - the picked points;
  - the point-picking and top-view flags;
  - the camera pose (position, focal point, up).

  The class `RoboWatchGui` has one method per button handler. The pose
  arithmetic is made of pure functions:
  - the mesh size (largest extent);
  - the top-view pose;
  - the quarter turn about the vertical axis through the mesh centre.

  The lemmas cover the quarter turns:
  - they cancel each other;
  - four of them are the identity;
  - they keep the height and the horizontal radius;
  - from the top-view pose they change nothing.

`squares.dfy` holds the square function both models use, and `wrappers.dfy`
holds `Option` and `Result`.

Modelling choices:

- **Reals.** Coordinates are exact reals, not floats.
- **Path length.** Dafny has no square root. The segment length, which the
  source computes with `math.sqrt(dx**2 + dy**2)`, is a parameter `total`.
  It is tied to the points by `IsLength`: `total >= 0` and
  `total * total == dx * dx + dy * dy`.
- **Truncation.** Python's `int()` truncates toward zero and is modelled by
  `Trunc`. This matters for a negative step.
- **Zero step.** A zero step raises `ZeroDivisionError` at
  `total_distance / step`, after `self.points = []` has run. The model returns
  `Failure(ZeroDivision)` and leaves `points` empty.
- **Quarter turns.** The rotation matrix is built from `np.cos` and `np.sin`
  of ±90°. It is taken as the exact quarter turn: cosine 0, sine -1
  (clockwise) or +1 (counter-clockwise).
- **Camera reset.** PyVista's `reset_camera` is a foreign call. The pose it
  produces is a parameter (`reset`, `fitted`).
- **Swallowed errors.** With no mesh loaded, `current_mesh.center` raises
  before any assignment and the handler catches it. The model leaves the
  camera unchanged.

Behaviour of the code worth knowing:

- **No step validation.** `calculate_path` does not check that `step > 0`.
  A zero step raises, and a negative step yields `[start]` or `[start, end]`
  (`NegativeStepPath`, `NegativeStepDropsEnd`).
- **Top view.** `set_top_view` always looks down the z axis and recomputes
  the pose from the current mesh on every call.
- **Rotations.** The rotations turn the camera position about the centre and
  reset `up` to `(0, 1, 0)`. From the top-view pose the position is on the
  axis, so a rotation leaves the camera exactly as it was (`TurnFromTopView`,
  `TopViewThenRotate`).
- **Leaving top view.** Leaving top view calls `reset_camera`.
- **Flag without a mesh.** The top-view flag flips even when there is no
  mesh.

## Model

| member | source | states |
|---|---|---|
| `Zigzag.Trunc` | PYTHON/zigzag/robot_path.py:41 | `int()` truncates toward zero: for a non-negative quotient the result is the largest integer not above it, for a negative one the smallest integer not below it |
| `Zigzag.Intermediates` | PYTHON/zigzag/robot_path.py:57-62 | the loop for `k` steps produces exactly `k` points |
| `Zigzag.IntermediatesAt` | PYTHON/zigzag/robot_path.py:57-62 | the `j`-th point the loop appends is `start + u * (j * step)` |
| `Zigzag.NumSteps` | PYTHON/zigzag/robot_path.py:41 | defines `num_steps` as `int(total_distance / step)`, truncated toward zero |
| `Zigzag.Waypoint` | PYTHON/zigzag/robot_path.py:59-61 | defines the point `start + u * d` at distance `d` along the unit direction `u` |
| `Zigzag.StraightPath` | PYTHON/zigzag/robot_path.py:33-72 | defines the list `calculate_path` returns for a non-zero step: `[start]` for a zero-length segment, otherwise `start`, the `num_steps` intermediate points (none when `num_steps <= 0`) and `end` when the whole steps fall short of it |
| `Zigzag.RobotPath.constructor` | PYTHON/zigzag/robot_path.py:12-13 | a new `RobotPath` has no points |
| `Zigzag.RobotPath.CalculatePath` | PYTHON/zigzag/robot_path.py:15-72 | a zero step fails with `ZeroDivision` after emptying `points`; otherwise the stored list is replaced (not extended) by `StraightPath`, and the returned list is equal to the stored one |
| `Zigzag.NumStepsBounds` | PYTHON/zigzag/robot_path.py:41 | for a positive step, `num_steps` is the number of whole steps that fit: `num_steps * step <= total < (num_steps + 1) * step` |
| `Zigzag.ZeroLengthSamePoint` | PYTHON/zigzag/robot_path.py:36-38 | a segment of length 0 joins a point to itself |
| `Zigzag.UnitWaypointDistance` | PYTHON/zigzag/robot_path.py:44-46 | along the unit direction, the points at distances `a` and `b` from the start are `abs(b - a)` apart |
| `Zigzag.WaypointAtLength` | PYTHON/zigzag/robot_path.py:44-46 | the point at distance `total` along the unit direction is the end point |
| `Zigzag.WaypointIsLerp` | PYTHON/zigzag/robot_path.py:58-61 | the point at distance `d` lies on the line through start and end, at fraction `d / total` of the way |
| `Zigzag.StraightPathPoint` | PYTHON/zigzag/robot_path.py:54-62 | element `i` of the path, `0 <= i <= num_steps`, is `start + u * (i * step)` |
| `Zigzag.StraightPathStartsAtStart` | PYTHON/zigzag/robot_path.py:44-54 | the path is never empty and its first element is `start` |
| `Zigzag.StraightPathSamePoint` | PYTHON/zigzag/robot_path.py:44-51 | when start and end coincide the path is exactly `[start]` |
| `Zigzag.StraightPathLength` | PYTHON/zigzag/robot_path.py:57-67 | the path has `num_steps + 2` points when `num_steps * step < total` (end appended) and `num_steps + 1` otherwise |
| `Zigzag.StraightPathOnSegment` | PYTHON/zigzag/robot_path.py:57-61 | every intermediate point is at a distance `0 < i * step <= total` from the start and lies on the segment at fraction `i * step / total` |
| `Zigzag.StraightPathDistanceFromStart` | PYTHON/zigzag/robot_path.py:57-61 | intermediate point `i` is at distance `i * step` from the start |
| `Zigzag.StraightPathSpacing` | PYTHON/zigzag/robot_path.py:57-61 | consecutive points among the start and the intermediate points are exactly `step` apart |
| `Zigzag.StraightPathEndsAtEnd` | PYTHON/zigzag/robot_path.py:65-70 | the last element is always `end`: either it was appended, or the last intermediate point lies at distance `num_steps * step == total` |
| `Zigzag.StraightPathFinalSegment` | PYTHON/zigzag/robot_path.py:65-67 | when `end` is appended the final segment is not empty, strictly shorter than `step`, and `total - num_steps * step` long |
| `Zigzag.StraightPathTenUnitSteps` | PYTHON/zigzag/robot_path.py:15-72 | from (0,0) to (10,0) with step 1 the path has 11 points, from (0,0) to (10,0) |
| `Zigzag.StraightPathExactSteps` | PYTHON/zigzag/robot_path.py:65-70 | when the whole steps land on the end, the end is not repeated: (0,0)→(3,0) by 1 is four points |
| `Zigzag.StraightPathAppendsEnd` | PYTHON/zigzag/robot_path.py:65-67 | when the whole steps fall short, the end follows them: (0,0)→(5,0) by 2 is (0,0), (2,0), (4,0), (5,0) |
| `Zigzag.NegativeStepPath` | PYTHON/zigzag/robot_path.py:41-67 | with a negative step the loop adds nothing and the path is `[start]` or `[start, end]`; it is `[start, end]` exactly when `total > 0` and `num_steps * step < total` |
| `Zigzag.NegativeStepDropsEnd` | PYTHON/zigzag/robot_path.py:41-67 | with a negative step the end can be missing: (0,0)→(2,0) by -1 is `[(0,0)]` |
| `Robowatch.Max3` | PYTHON/robowatch/main.py:361 | `max` of three values is one of them and no smaller than any of them |
| `Robowatch.MeshSize` | PYTHON/robowatch/main.py:360-361 | `mesh_size` is the largest of the three extents of the bounding box |
| `Robowatch.TopViewPose` | PYTHON/robowatch/main.py:357-375 | defines the top-view pose: position `center + (0, 0, 2 * mesh_size)`, focal point the centre, up `(0, 1, 0)` |
| `Robowatch.RotZ` | PYTHON/robowatch/main.py:404-409 | defines `rot_matrix @ v` for the rotation about the z axis with the given cosine and sine |
| `Robowatch.QuarterTurnAbout` | PYTHON/robowatch/main.py:397-410 | defines the position turned about the vertical axis through the centre: `center + rot_matrix @ (position - center)` with cosine 0 |
| `Robowatch.TurnedPose` | PYTHON/robowatch/main.py:397-415 | defines the camera after a rotation: the turned position, focal point the centre, up `(0, 1, 0)` |
| `Robowatch.QuarterTurnCw` | PYTHON/robowatch/main.py:397-410 | the clockwise turn maps the offset `(x, y, z)` from the centre to `(y, -x, z)` |
| `Robowatch.QuarterTurnCcw` | PYTHON/robowatch/main.py:437-450 | the counter-clockwise turn maps the offset `(x, y, z)` to `(-y, x, z)` |
| `Robowatch.QuarterTurnKeepsHeightAndRadius` | PYTHON/robowatch/main.py:397-410 | a quarter turn keeps the height above the centre and the horizontal distance to it |
| `Robowatch.QuarterTurnsCancel` | PYTHON/robowatch/main.py:385-463 | a clockwise turn followed by a counter-clockwise one, in either order, restores the position |
| `Robowatch.HalfTurn` | PYTHON/robowatch/main.py:397-410 | two clockwise turns negate the horizontal offset from the centre |
| `Robowatch.FourQuarterTurns` | PYTHON/robowatch/main.py:397-410 | four clockwise turns restore the position |
| `Robowatch.TopViewOnAxis` | PYTHON/robowatch/main.py:357-369 | the top-view camera is on the vertical axis through the centre, `2 * mesh_size` above it |
| `Robowatch.TurnFromTopView` | PYTHON/robowatch/main.py:353-423 | a quarter turn from the top-view pose gives back the same pose |
| `Robowatch.RoboWatchGui.constructor` | PYTHON/robowatch/main.py:49-59 | no mesh, no picked points, both modes off |
| `Robowatch.RoboWatchGui.LoadMesh` | PYTHON/robowatch/main.py:219-242 | a mesh that was read becomes the current one and the camera is fitted to it; a failed read changes nothing; modes and points are kept |
| `Robowatch.RoboWatchGui.SetTopView` | PYTHON/robowatch/main.py:353-383 | with a mesh the camera gets the top-view pose; without one the camera is unchanged |
| `Robowatch.RoboWatchGui.RestoreNormalView` | PYTHON/robowatch/main.py:465-476 | the camera gets the pose `reset_camera` produces |
| `Robowatch.RoboWatchGui.ToggleTopView` | PYTHON/robowatch/main.py:335-351 | the mode always flips; switching on sets the top view (when there is a mesh), switching off resets the camera; nothing else changes |
| `Robowatch.RoboWatchGui.Turn` | PYTHON/robowatch/main.py:397-415 | outside top-view mode or without a mesh the camera is unchanged; otherwise it is the turned pose, looking at the centre with y up |
| `Robowatch.RoboWatchGui.RotateViewCw` | PYTHON/robowatch/main.py:385-423 | the clockwise quarter turn, only in top-view mode and with a mesh; all other state unchanged |
| `Robowatch.RoboWatchGui.RotateViewCcw` | PYTHON/robowatch/main.py:425-463 | the counter-clockwise quarter turn, only in top-view mode and with a mesh; all other state unchanged |
| `Robowatch.RoboWatchGui.TogglePointPicking` | PYTHON/robowatch/main.py:478-493 | the point-picking mode flips; nothing else changes |
| `Robowatch.RoboWatchGui.AddPickedPoint` | PYTHON/robowatch/main.py:495-501 | the point is appended at the end, the list grows by one and the earlier points are unchanged |
| `Robowatch.RoboWatchGui.ClearPoints` | PYTHON/robowatch/main.py:520-525 | the picked-point list is empty |
| `Robowatch.ToggleTopViewTwice` | PYTHON/robowatch/main.py:335-351 | two clicks on Top restore the mode and change nothing but the mode and the camera; starting off, the camera ends at the second reset pose, starting on, at the top view (or at the first reset pose without a mesh) |
| `Robowatch.RotateCwThenCcw` | PYTHON/robowatch/main.py:385-463 | in top view with a mesh, CW then CCW restores the camera position and changes nothing but the camera |
| `Robowatch.TopViewThenRotate` | PYTHON/robowatch/main.py:335-423 | switching top view on and then rotating leaves the camera at the top-view pose; mesh, points and point-picking mode are unchanged |

## Left out

- The Qt user interface is not modelled: widgets, stylesheets, button texts, the dock panel, the menu bar, `main()` and the event loops are pure UI.
- The `points_list` widget is not modelled: `add_picked_point` and `clear_points` also update it, but it only displays the list.
- Rendering is not modelled: `update_markers`, `display_mesh`'s actors, `create_axes`, the axis toggles and every `plotter.render()` only draw.
- The other state fields are not modelled: `original_mesh`, `mesh_actor`, `axis_actors`, `markers_actor` and `saved_camera_state` are rendering handles or never read by the modelled code.
- File I/O is not modelled: `pv.read`, the file dialog and the hard-coded temporary path become the `read` parameter of `LoadMesh`.
- Logging is not modelled: all `print` output and the tracebacks printed by the `except` blocks are dropped.
- Plotting is not modelled: `visualize` and `visualize_time` in `robot_path.py` only draw with matplotlib.
- Floating-point rounding is not modelled, in `math.sqrt`, the divisions and `np.cos`/`np.sin`. With floats, `num_steps * step < total` can come out differently from the real-number answer, and the quarter turns are not exact.
- Robowatch.RoboWatchGui.RestoreNormalView: the pose PyVista's `reset_camera` computes from the scene is a parameter, not computed.
- Zigzag.RobotPath.CalculatePath: `total` is supplied through `IsLength` instead of being computed by `math.sqrt`, and `start` and `end` are real pairs rather than arbitrary Python sequences.
- Zigzag.RobotPath.CalculatePath: `return self.points` hands the caller the stored list itself, so appending to the result would also grow `points`; the model returns an equal value and does not model that alias (no caller in the code mutates the result).
