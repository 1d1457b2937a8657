/**
 * The view and point-list state of `RoboWatchGUI`: the loaded mesh, the
 * picked points, the point-picking and top-view modes, and the camera pose
 * that the top-view and quarter-turn buttons drive.
 *
 * Coordinates are exact reals. The source builds its rotation matrix from
 * `np.cos` and `np.sin` of plus or minus 90 degrees, which in floating point
 * give a cosine of about 6e-17 rather than 0; the model takes the exact
 * quarter turn (cosine 0, sine -1 for clockwise and +1 for counter-clockwise).
 * PyVista's `reset_camera` is a foreign call: the pose it produces is passed
 * in by the caller.
 */
module Robowatch {
  import opened Wrappers
  import opened Squares

  /** A point or direction in space, numpy's 3-element array. */
  datatype Vec3 = Vec3(x: real, y: real, z: real)

  function Add(a: Vec3, b: Vec3): Vec3 {
    Vec3(a.x + b.x, a.y + b.y, a.z + b.z)
  }

  function Sub(a: Vec3, b: Vec3): Vec3 {
    Vec3(a.x - b.x, a.y - b.y, a.z - b.z)
  }

  /** A mesh's `bounds`: `(xmin, xmax, ymin, ymax, zmin, zmax)`. */
  datatype Bounds = Bounds(xMin: real, xMax: real, yMin: real, yMax: real, zMin: real, zMax: real)

  /** What the view code reads from a loaded mesh: its `center` and its `bounds`. */
  datatype Mesh = Mesh(center: Vec3, bounds: Bounds)

  /** The camera: `position`, `focal_point` and `up`. */
  datatype Pose = Pose(position: Vec3, focalPoint: Vec3, up: Vec3)

  /** The up direction every top-view operation sets, `(0, 1, 0)`. */
  const YUp := Vec3(0.0, 1.0, 0.0)

  /** Sine of the clockwise quarter turn, `np.sin(np.radians(-90))`. */
  const SinCw := -1.0

  /** Sine of the counter-clockwise quarter turn, `np.sin(np.radians(90))`. */
  const SinCcw := 1.0

  // ---------------------------------------------------------------------------
  // Pose arithmetic
  // ---------------------------------------------------------------------------

  /** `max(a, b, c)`. */
  function Max3(a: real, b: real, c: real): (m: real)
    ensures m >= a && m >= b && m >= c
    ensures m == a || m == b || m == c
  {
    if a >= b && a >= c then a else if b >= c then b else c
  }

  /** `mesh_size`: the largest extent of the bounding box along x, y and z. */
  function MeshSize(b: Bounds): (s: real)
    ensures s >= b.xMax - b.xMin && s >= b.yMax - b.yMin && s >= b.zMax - b.zMin
    ensures s == b.xMax - b.xMin || s == b.yMax - b.yMin || s == b.zMax - b.zMin
  {
    Max3(b.xMax - b.xMin, b.yMax - b.yMin, b.zMax - b.zMin)
  }

  /**
   * The pose `set_top_view` gives the camera: straight above the mesh centre
   * at twice the mesh size, looking at the centre, with y up.
   */
  function TopViewPose(m: Mesh): Pose {
    Pose(Add(m.center, Vec3(0.0, 0.0, MeshSize(m.bounds) * 2.0)), m.center, YUp)
  }

  /** `rot_matrix @ v` for the rotation about the z axis with cosine `c` and sine `s`. */
  function RotZ(c: real, s: real, v: Vec3): Vec3 {
    Vec3(c * v.x - s * v.y, s * v.x + c * v.y, v.z)
  }

  /** `p` turned a quarter about the vertical axis through `center`; `s` is the turn's sine. */
  function QuarterTurnAbout(center: Vec3, p: Vec3, s: real): Vec3 {
    Add(center, RotZ(0.0, s, Sub(p, center)))
  }

  /** The pose after a quarter turn of the camera about the mesh centre. */
  function TurnedPose(m: Mesh, pose: Pose, s: real): Pose {
    Pose(QuarterTurnAbout(m.center, pose.position, s), m.center, YUp)
  }

  /** The squared horizontal distance from `center` to `p`. */
  function HorizontalDist2(center: Vec3, p: Vec3): real {
    Sq(p.x - center.x) + Sq(p.y - center.y)
  }

  // ---------------------------------------------------------------------------
  // Properties of the pose arithmetic
  // ---------------------------------------------------------------------------

  /** The clockwise quarter turn maps the offset `(x, y, z)` from the centre to `(y, -x, z)`. */
  lemma QuarterTurnCw(center: Vec3, p: Vec3)
    ensures Sub(QuarterTurnAbout(center, p, SinCw), center)
         == Vec3(p.y - center.y, -(p.x - center.x), p.z - center.z)
  {
  }

  /** The counter-clockwise quarter turn maps the offset `(x, y, z)` to `(-y, x, z)`. */
  lemma QuarterTurnCcw(center: Vec3, p: Vec3)
    ensures Sub(QuarterTurnAbout(center, p, SinCcw), center)
         == Vec3(-(p.y - center.y), p.x - center.x, p.z - center.z)
  {
  }

  /** A quarter turn keeps the height above the centre and the horizontal distance to it. */
  lemma QuarterTurnKeepsHeightAndRadius(center: Vec3, p: Vec3, s: real)
    requires s == SinCw || s == SinCcw
    ensures var q := QuarterTurnAbout(center, p, s);
      q.z - center.z == p.z - center.z && HorizontalDist2(center, q) == HorizontalDist2(center, p)
  {
    if s == SinCw {
      QuarterTurnCw(center, p);
      SquareOfNegation(p.x - center.x);
    } else {
      QuarterTurnCcw(center, p);
      SquareOfNegation(p.y - center.y);
    }
  }

  /** A clockwise turn undoes a counter-clockwise one and the other way round. */
  lemma QuarterTurnsCancel(center: Vec3, p: Vec3)
    ensures QuarterTurnAbout(center, QuarterTurnAbout(center, p, SinCw), SinCcw) == p
    ensures QuarterTurnAbout(center, QuarterTurnAbout(center, p, SinCcw), SinCw) == p
  {
    QuarterTurnCw(center, p);
    QuarterTurnCcw(center, p);
    QuarterTurnCw(center, QuarterTurnAbout(center, p, SinCcw));
    QuarterTurnCcw(center, QuarterTurnAbout(center, p, SinCw));
  }

  /** Two clockwise quarter turns are a half turn: the horizontal offset is negated. */
  lemma HalfTurn(center: Vec3, p: Vec3)
    ensures Sub(QuarterTurnAbout(center, QuarterTurnAbout(center, p, SinCw), SinCw), center)
         == Vec3(-(p.x - center.x), -(p.y - center.y), p.z - center.z)
  {
    QuarterTurnCw(center, p);
    QuarterTurnCw(center, QuarterTurnAbout(center, p, SinCw));
  }

  /** Four clockwise quarter turns bring the camera back where it was. */
  lemma FourQuarterTurns(center: Vec3, p: Vec3)
    ensures var q := QuarterTurnAbout(center, QuarterTurnAbout(center, p, SinCw), SinCw);
      QuarterTurnAbout(center, QuarterTurnAbout(center, q, SinCw), SinCw) == p
  {
    var q := QuarterTurnAbout(center, QuarterTurnAbout(center, p, SinCw), SinCw);
    HalfTurn(center, p);
    HalfTurn(center, q);
  }

  /** The top-view camera sits above the centre at height twice the mesh size, on the vertical axis. */
  lemma TopViewOnAxis(m: Mesh)
    ensures var p := TopViewPose(m).position;
      HorizontalDist2(m.center, p) == 0.0 && p.z - m.center.z == 2.0 * MeshSize(m.bounds)
  {
  }

  /** A quarter turn from the top-view pose leaves the pose exactly as it was. */
  lemma TurnFromTopView(m: Mesh, s: real)
    ensures TurnedPose(m, TopViewPose(m), s) == TopViewPose(m)
  {
  }

  // ---------------------------------------------------------------------------
  // The window state
  // ---------------------------------------------------------------------------

  /** The state `RoboWatchGUI` keeps between button clicks. */
  class RoboWatchGui {
    var currentMesh: Option<Mesh>
    var pickedPoints: seq<Vec3>
    var pointPickingMode: bool
    var topViewMode: bool
    var camera: Pose

    /** No mesh, no points, both modes off; the camera is the plotter's initial one. */
    constructor (initialCamera: Pose)
      ensures currentMesh == None && pickedPoints == []
      ensures !pointPickingMode && !topViewMode
      ensures camera == initialCamera
    {
      currentMesh := None;
      pickedPoints := [];
      pointPickingMode := false;
      topViewMode := false;
      camera := initialCamera;
    }

    /**
     * `_load_stl`: the mesh `pv.read` produced becomes the current one and
     * `reset_camera` fits the camera to it. When reading fails (`None`) the
     * error is caught and nothing changes. Modes and points are kept.
     */
    method LoadMesh(read: Option<Mesh>, fitted: Pose)
      modifies this`currentMesh, this`camera
      ensures read.Some? ==> currentMesh == read && camera == fitted
      ensures read.None? ==> currentMesh == old(currentMesh) && camera == old(camera)
    {
      if read.Some? {
        currentMesh := read;
        camera := fitted;
      }
    }

    /** `set_top_view`; with no mesh, reading its centre fails and the camera is untouched. */
    method SetTopView()
      modifies this`camera
      ensures currentMesh.Some? ==> camera == TopViewPose(currentMesh.value)
      ensures currentMesh.None? ==> camera == old(camera)
    {
      match currentMesh {
        case None =>
        case Some(m) =>
          camera := TopViewPose(m);
      }
    }

    /** `restore_normal_view`: `reset_camera` gives the camera the pose `reset`. */
    method RestoreNormalView(reset: Pose)
      modifies this`camera
      ensures camera == reset
    {
      camera := reset;
    }

    /**
     * `toggle_top_view`: the mode flips first, whatever happens to the camera
     * after; switching on goes to the top view, switching off resets the camera.
     */
    method ToggleTopView(reset: Pose)
      modifies this`topViewMode, this`camera
      ensures topViewMode == !old(topViewMode)
      ensures topViewMode && currentMesh.Some? ==> camera == TopViewPose(currentMesh.value)
      ensures topViewMode && currentMesh.None? ==> camera == old(camera)
      ensures !topViewMode ==> camera == reset
    {
      topViewMode := !topViewMode;
      if topViewMode {
        SetTopView();
      } else {
        RestoreNormalView(reset);
      }
    }

    /** The rotation both buttons share: only in top-view mode and only with a mesh. */
    method Turn(s: real)
      modifies this`camera
      ensures topViewMode && currentMesh.Some? ==> camera == TurnedPose(currentMesh.value, old(camera), s)
      ensures !(topViewMode && currentMesh.Some?) ==> camera == old(camera)
    {
      if !topViewMode {
        return;
      }
      match currentMesh {
        case None =>
        case Some(m) =>
          camera := TurnedPose(m, camera, s);
      }
    }

    /** `rotate_view_cw`: a clockwise quarter turn about the mesh centre. */
    method RotateViewCw()
      modifies this`camera
      ensures topViewMode && currentMesh.Some? ==> camera == TurnedPose(currentMesh.value, old(camera), SinCw)
      ensures !(topViewMode && currentMesh.Some?) ==> camera == old(camera)
    {
      Turn(SinCw);
    }

    /** `rotate_view_ccw`: a counter-clockwise quarter turn about the mesh centre. */
    method RotateViewCcw()
      modifies this`camera
      ensures topViewMode && currentMesh.Some? ==> camera == TurnedPose(currentMesh.value, old(camera), SinCcw)
      ensures !(topViewMode && currentMesh.Some?) ==> camera == old(camera)
    {
      Turn(SinCcw);
    }

    /** `toggle_point_picking`. */
    method TogglePointPicking()
      modifies this`pointPickingMode
      ensures pointPickingMode == !old(pointPickingMode)
    {
      pointPickingMode := !pointPickingMode;
    }

    /** `add_picked_point`: the point goes at the end; the earlier points stay as they were. */
    method AddPickedPoint(p: Vec3)
      modifies this`pickedPoints
      ensures pickedPoints == old(pickedPoints) + [p]
      ensures |pickedPoints| == |old(pickedPoints)| + 1 && pickedPoints[|pickedPoints| - 1] == p
      ensures pickedPoints[..|old(pickedPoints)|] == old(pickedPoints)
    {
      pickedPoints := pickedPoints + [p];
    }

    /** `clear_points`. */
    method ClearPoints()
      modifies this`pickedPoints
      ensures pickedPoints == []
    {
      pickedPoints := [];
    }
  }

  // ---------------------------------------------------------------------------
  // Sequences of button clicks
  // ---------------------------------------------------------------------------

  /**
   * Clicking Top twice restores the mode. Starting off, the camera ends at
   * the second reset pose, whatever the top view did in between; starting on,
   * it ends at the top view (or, without a mesh, at the first reset pose).
   */
  method ToggleTopViewTwice(g: RoboWatchGui, reset1: Pose, reset2: Pose)
    modifies g`topViewMode, g`camera
    ensures g.topViewMode == old(g.topViewMode)
    ensures g.currentMesh == old(g.currentMesh) && g.pickedPoints == old(g.pickedPoints)
    ensures g.pointPickingMode == old(g.pointPickingMode)
    ensures !old(g.topViewMode) ==> g.camera == reset2
    ensures old(g.topViewMode) && g.currentMesh.Some? ==> g.camera == TopViewPose(g.currentMesh.value)
    ensures old(g.topViewMode) && g.currentMesh.None? ==> g.camera == reset1
  {
    g.ToggleTopView(reset1);
    g.ToggleTopView(reset2);
  }

  /** In top view with a mesh, CW then CCW puts the camera back where it was. */
  method RotateCwThenCcw(g: RoboWatchGui)
    requires g.topViewMode && g.currentMesh.Some?
    modifies g`camera
    ensures g.currentMesh == old(g.currentMesh) && g.camera.position == old(g.camera.position)
    ensures g.topViewMode && g.pickedPoints == old(g.pickedPoints) && g.pointPickingMode == old(g.pointPickingMode)
    ensures g.camera.focalPoint == g.currentMesh.value.center && g.camera.up == YUp
  {
    g.RotateViewCw();
    g.RotateViewCcw();
    QuarterTurnsCancel(g.currentMesh.value.center, old(g.camera.position));
  }

  /** Switching top view on and then rotating leaves the top-view pose in place. */
  method TopViewThenRotate(g: RoboWatchGui, reset: Pose)
    requires !g.topViewMode && g.currentMesh.Some?
    modifies g`topViewMode, g`camera
    ensures g.currentMesh == old(g.currentMesh)
    ensures g.pickedPoints == old(g.pickedPoints) && g.pointPickingMode == old(g.pointPickingMode)
    ensures g.topViewMode && g.camera == TopViewPose(g.currentMesh.value)
  {
    g.ToggleTopView(reset);
    g.RotateViewCw();
    TurnFromTopView(g.currentMesh.value, SinCw);
  }
}
