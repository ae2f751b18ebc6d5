/**
 * `HeadTracker` of the native layer: it owns one Cardboard head-tracker
 * handle and turns the tracker's pose (a position and an orientation
 * quaternion) into a 4x4 matrix.
 *
 * The Cardboard library itself is not modelled.  Its pose query enters
 * `GetPose` as a function `tracker` from (handle, time stamp, viewport
 * orientation) to the position and quaternion it writes, and the boot-time
 * clock enters as the number `bootTime` it returned.
 */
module JniApi {
  import opened MatrixUtil
  import opened NativeUtil

  /** How far ahead, in nanoseconds, the pose is predicted when no vsync
      time is known. */
  const PredictionTimeWithoutVsyncNanos: int := 50000000

  /** `CardboardViewportOrientation`. */
  datatype ViewportOrientation =
    | LandscapeLeft
    | LandscapeRight
    | Portrait
    | PortraitUpsideDown

  /** The enum's numeric values. */
  function EnumValue(o: ViewportOrientation): (n: int)
    ensures 0 <= n <= 3
  {
    match o
    case LandscapeLeft => 0
    case LandscapeRight => 1
    case Portrait => 2
    case PortraitUpsideDown => 3
  }

  /** The if/else chain at the top of `GetPose`: 0, 1 and 2 select the
      orientation with that value; everything else is upside-down portrait. */
  function Orientation(viewportOrientation: int): (o: ViewportOrientation)
    ensures 0 <= viewportOrientation <= 2 ==> EnumValue(o) == viewportOrientation
    ensures !(0 <= viewportOrientation <= 2) ==> o == PortraitUpsideDown
  {
    if viewportOrientation == 0 then LandscapeLeft
    else if viewportOrientation == 1 then LandscapeRight
    else if viewportOrientation == 2 then Portrait
    else PortraitUpsideDown
  }

  /** Passing an orientation's own value selects that orientation, so the
      chain covers every orientation. */
  lemma OrientationOfValue(o: ViewportOrientation)
    ensures Orientation(EnumValue(o)) == o
  {
  }

  /** The orientation `GetPose` asks for depends only on whether the
      argument is 0, 1, 2 or something else. */
  lemma OrientationOutOfRange(v: int)
    requires v < 0 || 3 <= v
    ensures Orientation(v) == Orientation(3)
  {
  }

  /** What the tracker writes: `out_position` and `out_orientation`. */
  datatype Pose = Pose(position: Vec3, orientation: Vec4)

  /** The matrix `GetPose` returns for a tracker pose. */
  function PoseMatrix(pose: Pose): (m: Matrix4x4)
    ensures forall i, j | 0 <= i < 3 && 0 <= j < 4 ::
      m.m[i][j] == ToMatrix(FromXYZW(pose.orientation)).m[i][j]
    ensures m.m[3] == [pose.position[0], pose.position[1], pose.position[2], 1.0]
  {
    PoseBlocks(pose.position, FromXYZW(pose.orientation));
    Product(Translation(pose.position), ToMatrix(FromXYZW(pose.orientation)))
  }

  /** The pose the Cardboard library reports when it has none: no
      translation and the identity quaternion.  It gives the identity
      matrix. */
  lemma NeutralPose()
    ensures PoseMatrix(Pose([0.0, 0.0, 0.0], [0.0, 0.0, 0.0, 1.0])) == Identity4
  {
    TranslationZero();
    ToMatrixScalar(1.0);
    ProductIdentity(Identity4);
  }

  class HeadTracker {
    /** `head_tracker_`: the handle returned by `CardboardHeadTracker_create`. */
    var headTracker: int

    /** The constructor stores the handle the library created. */
    constructor(created: int)
      ensures headTracker == created
    {
      headTracker := created;
    }

    /** `GetPose(viewport_orientation)`: asks the tracker for the pose
        50 ms after `bootTime` in the selected orientation, and returns the
        translation times the quaternion's rotation. */
    method GetPose(viewportOrientation: int, bootTime: int,
                   tracker: (int, int, ViewportOrientation) -> Pose)
      returns (m: Matrix4x4)
      ensures m == PoseMatrix(tracker(headTracker, bootTime + PredictionTimeWithoutVsyncNanos,
                                      Orientation(viewportOrientation)))
    {
      var orientation: ViewportOrientation;
      if viewportOrientation == 0 {
        orientation := LandscapeLeft;
      } else if viewportOrientation == 1 {
        orientation := LandscapeRight;
      } else if viewportOrientation == 2 {
        orientation := Portrait;
      } else {
        orientation := PortraitUpsideDown;
      }
      var pose := tracker(headTracker, bootTime + PredictionTimeWithoutVsyncNanos, orientation);
      m := Mul(Translation(pose.position), ToMatrix(FromXYZW(pose.orientation)));
    }
  }
}
