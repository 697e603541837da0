/**
 * The modelled part of the pose detector: the landmark record the external
 * pose estimator produces, the fixed table that names the 33 landmark slots of
 * a frame, and the detector's own indexed lookup and distance helpers.
 * Camera capture, drawing and the estimator itself are not modelled.
 */
module PoseDetector {
  import opened Numeric

  /** One estimated body joint: a position and an optional visibility in [0, 1]. */
  datatype Landmark = Landmark(x: real, y: real, z: real, visibility: Option<real>)

  /**
   * The landmarks of one frame, indexed by slot. A slot that holds nothing
   * (`undefined` in the array) is `None`.
   */
  type Frame = seq<Option<Landmark>>

  /** Number of slots the estimator fills in each frame. */
  const LandmarkCount: nat := 33

  /** A landmark slot: one of the 33 indices of a frame. */
  type Joint = i: nat | i < LandmarkCount

  /* The named slots of `POSE_LANDMARKS`. */
  const Nose: Joint := 0
  const LeftEyeInner: Joint := 1
  const LeftEye: Joint := 2
  const LeftEyeOuter: Joint := 3
  const RightEyeInner: Joint := 4
  const RightEye: Joint := 5
  const RightEyeOuter: Joint := 6
  const LeftEar: Joint := 7
  const RightEar: Joint := 8
  const MouthLeft: Joint := 9
  const MouthRight: Joint := 10
  const LeftShoulder: Joint := 11
  const RightShoulder: Joint := 12
  const LeftElbow: Joint := 13
  const RightElbow: Joint := 14
  const LeftWrist: Joint := 15
  const RightWrist: Joint := 16
  const LeftPinky: Joint := 17
  const RightPinky: Joint := 18
  const LeftIndex: Joint := 19
  const RightIndex: Joint := 20
  const LeftThumb: Joint := 21
  const RightThumb: Joint := 22
  const LeftHip: Joint := 23
  const RightHip: Joint := 24
  const LeftKnee: Joint := 25
  const RightKnee: Joint := 26
  const LeftAnkle: Joint := 27
  const RightAnkle: Joint := 28
  const LeftHeel: Joint := 29
  const RightHeel: Joint := 30
  const LeftFootIndex: Joint := 31
  const RightFootIndex: Joint := 32

  /** Every named slot, in the order `POSE_LANDMARKS` declares them. */
  const PoseLandmarks: seq<Joint> := [
    Nose, LeftEyeInner, LeftEye, LeftEyeOuter,
    RightEyeInner, RightEye, RightEyeOuter, LeftEar,
    RightEar, MouthLeft, MouthRight, LeftShoulder,
    RightShoulder, LeftElbow, RightElbow, LeftWrist,
    RightWrist, LeftPinky, RightPinky, LeftIndex,
    RightIndex, LeftThumb, RightThumb, LeftHip,
    RightHip, LeftKnee, RightKnee, LeftAnkle,
    RightAnkle, LeftHeel, RightHeel, LeftFootIndex,
    RightFootIndex
  ]

  /** The table names every slot 0..32 exactly once, in slot order. */
  lemma PoseLandmarksCoverSlots()
    ensures |PoseLandmarks| == LandmarkCount
    ensures forall i :: 0 <= i < |PoseLandmarks| ==> PoseLandmarks[i] == i
    ensures forall i, k :: 0 <= i < k < |PoseLandmarks| ==> PoseLandmarks[i] != PoseLandmarks[k]
  {
  }

  /**
   * The detector's lookup: the slot's content when the index is in range,
   * nothing otherwise.
   */
  function DetectorGetLandmark(index: int, landmarks: Frame): (r: Option<Landmark>)
    ensures 0 <= index < |landmarks| ==> r == landmarks[index]
    ensures !(0 <= index < |landmarks|) ==> r == None
  {
    if 0 <= index < |landmarks| then landmarks[index] else None
  }

  /** The detector's Euclidean distance between two landmarks' positions. */
  function DetectorDistance(m: MathLib, a: Landmark, b: Landmark): (d: real)
    ensures 0.0 <= d
  {
    var dx := a.x - b.x;
    var dy := a.y - b.y;
    var dz := a.z - b.z;
    assert 0.0 <= dx * dx && 0.0 <= dy * dy && 0.0 <= dz * dz;
    m.sqrt(dx * dx + dy * dy + dz * dz)
  }

  /** The detector's distance does not depend on the order of its arguments. */
  lemma DetectorDistanceSymmetric(m: MathLib, a: Landmark, b: Landmark)
    ensures DetectorDistance(m, a, b) == DetectorDistance(m, b, a)
  {
    assert (a.x - b.x) * (a.x - b.x) == (b.x - a.x) * (b.x - a.x);
    assert (a.y - b.y) * (a.y - b.y) == (b.y - a.y) * (b.y - a.y);
    assert (a.z - b.z) * (a.z - b.z) == (b.z - a.z) * (b.z - a.z);
  }
}
