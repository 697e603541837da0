/**
 * The shared vocabulary of the four exercise validators: the feedback record,
 * the rep phase, safe landmark lookup, the visibility gate, and the
 * distance / joint-angle geometry kernel.
 */
module FormValidator {
  import opened Numeric
  import opened PoseDetector

  datatype Severity = Good | Warning | Error

  /** What `validateForm` reports for one frame. */
  datatype FormFeedback = FormFeedback(isValid: bool, message: string, severity: Severity)

  /** A phase of the movement cycle; `detectRepPhase` answers `Option<Phase>` (`None` is `null`). */
  datatype Phase = Up | Down | Hold

  /**
   * Safe lookup: the landmark in slot `index`, or nothing when the index is
   * out of range or the slot is empty.
   */
  function GetLandmark(frame: Frame, index: int): (r: Option<Landmark>)
    ensures r == None <==> index < 0 || |frame| <= index || frame[index] == None
    ensures 0 <= index < |frame| ==> r == frame[index]
  {
    if 0 <= index < |frame| && frame[index].Some? then frame[index] else None
  }

  /** The safe lookup and the detector's lookup return the same thing for every index. */
  lemma GetLandmarkAgreesWithDetector(frame: Frame, index: int)
    ensures GetLandmark(frame, index) == DetectorGetLandmark(index, frame)
  {
  }

  /** The landmark of a named joint. */
  function At(frame: Frame, j: Joint): Option<Landmark>
  {
    GetLandmark(frame, j)
  }

  /** The visibility a landmark counts with: its own, or 1 when it has none. */
  function VisibilityOf(l: Landmark): real
  {
    if l.visibility.Some? then l.visibility.value else 1.0
  }

  /** The visibility gate: a present landmark whose visibility strictly exceeds the threshold. */
  function IsVisible(l: Option<Landmark>, threshold: real): (r: bool)
    ensures r ==> l.Some?
    ensures l.Some? && l.value.visibility.None? ==> (r <==> threshold < 1.0)
    ensures l.Some? && l.value.visibility.Some? ==> (r <==> threshold < l.value.visibility.value)
  {
    l.Some? && VisibilityOf(l.value) > threshold
  }

  /** The default threshold of the visibility gate. */
  const DefaultThreshold: real := 0.5

  /** A joint passes the gate at the default threshold. */
  predicate Visible(frame: Frame, j: Joint)
  {
    IsVisible(At(frame, j), DefaultThreshold)
  }

  /** A joint is in the frame, whatever its visibility. */
  predicate Present(frame: Frame, j: Joint)
  {
    At(frame, j).Some?
  }

  /** The gate's behaviour at its edges: no landmark, no visibility, and exactly the threshold. */
  lemma IsVisibleEdges(l: Landmark, threshold: real)
    ensures !IsVisible(None, threshold)
    ensures l.visibility == None ==> (IsVisible(Some(l), threshold) <==> threshold < 1.0)
    ensures l.visibility == Some(threshold) ==> !IsVisible(Some(l), threshold)
    ensures l.visibility == None ==> IsVisible(Some(l), DefaultThreshold)
  {
  }

  /** Passing a higher threshold implies passing every lower one. */
  lemma IsVisibleMonotone(l: Option<Landmark>, lower: real, higher: real)
    requires lower <= higher && IsVisible(l, higher)
    ensures IsVisible(l, lower)
  {
  }

  /** The squared Euclidean distance between two landmarks' positions. */
  function SquaredDistance(a: Landmark, b: Landmark): (s: real)
    ensures 0.0 <= s
    ensures a.x == b.x && a.y == b.y && a.z == b.z ==> s == 0.0
  {
    var dx := a.x - b.x;
    var dy := a.y - b.y;
    var dz := a.z - b.z;
    assert 0.0 <= dx * dx && 0.0 <= dy * dy && 0.0 <= dz * dz;
    dx * dx + dy * dy + dz * dz
  }

  /** Euclidean distance between two landmarks' positions (visibility plays no part). */
  function Distance(m: MathLib, a: Landmark, b: Landmark): (d: real)
    ensures 0.0 <= d
    ensures a.x == b.x && a.y == b.y && a.z == b.z ==> d == 0.0
  {
    m.sqrt(SquaredDistance(a, b))
  }

  /** Distance is symmetric. */
  lemma DistanceSymmetric(m: MathLib, a: Landmark, b: Landmark)
    ensures Distance(m, a, b) == Distance(m, b, a)
  {
    assert (a.x - b.x) * (a.x - b.x) == (b.x - a.x) * (b.x - a.x);
    assert (a.y - b.y) * (a.y - b.y) == (b.y - a.y) * (b.y - a.y);
    assert (a.z - b.z) * (a.z - b.z) == (b.z - a.z) * (b.z - a.z);
  }

  /** The validators' distance and the detector's distance are the same function. */
  lemma DistanceAgreesWithDetector(m: MathLib, a: Landmark, b: Landmark)
    ensures Distance(m, a, b) == DetectorDistance(m, a, b)
  {
  }

  /** The law-of-cosines argument, clamped into [-1, 1]. */
  function ClampedCosine(a: real, b: real, c: real): (r: real)
    requires a != 0.0 && b != 0.0
    ensures -1.0 <= r <= 1.0
  {
    Max(-1.0, Min(1.0, (a * a + b * b - c * c) / (2.0 * a * b)))
  }

  /**
   * The angle in degrees at vertex `p2` between the edges to `p1` and `p3`,
   * by the law of cosines; 0 when either edge at the vertex has zero length.
   */
  function Angle(m: MathLib, p1: Landmark, p2: Landmark, p3: Landmark): (r: real)
    ensures 0.0 <= r <= 180.0
    ensures Distance(m, p1, p2) == 0.0 || Distance(m, p2, p3) == 0.0 ==> r == 0.0
  {
    var a := Distance(m, p1, p2);
    var b := Distance(m, p2, p3);
    var c := Distance(m, p1, p3);
    if a == 0.0 || b == 0.0 then 0.0
    else
      var angle := m.acos(ClampedCosine(a, b, c));
      angle * 180.0 / PI
  }

  /** The angle at a vertex does not depend on which outer point is named first. */
  lemma {:induction false} AngleSymmetric(m: MathLib, p1: Landmark, p2: Landmark, p3: Landmark)
    ensures Angle(m, p1, p2, p3) == Angle(m, p3, p2, p1)
  {
    DistanceSymmetric(m, p1, p2);
    DistanceSymmetric(m, p2, p3);
    DistanceSymmetric(m, p1, p3);
    var a, b := Distance(m, p1, p2), Distance(m, p2, p3);
    if a != 0.0 && b != 0.0 {
      var c := Distance(m, p1, p3);
      assert a * a + b * b - c * c == b * b + a * a - c * c;
      assert 2.0 * a * b == 2.0 * b * a;
      assert ClampedCosine(a, b, c) == ClampedCosine(b, a, c);
    }
  }

  /** A coincident vertex (both edges of zero length) always measures 0. */
  lemma AngleAtCoincidentPoints(m: MathLib, p: Landmark, q: Landmark)
    ensures Angle(m, p, p, q) == 0.0 && Angle(m, q, p, p) == 0.0
  {
  }

  /** Two landmarks at the same position, whatever their visibility. */
  predicate SamePosition(a: Landmark, b: Landmark)
  {
    a.x == b.x && a.y == b.y && a.z == b.z
  }

  /** Two frames with the same slots filled at the same positions; visibilities may differ. */
  predicate SamePositions(f: Frame, g: Frame)
  {
    && |f| == |g|
    && (forall i :: 0 <= i < |f| ==> (f[i].Some? <==> g[i].Some?))
    && (forall i :: 0 <= i < |f| && f[i].Some? && g[i].Some? ==> SamePosition(f[i].value, g[i].value))
  }

  /** In frames with the same positions, a joint is present in both or neither, at the same place. */
  lemma AtSamePositions(f: Frame, g: Frame, j: Joint)
    requires SamePositions(f, g)
    ensures Present(f, j) <==> Present(g, j)
    ensures Present(f, j) ==> SamePosition(At(f, j).value, At(g, j).value)
  {
  }

  /** The joint angle depends on the three positions only. */
  lemma {:induction false} AngleSamePositions(m: MathLib, p1: Landmark, p2: Landmark, p3: Landmark,
                                              q1: Landmark, q2: Landmark, q3: Landmark)
    requires SamePosition(p1, q1) && SamePosition(p2, q2) && SamePosition(p3, q3)
    ensures Angle(m, p1, p2, p3) == Angle(m, q1, q2, q3)
  {
    DistanceSamePositions(m, p1, p2, q1, q2);
    DistanceSamePositions(m, p2, p3, q2, q3);
    DistanceSamePositions(m, p1, p3, q1, q3);
  }

  /** The distance depends on the two positions only. */
  lemma DistanceSamePositions(m: MathLib, a: Landmark, b: Landmark, c: Landmark, d: Landmark)
    requires SamePosition(a, c) && SamePosition(b, d)
    ensures Distance(m, a, b) == Distance(m, c, d)
  {
    assert SquaredDistance(a, b) == SquaredDistance(c, d);
  }
}
