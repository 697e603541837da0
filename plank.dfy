/**
 * The plank validator: form feedback on a static hold from the shoulders,
 * hips, knees and ankles, a rep phase that is always `Hold`, and the 0-100
 * form score.
 */
module Plank {
  import opened Numeric
  import opened PoseDetector
  import opened FormValidator

  /** Below this knee angle the legs count as bent. */
  const MinKneeAngle: real := 160.0

  const BodyHidden := FormFeedback(false, "Please ensure your body is visible", Warning)
  const BodyNotStraight := FormFeedback(false, "Keep your body straight - align shoulders, hips, and ankles", Error)
  const HipsTooHigh := FormFeedback(false, "Lower your hips - keep your body straight", Error)
  const HipsTooLow := FormFeedback(false, "Lift your hips - keep your body straight", Error)
  const KneesBent := FormFeedback(false, "Straighten your legs - keep knees locked", Warning)
  const GoodForm := FormFeedback(true, "Good form! Keep your core engaged", Good)

  /** Both shoulders and both hips pass the visibility gate (legs are not required). */
  predicate TorsoVisible(f: Frame)
  {
    Visible(f, LeftShoulder) && Visible(f, RightShoulder) && Visible(f, LeftHip) && Visible(f, RightHip)
  }

  predicate AnklesPresent(f: Frame)
  {
    Present(f, LeftAnkle) && Present(f, RightAnkle)
  }

  /** The mean heights of the shoulders, hips and ankles. */
  function ShoulderY(f: Frame): real
    requires Present(f, LeftShoulder) && Present(f, RightShoulder)
  {
    Mean(At(f, LeftShoulder).value.y, At(f, RightShoulder).value.y)
  }

  function HipY(f: Frame): real
    requires Present(f, LeftHip) && Present(f, RightHip)
  {
    Mean(At(f, LeftHip).value.y, At(f, RightHip).value.y)
  }

  function AnkleY(f: Frame): real
    requires AnklesPresent(f)
  {
    Mean(At(f, LeftAnkle).value.y, At(f, RightAnkle).value.y)
  }

  /** `Math.max(a, b, c) - Math.min(a, b, c)`: how far apart the three heights are. */
  function Spread(a: real, b: real, c: real): (r: real)
    ensures 0.0 <= r
    ensures Abs(a - b) <= r && Abs(b - c) <= r && Abs(a - c) <= r
    ensures r == Abs(a - b) || r == Abs(b - c) || r == Abs(a - c)
  {
    Max(Max(a, b), c) - Min(Min(a, b), c)
  }

  /** The vertical spread of shoulders, hips and ankles. */
  function BodySpread(f: Frame): real
    requires Present(f, LeftShoulder) && Present(f, RightShoulder)
    requires Present(f, LeftHip) && Present(f, RightHip) && AnklesPresent(f)
  {
    Spread(ShoulderY(f), HipY(f), AnkleY(f))
  }

  /** The left knee angle, hip-knee-ankle. */
  function KneeAngle(m: MathLib, f: Frame): real
    requires Present(f, LeftHip) && Present(f, LeftKnee) && Present(f, LeftAnkle)
  {
    Angle(m, At(f, LeftHip).value, At(f, LeftKnee).value, At(f, LeftAnkle).value)
  }

  /** The left leg is in the frame and bent below 160 degrees. */
  predicate LegBent(m: MathLib, f: Frame)
  {
    Present(f, LeftHip) && Present(f, LeftKnee) && Present(f, LeftAnkle) && KneeAngle(m, f) < MinKneeAngle
  }

  /**
   * `validateForm`: the first failing check, in order visibility, straight
   * line, hips high, hips low (these three only when both ankles are in the
   * frame), bent knee.
   */
  function ValidateForm(m: MathLib, f: Frame): (r: FormFeedback)
    ensures r.isValid <==> r.severity == Good
    ensures !TorsoVisible(f) <==> r == BodyHidden
    ensures r.severity == Error <==>
              && TorsoVisible(f) && AnklesPresent(f)
              && (BodySpread(f) > 0.1 || HipY(f) < ShoulderY(f) - 0.05 || HipY(f) > ShoulderY(f) + 0.08)
    ensures r.severity == Good <==>
              && TorsoVisible(f)
              && (AnklesPresent(f) ==>
                    BodySpread(f) <= 0.1 && ShoulderY(f) - 0.05 <= HipY(f) <= ShoulderY(f) + 0.08)
              && !LegBent(m, f)
    // the hip checks only fire on a body that passed the straight-line check
    ensures r == HipsTooHigh || r == HipsTooLow ==> Abs(HipY(f) - ShoulderY(f)) <= 0.1
    // which message the chain reports: the first failing check wins
    ensures r == BodyNotStraight <==> TorsoVisible(f) && AnklesPresent(f) && BodySpread(f) > 0.1
    ensures r == HipsTooHigh <==>
              && TorsoVisible(f) && AnklesPresent(f) && BodySpread(f) <= 0.1
              && HipY(f) < ShoulderY(f) - 0.05
    ensures r == HipsTooLow <==>
              && TorsoVisible(f) && AnklesPresent(f) && BodySpread(f) <= 0.1
              && ShoulderY(f) - 0.05 <= HipY(f) && HipY(f) > ShoulderY(f) + 0.08
    ensures r == KneesBent <==>
              && TorsoVisible(f)
              && (AnklesPresent(f) ==>
                    BodySpread(f) <= 0.1 && ShoulderY(f) - 0.05 <= HipY(f) <= ShoulderY(f) + 0.08)
              && LegBent(m, f)
    ensures r == GoodForm <==>
              && TorsoVisible(f)
              && (AnklesPresent(f) ==>
                    BodySpread(f) <= 0.1 && ShoulderY(f) - 0.05 <= HipY(f) <= ShoulderY(f) + 0.08)
              && !LegBent(m, f)
  {
    if !TorsoVisible(f) then BodyHidden
    else if AnklesPresent(f) && BodySpread(f) > 0.1 then BodyNotStraight
    else if AnklesPresent(f) && HipY(f) < ShoulderY(f) - 0.05 then HipsTooHigh
    else if AnklesPresent(f) && HipY(f) > ShoulderY(f) + 0.08 then HipsTooLow
    else if LegBent(m, f) then KneesBent
    else GoodForm
  }

  /** `detectRepPhase`: a plank is one static hold, whatever the frame. */
  function DetectRepPhase(f: Frame): (phase: Option<Phase>)
    ensures phase == Some(Hold)
  {
    Some(Hold)
  }

  /** The joints `calculateFormScore` needs in the frame (visibility is not consulted). */
  predicate ScoredJointsPresent(f: Frame)
  {
    && Present(f, LeftShoulder) && Present(f, RightShoulder)
    && Present(f, LeftHip) && Present(f, RightHip)
    && AnklesPresent(f)
  }

  /** Vertical spread of shoulders, hips and ankles: 400 per unit, capped at 40. */
  function SpreadPenalty(f: Frame): (p: real)
    requires ScoredJointsPresent(f)
    ensures 0.0 <= p <= 40.0
  {
    Min(40.0, BodySpread(f) * 400.0)
  }

  /** The left knee's distance from straight: 0.2 per degree, capped at 20; nothing when the left knee is missing. */
  function KneePenalty(m: MathLib, f: Frame): (p: real)
    requires ScoredJointsPresent(f)
    ensures 0.0 <= p <= 20.0
    ensures !Present(f, LeftKnee) ==> p == 0.0
  {
    if Present(f, LeftKnee) then Min(20.0, Abs(KneeAngle(m, f) - 180.0) * 0.2) else 0.0
  }

  /** Uneven hips: 400 per unit of height difference, capped at 20. */
  function HipSymmetryPenalty(f: Frame): (p: real)
    requires ScoredJointsPresent(f)
    ensures 0.0 <= p <= 20.0
  {
    Min(20.0, Abs(At(f, LeftHip).value.y - At(f, RightHip).value.y) * 400.0)
  }

  /**
   * `calculateFormScore`: 100 less the three capped penalties, clamped to
   * [0, 100]; 0 when a shoulder, hip or ankle is missing from the frame.
   */
  function FormScore(m: MathLib, f: Frame): (r: real)
    ensures 0.0 <= r <= 100.0
    ensures !ScoredJointsPresent(f) ==> r == 0.0
    // the penalties total at most 40 + 20 + 20 = 80
    ensures ScoredJointsPresent(f) ==> 20.0 <= r
  {
    if !ScoredJointsPresent(f) then 0.0
    else ClampScore(100.0 - SpreadPenalty(f) - KneePenalty(m, f) - HipSymmetryPenalty(f))
  }

  /** A level plank with straight, level legs, or with the left knee out of the frame, scores 100. */
  lemma {:induction false} FormScorePerfect(m: MathLib, f: Frame)
    requires ScoredJointsPresent(f)
    requires At(f, LeftHip).value.y == At(f, RightHip).value.y
    requires ShoulderY(f) == HipY(f) == AnkleY(f)
    requires Present(f, LeftKnee) ==> KneeAngle(m, f) == 180.0
    ensures FormScore(m, f) == 100.0
  {
    assert BodySpread(f) == 0.0;
    assert SpreadPenalty(f) == 0.0 && KneePenalty(m, f) == 0.0 && HipSymmetryPenalty(f) == 0.0;
  }

  /** The score reads positions only: changing visibilities never changes it. */
  lemma {:induction false} FormScoreIgnoresVisibility(m: MathLib, f: Frame, g: Frame)
    requires SamePositions(f, g)
    ensures FormScore(m, f) == FormScore(m, g)
  {
    PenaltiesIgnoreVisibility(m, f, g);
  }

  /** Each penalty, and whether the score is computed at all, reads positions only. */
  lemma {:induction false} PenaltiesIgnoreVisibility(m: MathLib, f: Frame, g: Frame)
    requires SamePositions(f, g)
    ensures ScoredJointsPresent(f) <==> ScoredJointsPresent(g)
    ensures ScoredJointsPresent(f) ==>
              && SpreadPenalty(f) == SpreadPenalty(g)
              && KneePenalty(m, f) == KneePenalty(m, g)
              && HipSymmetryPenalty(f) == HipSymmetryPenalty(g)
  {
    AtSamePositions(f, g, LeftShoulder);
    AtSamePositions(f, g, RightShoulder);
    AtSamePositions(f, g, LeftHip);
    AtSamePositions(f, g, RightHip);
    AtSamePositions(f, g, LeftKnee);
    AtSamePositions(f, g, LeftAnkle);
    AtSamePositions(f, g, RightAnkle);
    if ScoredJointsPresent(f) {
      assert BodySpread(f) == BodySpread(g);
      if Present(f, LeftKnee) {
        AngleSamePositions(m, At(f, LeftHip).value, At(f, LeftKnee).value, At(f, LeftAnkle).value,
                           At(g, LeftHip).value, At(g, LeftKnee).value, At(g, LeftAnkle).value);
      }
    }
  }
}
