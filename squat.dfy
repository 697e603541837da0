/**
 * The squat validator: form feedback from the hips, knees, ankles and
 * shoulders, the rep-phase machine driven by the left knee angle and the left
 * hip's height, and the 0-100 form score.
 */
module Squat {
  import opened Numeric
  import opened PoseDetector
  import opened FormValidator
  import opened PhaseMachine

  /** Above this knee angle the legs count as straight (top of the squat). */
  const TopAngle: real := 150.0

  /** The accepted band of the left knee angle. */
  const MinKneeAngle: real := 60.0
  const MaxKneeAngle: real := 120.0

  const LowerBodyHidden := FormFeedback(false, "Please ensure your lower body is visible", Warning)
  const KneesNotOverToes := FormFeedback(false, "Keep your knees aligned over your toes", Error)
  const TooLow := FormFeedback(false, "Don't go too low - aim for 90 degrees", Warning)
  const GoDeeper := FormFeedback(false, "Lower your body more - aim for 90 degrees at the bottom", Warning)
  const BackNotStraight := FormFeedback(false, "Keep your back straight - shoulders over hips", Warning)
  const GoodForm := FormFeedback(true, "Good form!", Good)

  /** Both hips, knees and ankles pass the visibility gate. */
  predicate LowerBodyVisible(f: Frame)
  {
    && Visible(f, LeftHip) && Visible(f, RightHip)
    && Visible(f, LeftKnee) && Visible(f, RightKnee)
    && Visible(f, LeftAnkle) && Visible(f, RightAnkle)
  }

  /** Horizontal knee-over-ankle offset of one leg. */
  function KneeOffset(knee: Landmark, ankle: Landmark): real
  {
    Abs(knee.x - ankle.x)
  }

  /** Either knee is more than 0.1 sideways from its ankle. */
  predicate KneesOut(f: Frame)
    requires Present(f, LeftKnee) && Present(f, RightKnee) && Present(f, LeftAnkle) && Present(f, RightAnkle)
  {
    KneeOffset(At(f, LeftKnee).value, At(f, LeftAnkle).value) > 0.1
    || KneeOffset(At(f, RightKnee).value, At(f, RightAnkle).value) > 0.1
  }

  /** The left knee angle, hip-knee-ankle. */
  function KneeAngle(m: MathLib, f: Frame): real
    requires Present(f, LeftHip) && Present(f, LeftKnee) && Present(f, LeftAnkle)
  {
    Angle(m, At(f, LeftHip).value, At(f, LeftKnee).value, At(f, LeftAnkle).value)
  }

  /** Horizontal distance between the shoulders' midpoint and the hips' midpoint. */
  function BackOffset(f: Frame): real
    requires Present(f, LeftShoulder) && Present(f, RightShoulder) && Present(f, LeftHip) && Present(f, RightHip)
  {
    Abs(Mean(At(f, LeftShoulder).value.x, At(f, RightShoulder).value.x)
        - Mean(At(f, LeftHip).value.x, At(f, RightHip).value.x))
  }

  /** Both shoulders are in the frame and lean more than 0.05 sideways from the hips. */
  predicate BackLeaning(f: Frame)
    requires Present(f, LeftHip) && Present(f, RightHip)
  {
    Present(f, LeftShoulder) && Present(f, RightShoulder) && BackOffset(f) > 0.05
  }

  /** `validateForm`: the first failing check, in order visibility, knees, depth, back. */
  function ValidateForm(m: MathLib, f: Frame): (r: FormFeedback)
    ensures r.isValid <==> r.severity == Good
    ensures !LowerBodyVisible(f) <==> r == LowerBodyHidden
    ensures r.severity == Error <==> LowerBodyVisible(f) && KneesOut(f)
    ensures r.severity == Good <==>
              && LowerBodyVisible(f) && !KneesOut(f)
              && MinKneeAngle <= KneeAngle(m, f) <= MaxKneeAngle
              && !BackLeaning(f)
    ensures r == TooLow ==> KneeAngle(m, f) < MinKneeAngle
    ensures r == GoDeeper ==> MaxKneeAngle < KneeAngle(m, f)
    // which message the chain reports: the first failing check wins
    ensures r == KneesNotOverToes <==> LowerBodyVisible(f) && KneesOut(f)
    ensures r == TooLow <==> LowerBodyVisible(f) && !KneesOut(f) && KneeAngle(m, f) < MinKneeAngle
    ensures r == GoDeeper <==> LowerBodyVisible(f) && !KneesOut(f) && MaxKneeAngle < KneeAngle(m, f)
    ensures r == BackNotStraight <==>
              && LowerBodyVisible(f) && !KneesOut(f)
              && MinKneeAngle <= KneeAngle(m, f) <= MaxKneeAngle && BackLeaning(f)
    ensures r == GoodForm <==>
              && LowerBodyVisible(f) && !KneesOut(f)
              && MinKneeAngle <= KneeAngle(m, f) <= MaxKneeAngle && !BackLeaning(f)
  {
    if !LowerBodyVisible(f) then LowerBodyHidden
    else if KneesOut(f) then KneesNotOverToes
    else
      var kneeAngle := KneeAngle(m, f);
      if kneeAngle < MinKneeAngle then TooLow
      else if kneeAngle > MaxKneeAngle then GoDeeper
      else if BackLeaning(f) then BackNotStraight
      else GoodForm
  }

  /** The joints `calculateFormScore` needs in the frame (visibility is not consulted). */
  predicate ScoredJointsPresent(f: Frame)
  {
    && Present(f, LeftHip) && Present(f, RightHip)
    && Present(f, LeftKnee) && Present(f, RightKnee)
    && Present(f, LeftAnkle) && Present(f, RightAnkle)
  }

  /** The right knee angle, hip-knee-ankle. */
  function RightKneeAngle(m: MathLib, f: Frame): real
    requires Present(f, RightHip) && Present(f, RightKnee) && Present(f, RightAnkle)
  {
    Angle(m, At(f, RightHip).value, At(f, RightKnee).value, At(f, RightAnkle).value)
  }

  /** Knees off their ankles: 300 per unit of summed offset, capped at 30. */
  function KneeAlignmentPenalty(f: Frame): (p: real)
    requires ScoredJointsPresent(f)
    ensures 0.0 <= p <= 30.0
  {
    var kneeOffsets := KneeOffset(At(f, LeftKnee).value, At(f, LeftAnkle).value)
                       + KneeOffset(At(f, RightKnee).value, At(f, RightAnkle).value);
    Min(30.0, kneeOffsets * 300.0)
  }

  /** The left knee angle's distance from 90: 0.2 per degree, capped at 20 but never above 18. */
  function KneeAnglePenalty(m: MathLib, f: Frame): (p: real)
    requires ScoredJointsPresent(f)
    ensures 0.0 <= p <= 18.0
  {
    Min(20.0, Abs(KneeAngle(m, f) - 90.0) * 0.2)
  }

  /** The back's sideways lean: 400 per unit, capped at 20; nothing when a shoulder is missing. */
  function BackPenalty(f: Frame): (p: real)
    requires ScoredJointsPresent(f)
    ensures 0.0 <= p <= 20.0
    ensures !(Present(f, LeftShoulder) && Present(f, RightShoulder)) ==> p == 0.0
  {
    if Present(f, LeftShoulder) && Present(f, RightShoulder) then Min(20.0, BackOffset(f) * 400.0) else 0.0
  }

  /** Left-right knee angle difference: 2 per degree, capped at 20. */
  function SymmetryPenalty(m: MathLib, f: Frame): (p: real)
    requires ScoredJointsPresent(f)
    ensures 0.0 <= p <= 20.0
  {
    Min(20.0, Abs(KneeAngle(m, f) - RightKneeAngle(m, f)) * 2.0)
  }

  /**
   * `calculateFormScore`: 100 less the four capped penalties, clamped to
   * [0, 100]; 0 when a hip, knee or ankle is missing from the frame.
   */
  function FormScore(m: MathLib, f: Frame): (r: real)
    ensures 0.0 <= r <= 100.0
    ensures !ScoredJointsPresent(f) ==> r == 0.0
    // the penalties total at most 30 + 18 + 20 + 20 = 88
    ensures ScoredJointsPresent(f) ==> 12.0 <= r
  {
    if !ScoredJointsPresent(f) then 0.0
    else
      var score := 100.0 - KneeAlignmentPenalty(f) - KneeAnglePenalty(m, f) - BackPenalty(f)
                   - SymmetryPenalty(m, f);
      ClampScore(score)
  }

  /** A symmetric squat at exactly 90 degrees, knees over ankles and upright, scores 100. */
  lemma {:induction false} FormScorePerfect(m: MathLib, f: Frame)
    requires ScoredJointsPresent(f)
    requires At(f, LeftKnee).value.x == At(f, LeftAnkle).value.x
    requires At(f, RightKnee).value.x == At(f, RightAnkle).value.x
    requires KneeAngle(m, f) == 90.0 && RightKneeAngle(m, f) == 90.0
    requires Present(f, LeftShoulder) && Present(f, RightShoulder) && BackOffset(f) == 0.0
    ensures FormScore(m, f) == 100.0
  {
    assert KneeAlignmentPenalty(f) == 0.0 && KneeAnglePenalty(m, f) == 0.0;
    assert BackPenalty(f) == 0.0 && SymmetryPenalty(m, f) == 0.0;
  }

  /** The score reads positions only: changing visibilities never changes it. */
  lemma {:induction false} FormScoreIgnoresVisibility(m: MathLib, f: Frame, g: Frame)
    requires SamePositions(f, g)
    ensures FormScore(m, f) == FormScore(m, g)
  {
    PenaltiesIgnoreVisibility(m, f, g);
  }

  /** Each penalty, and whether the score is computed at all, reads positions only. */
  lemma {:induction false} PenaltiesIgnoreVisibility(m: MathLib, f: Frame, g: Frame)
    requires SamePositions(f, g)
    ensures ScoredJointsPresent(f) <==> ScoredJointsPresent(g)
    ensures ScoredJointsPresent(f) ==>
              && KneeAlignmentPenalty(f) == KneeAlignmentPenalty(g)
              && KneeAnglePenalty(m, f) == KneeAnglePenalty(m, g)
              && BackPenalty(f) == BackPenalty(g)
              && SymmetryPenalty(m, f) == SymmetryPenalty(m, g)
  {
    AtSamePositions(f, g, LeftShoulder);
    AtSamePositions(f, g, RightShoulder);
    AtSamePositions(f, g, LeftHip);
    AtSamePositions(f, g, RightHip);
    AtSamePositions(f, g, LeftKnee);
    AtSamePositions(f, g, RightKnee);
    AtSamePositions(f, g, LeftAnkle);
    AtSamePositions(f, g, RightAnkle);
    if ScoredJointsPresent(f) {
      AngleSamePositions(m, At(f, LeftHip).value, At(f, LeftKnee).value, At(f, LeftAnkle).value,
                         At(g, LeftHip).value, At(g, LeftKnee).value, At(g, LeftAnkle).value);
      AngleSamePositions(m, At(f, RightHip).value, At(f, RightKnee).value, At(f, RightAnkle).value,
                         At(g, RightHip).value, At(g, RightKnee).value, At(g, RightAnkle).value);
    }
  }

  /** The left hip, knee and ankle that drive the phase machine all pass the gate. */
  predicate TrackedLegVisible(f: Frame)
  {
    Visible(f, LeftHip) && Visible(f, LeftKnee) && Visible(f, LeftAnkle)
  }

  /**
   * What `detectRepPhase` answers and remembers: nothing, with the memory
   * untouched, unless the tracked leg is visible; otherwise one step of the
   * machine on the knee angle and the left hip's height.
   */
  function DetectSpec(m: MathLib, f: Frame, mem: PhaseMemory): (r: StepResult)
    requires mem.Valid()
    ensures r.memory.Valid()
    ensures !TrackedLegVisible(f) ==> r == StepResult(None, mem)
    ensures TrackedLegVisible(f) && KneeAngle(m, f) < BottomAngle ==> r.memory.previousPhase == Some(Down)
    ensures TrackedLegVisible(f) && TopAngle < KneeAngle(m, f) ==> r.memory.previousPhase == Some(Up)
    // between the thresholds, the hip moving more than the dead band signals its direction, once;
    // no other new phase is signalled there
    ensures TrackedLegVisible(f) && BottomAngle <= KneeAngle(m, f) <= TopAngle ==>
              var y := At(f, LeftHip).value.y;
              && (mem.previousY.Some? && Abs(y - mem.previousY.value) > DeadBand
                  && mem.previousPhase != Some(if y < mem.previousY.value then Up else Down) ==>
                    r.phase == Some(if y < mem.previousY.value then Up else Down))
              && (r.phase != mem.previousPhase ==>
                    mem.previousY.Some? && Abs(y - mem.previousY.value) > DeadBand)
  {
    if !TrackedLegVisible(f) then StepResult(None, mem)
    else Step(mem, KneeAngle(m, f), At(f, LeftHip).value.y, TopAngle)
  }

  /** The validator's private state, kept between frames. */
  class SquatValidator {
    var previousPhase: Option<Phase>
    var previousHipY: Option<real>

    /** The fields as the phase machine's memory. */
    function Memory(): PhaseMemory
      reads this
    {
      PhaseMemory(previousPhase, previousHipY)
    }

    ghost predicate Valid()
      reads this
    {
      Memory().Valid()
    }

    constructor()
      ensures Valid() && Memory() == Initial
    {
      previousPhase := None;
      previousHipY := None;
    }

    /** `detectRepPhase`: one step of the machine on this validator's fields. */
    method DetectRepPhase(m: MathLib, f: Frame) returns (phase: Option<Phase>)
      requires Valid()
      modifies this
      ensures Valid()
      ensures StepResult(phase, Memory()) == DetectSpec(m, f, old(Memory()))
    {
      var leftHip := GetLandmark(f, LeftHip);
      var leftKnee := GetLandmark(f, LeftKnee);
      var leftAnkle := GetLandmark(f, LeftAnkle);
      if leftHip.None? || leftKnee.None? || leftAnkle.None? {
        return None;
      }
      if !IsVisible(leftHip, DefaultThreshold) || !IsVisible(leftKnee, DefaultThreshold)
         || !IsVisible(leftAnkle, DefaultThreshold) {
        return None;
      }
      var kneeAngle := Angle(m, leftHip.value, leftKnee.value, leftAnkle.value);
      var currentHipY := leftHip.value.y;
      if kneeAngle < BottomAngle {
        if previousPhase != Some(Down) {
          previousPhase := Some(Down);
          return Some(Down);
        }
        return Some(Hold);
      } else if kneeAngle > TopAngle {
        if previousPhase != Some(Up) {
          previousPhase := Some(Up);
          return Some(Up);
        }
        return Some(Hold);
      }
      if previousHipY.Some? {
        var hipMovement := currentHipY - previousHipY.value;
        if Abs(hipMovement) > DeadBand {
          if hipMovement > 0.0 {
            if previousPhase != Some(Down) {
              previousPhase := Some(Down);
              return Some(Down);
            }
          } else {
            if previousPhase != Some(Up) {
              previousPhase := Some(Up);
              return Some(Up);
            }
          }
        }
      }
      previousHipY := Some(currentHipY);
      return previousPhase;
    }
  }
}
