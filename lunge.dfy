/**
 * The lunge validator (left leg in front): form feedback from both legs and
 * the torso, the rep-phase machine driven by the left knee angle and the left
 * knee's height, and the 0-100 form score.
 */
module Lunge {
  import opened Numeric
  import opened PoseDetector
  import opened FormValidator
  import opened PhaseMachine

  /** Above this front-knee angle the lunge is at the top. */
  const TopAngle: real := 150.0

  /** The accepted band of the front knee angle. */
  const MinFrontKneeAngle: real := 70.0
  const MaxFrontKneeAngle: real := 110.0

  /** Below this back-knee angle the back leg counts as bent. */
  const MinBackKneeAngle: real := 150.0

  const LowerBodyHidden := FormFeedback(false, "Please ensure your lower body is visible", Warning)
  const KneePastToes := FormFeedback(false, "Keep your front knee behind your toes", Error)
  const TooLow := FormFeedback(false, "Don't go too low - aim for 90 degrees", Warning)
  const GoDeeper := FormFeedback(false, "Lower your body more - aim for 90 degrees at the bottom", Warning)
  const BackLegBent := FormFeedback(false, "Straighten your back leg", Warning)
  const LeaningForward := FormFeedback(false, "Keep your torso upright - don't lean forward", Warning)
  const GoodForm := FormFeedback(true, "Good form!", Good)

  /** Both hips, knees and ankles pass the visibility gate. */
  predicate LowerBodyVisible(f: Frame)
  {
    && Visible(f, LeftHip) && Visible(f, RightHip)
    && Visible(f, LeftKnee) && Visible(f, RightKnee)
    && Visible(f, LeftAnkle) && Visible(f, RightAnkle)
  }

  /** The front knee is more than 0.05 ahead of its ankle; only the positive x direction counts. */
  predicate FrontKneePastToes(f: Frame)
    requires Present(f, LeftKnee) && Present(f, LeftAnkle)
  {
    At(f, LeftKnee).value.x - At(f, LeftAnkle).value.x > 0.05
  }

  /** The front (left) knee angle, hip-knee-ankle. */
  function FrontKneeAngle(m: MathLib, f: Frame): real
    requires Present(f, LeftHip) && Present(f, LeftKnee) && Present(f, LeftAnkle)
  {
    Angle(m, At(f, LeftHip).value, At(f, LeftKnee).value, At(f, LeftAnkle).value)
  }

  /** The back (right) knee angle, hip-knee-ankle. */
  function BackKneeAngle(m: MathLib, f: Frame): real
    requires Present(f, RightHip) && Present(f, RightKnee) && Present(f, RightAnkle)
  {
    Angle(m, At(f, RightHip).value, At(f, RightKnee).value, At(f, RightAnkle).value)
  }

  /** Both shoulders are in the frame and their mean height is within 0.05 of the hips' (torso near horizontal). */
  predicate TorsoLeaning(f: Frame)
    requires Present(f, LeftHip) && Present(f, RightHip)
  {
    && Present(f, LeftShoulder) && Present(f, RightShoulder)
    && Abs(Mean(At(f, LeftShoulder).value.y, At(f, RightShoulder).value.y)
           - Mean(At(f, LeftHip).value.y, At(f, RightHip).value.y)) < 0.05
  }

  /** `validateForm`: the first failing check, in order visibility, front knee, depth, back leg, torso. */
  function ValidateForm(m: MathLib, f: Frame): (r: FormFeedback)
    ensures r.isValid <==> r.severity == Good
    ensures !LowerBodyVisible(f) <==> r == LowerBodyHidden
    ensures r.severity == Error <==> LowerBodyVisible(f) && FrontKneePastToes(f)
    ensures r.severity == Good <==>
              && LowerBodyVisible(f) && !FrontKneePastToes(f)
              && MinFrontKneeAngle <= FrontKneeAngle(m, f) <= MaxFrontKneeAngle
              && MinBackKneeAngle <= BackKneeAngle(m, f)
              && !TorsoLeaning(f)
    // which message the chain reports: the first failing check wins
    ensures r == KneePastToes <==> LowerBodyVisible(f) && FrontKneePastToes(f)
    ensures r == TooLow <==>
              LowerBodyVisible(f) && !FrontKneePastToes(f) && FrontKneeAngle(m, f) < MinFrontKneeAngle
    ensures r == GoDeeper <==>
              LowerBodyVisible(f) && !FrontKneePastToes(f) && MaxFrontKneeAngle < FrontKneeAngle(m, f)
    ensures r == BackLegBent <==>
              && LowerBodyVisible(f) && !FrontKneePastToes(f)
              && MinFrontKneeAngle <= FrontKneeAngle(m, f) <= MaxFrontKneeAngle
              && BackKneeAngle(m, f) < MinBackKneeAngle
    ensures r == LeaningForward <==>
              && LowerBodyVisible(f) && !FrontKneePastToes(f)
              && MinFrontKneeAngle <= FrontKneeAngle(m, f) <= MaxFrontKneeAngle
              && MinBackKneeAngle <= BackKneeAngle(m, f) && TorsoLeaning(f)
    ensures r == GoodForm <==>
              && LowerBodyVisible(f) && !FrontKneePastToes(f)
              && MinFrontKneeAngle <= FrontKneeAngle(m, f) <= MaxFrontKneeAngle
              && MinBackKneeAngle <= BackKneeAngle(m, f) && !TorsoLeaning(f)
  {
    if !LowerBodyVisible(f) then LowerBodyHidden
    else if FrontKneePastToes(f) then KneePastToes
    else
      var frontKneeAngle := FrontKneeAngle(m, f);
      if frontKneeAngle < MinFrontKneeAngle then TooLow
      else if frontKneeAngle > MaxFrontKneeAngle then GoDeeper
      else if BackKneeAngle(m, f) < MinBackKneeAngle then BackLegBent
      else if TorsoLeaning(f) then LeaningForward
      else GoodForm
  }

  /**
   * The knee check of `validateForm` is one-sided while the score's is not:
   * a front knee any distance behind its ankle never draws the error.
   */
  lemma KneeBehindAnkleNeverAnError(m: MathLib, f: Frame)
    requires Present(f, LeftKnee) && Present(f, LeftAnkle)
    requires At(f, LeftKnee).value.x <= At(f, LeftAnkle).value.x
    ensures ValidateForm(m, f).severity != Error
  {
  }

  /** The joints `calculateFormScore` needs in the frame (visibility is not consulted). */
  predicate ScoredJointsPresent(f: Frame)
  {
    && Present(f, LeftHip) && Present(f, RightHip)
    && Present(f, LeftKnee) && Present(f, RightKnee)
    && Present(f, LeftAnkle) && Present(f, RightAnkle)
  }

  /** The front knee's horizontal offset from its ankle, in either direction: 600 per unit, capped at 30. */
  function KneeOffsetPenalty(f: Frame): (p: real)
    requires ScoredJointsPresent(f)
    ensures 0.0 <= p <= 30.0
  {
    Min(30.0, Abs(At(f, LeftKnee).value.x - At(f, LeftAnkle).value.x) * 600.0)
  }

  /** The front knee angle's distance from 90: 0.2 per degree, capped at 20 but never above 18. */
  function FrontKneePenalty(m: MathLib, f: Frame): (p: real)
    requires ScoredJointsPresent(f)
    ensures 0.0 <= p <= 18.0
  {
    Min(20.0, Abs(FrontKneeAngle(m, f) - 90.0) * 0.2)
  }

  /** The back knee's distance from straight: 0.2 per degree, capped at 20. */
  function BackLegPenalty(m: MathLib, f: Frame): (p: real)
    requires ScoredJointsPresent(f)
    ensures 0.0 <= p <= 20.0
  {
    Min(20.0, Abs(BackKneeAngle(m, f) - 180.0) * 0.2)
  }

  /** A flat 20 for a leaning torso. */
  function TorsoPenalty(f: Frame): (p: real)
    requires ScoredJointsPresent(f)
    ensures p == 20.0 <==> TorsoLeaning(f)
    ensures p == 0.0 <==> !TorsoLeaning(f)
  {
    if TorsoLeaning(f) then 20.0 else 0.0
  }

  /**
   * `calculateFormScore`: 100 less the four penalties, clamped to [0, 100];
   * 0 when a hip, knee or ankle is missing from the frame.
   */
  function FormScore(m: MathLib, f: Frame): (r: real)
    ensures 0.0 <= r <= 100.0
    ensures !ScoredJointsPresent(f) ==> r == 0.0
    // the penalties total at most 30 + 18 + 20 + 20 = 88
    ensures ScoredJointsPresent(f) ==> 12.0 <= r
    ensures ScoredJointsPresent(f) && TorsoLeaning(f) ==> r <= 80.0
  {
    if !ScoredJointsPresent(f) then 0.0
    else ClampScore(100.0 - KneeOffsetPenalty(f) - FrontKneePenalty(m, f) - BackLegPenalty(m, f) - TorsoPenalty(f))
  }

  /** A lunge at exactly 90 degrees in front, a straight back leg, knee over ankle and upright torso scores 100. */
  lemma {:induction false} FormScorePerfect(m: MathLib, f: Frame)
    requires ScoredJointsPresent(f)
    requires At(f, LeftKnee).value.x == At(f, LeftAnkle).value.x
    requires FrontKneeAngle(m, f) == 90.0 && BackKneeAngle(m, f) == 180.0
    requires !TorsoLeaning(f)
    ensures FormScore(m, f) == 100.0
  {
    assert KneeOffsetPenalty(f) == 0.0 && FrontKneePenalty(m, f) == 0.0 && BackLegPenalty(m, f) == 0.0;
  }

  /** The score reads positions only: changing visibilities never changes it. */
  lemma {:induction false} FormScoreIgnoresVisibility(m: MathLib, f: Frame, g: Frame)
    requires SamePositions(f, g)
    ensures FormScore(m, f) == FormScore(m, g)
  {
    PenaltiesIgnoreVisibility(m, f, g);
  }

  /** Each penalty, and whether the score is computed at all, reads positions only. */
  lemma {:induction false} PenaltiesIgnoreVisibility(m: MathLib, f: Frame, g: Frame)
    requires SamePositions(f, g)
    ensures ScoredJointsPresent(f) <==> ScoredJointsPresent(g)
    ensures ScoredJointsPresent(f) ==>
              && KneeOffsetPenalty(f) == KneeOffsetPenalty(g)
              && FrontKneePenalty(m, f) == FrontKneePenalty(m, g)
              && BackLegPenalty(m, f) == BackLegPenalty(m, g)
              && TorsoPenalty(f) == TorsoPenalty(g)
  {
    AtSamePositions(f, g, LeftShoulder);
    AtSamePositions(f, g, RightShoulder);
    AtSamePositions(f, g, LeftHip);
    AtSamePositions(f, g, RightHip);
    AtSamePositions(f, g, LeftKnee);
    AtSamePositions(f, g, RightKnee);
    AtSamePositions(f, g, LeftAnkle);
    AtSamePositions(f, g, RightAnkle);
    if ScoredJointsPresent(f) {
      AngleSamePositions(m, At(f, LeftHip).value, At(f, LeftKnee).value, At(f, LeftAnkle).value,
                         At(g, LeftHip).value, At(g, LeftKnee).value, At(g, LeftAnkle).value);
      AngleSamePositions(m, At(f, RightHip).value, At(f, RightKnee).value, At(f, RightAnkle).value,
                         At(g, RightHip).value, At(g, RightKnee).value, At(g, RightAnkle).value);
    }
  }

  /** The left hip, knee and ankle that drive the phase machine all pass the gate. */
  predicate TrackedLegVisible(f: Frame)
  {
    Visible(f, LeftHip) && Visible(f, LeftKnee) && Visible(f, LeftAnkle)
  }

  /**
   * What `detectRepPhase` answers and remembers: nothing, with the memory
   * untouched, unless the tracked leg is visible; otherwise one step of the
   * machine on the front knee angle and the left knee's height.
   */
  function DetectSpec(m: MathLib, f: Frame, mem: PhaseMemory): (r: StepResult)
    requires mem.Valid()
    ensures r.memory.Valid()
    ensures !TrackedLegVisible(f) ==> r == StepResult(None, mem)
    ensures TrackedLegVisible(f) && FrontKneeAngle(m, f) < BottomAngle ==> r.memory.previousPhase == Some(Down)
    ensures TrackedLegVisible(f) && TopAngle < FrontKneeAngle(m, f) ==> r.memory.previousPhase == Some(Up)
    // between the thresholds, the knee moving more than the dead band signals its direction, once;
    // no other new phase is signalled there
    ensures TrackedLegVisible(f) && BottomAngle <= FrontKneeAngle(m, f) <= TopAngle ==>
              var y := At(f, LeftKnee).value.y;
              && (mem.previousY.Some? && Abs(y - mem.previousY.value) > DeadBand
                  && mem.previousPhase != Some(if y < mem.previousY.value then Up else Down) ==>
                    r.phase == Some(if y < mem.previousY.value then Up else Down))
              && (r.phase != mem.previousPhase ==>
                    mem.previousY.Some? && Abs(y - mem.previousY.value) > DeadBand)
  {
    if !TrackedLegVisible(f) then StepResult(None, mem)
    else Step(mem, FrontKneeAngle(m, f), At(f, LeftKnee).value.y, TopAngle)
  }

  /** The validator's private state, kept between frames. */
  class LungeValidator {
    var previousPhase: Option<Phase>
    var previousKneeY: Option<real>

    /** The fields as the phase machine's memory. */
    function Memory(): PhaseMemory
      reads this
    {
      PhaseMemory(previousPhase, previousKneeY)
    }

    ghost predicate Valid()
      reads this
    {
      Memory().Valid()
    }

    constructor()
      ensures Valid() && Memory() == Initial
    {
      previousPhase := None;
      previousKneeY := None;
    }

    /** `detectRepPhase`: one step of the machine on this validator's fields. */
    method DetectRepPhase(m: MathLib, f: Frame) returns (phase: Option<Phase>)
      requires Valid()
      modifies this
      ensures Valid()
      ensures StepResult(phase, Memory()) == DetectSpec(m, f, old(Memory()))
    {
      var leftHip := GetLandmark(f, LeftHip);
      var leftKnee := GetLandmark(f, LeftKnee);
      var leftAnkle := GetLandmark(f, LeftAnkle);
      if leftHip.None? || leftKnee.None? || leftAnkle.None? {
        return None;
      }
      if !IsVisible(leftHip, DefaultThreshold) || !IsVisible(leftKnee, DefaultThreshold)
         || !IsVisible(leftAnkle, DefaultThreshold) {
        return None;
      }
      var kneeAngle := Angle(m, leftHip.value, leftKnee.value, leftAnkle.value);
      var currentKneeY := leftKnee.value.y;
      if kneeAngle < BottomAngle {
        if previousPhase != Some(Down) {
          previousPhase := Some(Down);
          return Some(Down);
        }
        return Some(Hold);
      } else if kneeAngle > TopAngle {
        if previousPhase != Some(Up) {
          previousPhase := Some(Up);
          return Some(Up);
        }
        return Some(Hold);
      }
      if previousKneeY.Some? {
        var kneeMovement := currentKneeY - previousKneeY.value;
        if Abs(kneeMovement) > DeadBand {
          if kneeMovement > 0.0 {
            if previousPhase != Some(Down) {
              previousPhase := Some(Down);
              return Some(Down);
            }
          } else {
            if previousPhase != Some(Up) {
              previousPhase := Some(Up);
              return Some(Up);
            }
          }
        }
      }
      previousKneeY := Some(currentKneeY);
      return previousPhase;
    }
  }
}
