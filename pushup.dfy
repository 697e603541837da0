/**
 * The push-up validator: form feedback from the arms, shoulders and hips, the
 * rep-phase machine driven by the left elbow angle and the left shoulder's
 * height, and the 0-100 form score.
 */
module Pushup {
  import opened Numeric
  import opened PoseDetector
  import opened FormValidator
  import opened PhaseMachine

  /** Above this elbow angle the arms count as extended (top of the push-up). */
  const TopAngle: real := 160.0

  /** Below this elbow angle the push-up is too deep. */
  const MinElbowAngle: real := 70.0

  const UpperBodyHidden := FormFeedback(false, "Please ensure your upper body is visible", Warning)
  const BodyNotStraight := FormFeedback(false, "Keep your body straight - align shoulders with hips", Error)
  const GoDeeper := FormFeedback(false, "Lower your body more - aim for 90 degrees at the bottom", Warning)
  const ArmsExtended := FormFeedback(true, "Good form! Keep your core engaged", Good)
  const HandsTooLow := FormFeedback(false, "Keep your hands below your shoulders", Warning)
  const GoodForm := FormFeedback(true, "Good form!", Good)

  /** Both shoulders, elbows and wrists pass the visibility gate. */
  predicate UpperBodyVisible(f: Frame)
  {
    && Visible(f, LeftShoulder) && Visible(f, RightShoulder)
    && Visible(f, LeftElbow) && Visible(f, RightElbow)
    && Visible(f, LeftWrist) && Visible(f, RightWrist)
  }

  /** Both hips are in the frame and the mean shoulder height is more than 0.15 from the mean hip height. */
  predicate BodyMisaligned(f: Frame)
    requires Present(f, LeftShoulder) && Present(f, RightShoulder)
  {
    && Present(f, LeftHip) && Present(f, RightHip)
    && Abs(Mean(At(f, LeftShoulder).value.y, At(f, RightShoulder).value.y)
           - Mean(At(f, LeftHip).value.y, At(f, RightHip).value.y)) > 0.15
  }

  /** The left elbow angle, shoulder-elbow-wrist. */
  function ElbowAngle(m: MathLib, f: Frame): real
    requires Present(f, LeftShoulder) && Present(f, LeftElbow) && Present(f, LeftWrist)
  {
    Angle(m, At(f, LeftShoulder).value, At(f, LeftElbow).value, At(f, LeftWrist).value)
  }

  /** The mean wrist height is more than 0.1 below the mean shoulder height (y grows downwards). */
  predicate WristsLow(f: Frame)
    requires Present(f, LeftShoulder) && Present(f, RightShoulder)
    requires Present(f, LeftWrist) && Present(f, RightWrist)
  {
    Mean(At(f, LeftWrist).value.y, At(f, RightWrist).value.y)
      > Mean(At(f, LeftShoulder).value.y, At(f, RightShoulder).value.y) + 0.1
  }

  /**
   * `validateForm`: the first failing check, in order visibility, alignment,
   * depth, extension (which answers good at once), wrist placement.
   */
  function ValidateForm(m: MathLib, f: Frame): (r: FormFeedback)
    ensures r.isValid <==> r.severity == Good
    ensures !UpperBodyVisible(f) <==> r == UpperBodyHidden
    ensures r.severity == Error <==> UpperBodyVisible(f) && BodyMisaligned(f)
    ensures r.severity == Good <==>
              && UpperBodyVisible(f) && !BodyMisaligned(f)
              && MinElbowAngle <= ElbowAngle(m, f)
              && (TopAngle < ElbowAngle(m, f) || !WristsLow(f))
    // with the arms extended the wrist check is never reached
    ensures UpperBodyVisible(f) && !BodyMisaligned(f) && TopAngle < ElbowAngle(m, f) ==> r == ArmsExtended
    ensures r == HandsTooLow ==> MinElbowAngle <= ElbowAngle(m, f) <= TopAngle && WristsLow(f)
    // which message the chain reports: the first failing check wins
    ensures r == BodyNotStraight <==> UpperBodyVisible(f) && BodyMisaligned(f)
    ensures r == GoDeeper <==>
              UpperBodyVisible(f) && !BodyMisaligned(f) && ElbowAngle(m, f) < MinElbowAngle
    ensures r == ArmsExtended <==>
              UpperBodyVisible(f) && !BodyMisaligned(f) && TopAngle < ElbowAngle(m, f)
    ensures r == HandsTooLow <==>
              && UpperBodyVisible(f) && !BodyMisaligned(f)
              && MinElbowAngle <= ElbowAngle(m, f) <= TopAngle && WristsLow(f)
    ensures r == GoodForm <==>
              && UpperBodyVisible(f) && !BodyMisaligned(f)
              && MinElbowAngle <= ElbowAngle(m, f) <= TopAngle && !WristsLow(f)
  {
    if !UpperBodyVisible(f) then UpperBodyHidden
    else if BodyMisaligned(f) then BodyNotStraight
    else
      var elbowAngle := ElbowAngle(m, f);
      if elbowAngle < MinElbowAngle then GoDeeper
      else if elbowAngle > TopAngle then ArmsExtended
      else if WristsLow(f) then HandsTooLow
      else GoodForm
  }

  /** The joints `calculateFormScore` needs in the frame (visibility is not consulted). */
  predicate ScoredJointsPresent(f: Frame)
  {
    && Present(f, LeftShoulder) && Present(f, RightShoulder)
    && Present(f, LeftElbow) && Present(f, LeftWrist)
    && Present(f, LeftHip) && Present(f, RightHip)
  }

  /** Shoulder-hip misalignment: 200 per unit of height difference, capped at 30. */
  function AlignmentPenalty(f: Frame): (p: real)
    requires ScoredJointsPresent(f)
    ensures 0.0 <= p <= 30.0
  {
    var alignmentDiff := Abs(Mean(At(f, LeftShoulder).value.y, At(f, RightShoulder).value.y)
                             - Mean(At(f, LeftHip).value.y, At(f, RightHip).value.y));
    Min(30.0, alignmentDiff * 200.0)
  }

  /**
   * Poor range of motion: a flat 20 below 70 degrees. The source also
   * charges above 180, which an angle never reaches.
   */
  function RangePenalty(m: MathLib, f: Frame): (p: real)
    requires ScoredJointsPresent(f)
    ensures p == 0.0 || p == 20.0
    ensures p == 20.0 <==> ElbowAngle(m, f) < MinElbowAngle
  {
    var elbowAngle := ElbowAngle(m, f);
    if elbowAngle < MinElbowAngle || elbowAngle > 180.0 then 20.0 else 0.0
  }

  /** Left-right elbow angle difference: 2 per degree, capped at 20; nothing when the right arm is missing. */
  function SymmetryPenalty(m: MathLib, f: Frame): (p: real)
    requires ScoredJointsPresent(f)
    ensures 0.0 <= p <= 20.0
    ensures !(Present(f, RightElbow) && Present(f, RightWrist)) ==> p == 0.0
  {
    if Present(f, RightElbow) && Present(f, RightWrist) then
      var rightElbowAngle := Angle(m, At(f, RightShoulder).value, At(f, RightElbow).value, At(f, RightWrist).value);
      Min(20.0, Abs(ElbowAngle(m, f) - rightElbowAngle) * 2.0)
    else 0.0
  }

  /**
   * `calculateFormScore`: 100 less the three capped penalties, clamped to
   * [0, 100]; 0 when a shoulder, the left elbow or wrist, or a hip is
   * missing from the frame.
   */
  function FormScore(m: MathLib, f: Frame): (r: real)
    ensures 0.0 <= r <= 100.0
    ensures !ScoredJointsPresent(f) ==> r == 0.0
    // the penalties total at most 30 + 20 + 20 = 70
    ensures ScoredJointsPresent(f) ==> 30.0 <= r
    ensures ScoredJointsPresent(f) && ElbowAngle(m, f) < MinElbowAngle ==> r <= 80.0
  {
    if !ScoredJointsPresent(f) then 0.0
    else ClampScore(100.0 - AlignmentPenalty(f) - RangePenalty(m, f) - SymmetryPenalty(m, f))
  }

  /** A perfectly aligned, symmetric frame in range scores the full 100. */
  lemma {:induction false} FormScorePerfect(m: MathLib, f: Frame)
    requires ScoredJointsPresent(f)
    requires At(f, LeftShoulder).value.y + At(f, RightShoulder).value.y
             == At(f, LeftHip).value.y + At(f, RightHip).value.y
    requires MinElbowAngle <= ElbowAngle(m, f)
    requires Present(f, RightElbow) && Present(f, RightWrist)
    requires ElbowAngle(m, f)
             == Angle(m, At(f, RightShoulder).value, At(f, RightElbow).value, At(f, RightWrist).value)
    ensures FormScore(m, f) == 100.0
  {
    assert AlignmentPenalty(f) == 0.0;
    assert SymmetryPenalty(m, f) == 0.0;
  }

  /** The score reads positions only: changing visibilities never changes it. */
  lemma {:induction false} FormScoreIgnoresVisibility(m: MathLib, f: Frame, g: Frame)
    requires SamePositions(f, g)
    ensures FormScore(m, f) == FormScore(m, g)
  {
    PenaltiesIgnoreVisibility(m, f, g);
  }

  /** Each penalty, and whether the score is computed at all, reads positions only. */
  lemma {:induction false} PenaltiesIgnoreVisibility(m: MathLib, f: Frame, g: Frame)
    requires SamePositions(f, g)
    ensures ScoredJointsPresent(f) <==> ScoredJointsPresent(g)
    ensures ScoredJointsPresent(f) ==>
              && AlignmentPenalty(f) == AlignmentPenalty(g)
              && RangePenalty(m, f) == RangePenalty(m, g)
              && SymmetryPenalty(m, f) == SymmetryPenalty(m, g)
  {
    AtSamePositions(f, g, LeftShoulder);
    AtSamePositions(f, g, RightShoulder);
    AtSamePositions(f, g, LeftElbow);
    AtSamePositions(f, g, RightElbow);
    AtSamePositions(f, g, LeftWrist);
    AtSamePositions(f, g, RightWrist);
    AtSamePositions(f, g, LeftHip);
    AtSamePositions(f, g, RightHip);
    if ScoredJointsPresent(f) {
      AngleSamePositions(m, At(f, LeftShoulder).value, At(f, LeftElbow).value, At(f, LeftWrist).value,
                         At(g, LeftShoulder).value, At(g, LeftElbow).value, At(g, LeftWrist).value);
      if Present(f, RightElbow) && Present(f, RightWrist) {
        AngleSamePositions(m, At(f, RightShoulder).value, At(f, RightElbow).value, At(f, RightWrist).value,
                           At(g, RightShoulder).value, At(g, RightElbow).value, At(g, RightWrist).value);
      }
    }
  }

  /** The left shoulder, elbow and wrist that drive the phase machine all pass the gate. */
  predicate TrackedArmVisible(f: Frame)
  {
    Visible(f, LeftShoulder) && Visible(f, LeftElbow) && Visible(f, LeftWrist)
  }

  /**
   * What `detectRepPhase` answers and remembers: nothing, with the memory
   * untouched, unless the tracked arm is visible; otherwise one step of the
   * machine on the elbow angle and the left shoulder's height.
   */
  function DetectSpec(m: MathLib, f: Frame, mem: PhaseMemory): (r: StepResult)
    requires mem.Valid()
    ensures r.memory.Valid()
    ensures r.phase == None <==> !TrackedArmVisible(f) || (r.memory.previousPhase == None && r.phase == mem.previousPhase)
    ensures !TrackedArmVisible(f) ==> r == StepResult(None, mem)
    // between the thresholds, the shoulder moving more than the dead band signals its direction, once;
    // no other new phase is signalled there
    ensures TrackedArmVisible(f) && BottomAngle <= ElbowAngle(m, f) <= TopAngle ==>
              var y := At(f, LeftShoulder).value.y;
              && (mem.previousY.Some? && Abs(y - mem.previousY.value) > DeadBand
                  && mem.previousPhase != Some(if y < mem.previousY.value then Up else Down) ==>
                    r.phase == Some(if y < mem.previousY.value then Up else Down))
              && (r.phase != mem.previousPhase ==>
                    mem.previousY.Some? && Abs(y - mem.previousY.value) > DeadBand)
  {
    if !TrackedArmVisible(f) then StepResult(None, mem)
    else Step(mem, ElbowAngle(m, f), At(f, LeftShoulder).value.y, TopAngle)
  }

  /** The validator's private state, kept between frames. */
  class PushupValidator {
    var previousPhase: Option<Phase>
    var previousShoulderY: Option<real>

    /** The fields as the phase machine's memory. */
    function Memory(): PhaseMemory
      reads this
    {
      PhaseMemory(previousPhase, previousShoulderY)
    }

    ghost predicate Valid()
      reads this
    {
      Memory().Valid()
    }

    constructor()
      ensures Valid() && Memory() == Initial
    {
      previousPhase := None;
      previousShoulderY := None;
    }

    /** `detectRepPhase`: one step of the machine on this validator's fields. */
    method DetectRepPhase(m: MathLib, f: Frame) returns (phase: Option<Phase>)
      requires Valid()
      modifies this
      ensures Valid()
      ensures StepResult(phase, Memory()) == DetectSpec(m, f, old(Memory()))
    {
      var leftShoulder := GetLandmark(f, LeftShoulder);
      var leftElbow := GetLandmark(f, LeftElbow);
      var leftWrist := GetLandmark(f, LeftWrist);
      if leftShoulder.None? || leftElbow.None? || leftWrist.None? {
        return None;
      }
      if !IsVisible(leftShoulder, DefaultThreshold) || !IsVisible(leftElbow, DefaultThreshold)
         || !IsVisible(leftWrist, DefaultThreshold) {
        return None;
      }
      var elbowAngle := Angle(m, leftShoulder.value, leftElbow.value, leftWrist.value);
      var currentShoulderY := leftShoulder.value.y;
      if elbowAngle < BottomAngle {
        if previousPhase != Some(Down) {
          previousPhase := Some(Down);
          return Some(Down);
        }
        return Some(Hold);
      } else if elbowAngle > TopAngle {
        if previousPhase != Some(Up) {
          previousPhase := Some(Up);
          return Some(Up);
        }
        return Some(Hold);
      }
      if previousShoulderY.Some? {
        var shoulderMovement := currentShoulderY - previousShoulderY.value;
        if Abs(shoulderMovement) > DeadBand {
          if shoulderMovement < 0.0 {
            if previousPhase != Some(Up) {
              previousPhase := Some(Up);
              return Some(Up);
            }
          } else {
            if previousPhase != Some(Down) {
              previousPhase := Some(Down);
              return Some(Down);
            }
          }
        }
      }
      previousShoulderY := Some(currentShoulderY);
      return previousPhase;
    }
  }
}
