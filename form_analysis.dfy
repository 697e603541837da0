/**
 * The form-analysis gate of the workout screen: while a workout is active and
 * a non-empty frame is at hand, the exercise's validator judges the frame and
 * scores it; otherwise a fixed neutral verdict is shown. The output is a
 * function of the current exercise, frame and activity alone.
 */
module FormAnalysis {
  import opened Numeric
  import opened PoseDetector
  import opened FormValidator
  import opened ExerciseConfig

  /** What the screen shows: the feedback and the form score. */
  datatype Analysis = Analysis(feedback: FormFeedback, formScore: real)

  /** The neutral verdict, which is also what the screen starts with. */
  const Ready: Analysis := Analysis(FormFeedback(true, "Ready to start", Good), 100.0)

  /** The gate passes only an active workout with a non-empty frame. */
  predicate Analysing(landmarks: Option<Frame>, isActive: bool)
  {
    isActive && landmarks.Some? && |landmarks.value| > 0
  }

  /** The analysis for the current exercise, frame (`None` when there is none) and activity. */
  function AnalyzeForm(m: MathLib, exercise: Exercise, landmarks: Option<Frame>, isActive: bool): (r: Analysis)
    ensures !Analysing(landmarks, isActive) ==> r == Ready
    ensures Analysing(landmarks, isActive) ==>
              && r.feedback == ValidateFormFor(m, exercise.kind, landmarks.value)
              && r.formScore == FormScoreFor(m, exercise.kind, landmarks.value)
    ensures 0.0 <= r.formScore <= 100.0
    ensures r.feedback.isValid <==> r.feedback.severity == Good
  {
    if !isActive || landmarks.None? || |landmarks.value| == 0 then Ready
    else Analysis(ValidateFormFor(m, exercise.kind, landmarks.value), FormScoreFor(m, exercise.kind, landmarks.value))
  }

  /** A frame with no landmark at all. */
  function Blank(n: nat): (f: Frame)
    ensures |f| == n && forall i :: 0 <= i < n ==> f[i] == None
  {
    seq(n, _ => None)
  }

  /**
   * No frame and a frame of empty slots are told apart: the first shows the
   * neutral 100, the second a visibility warning and a score of 0.
   */
  lemma {:induction false} BlankFrameIsNotNeutral(m: MathLib, exercise: Exercise, n: nat)
    requires n > 0
    ensures AnalyzeForm(m, exercise, None, true) == Ready
    ensures AnalyzeForm(m, exercise, Some(Blank(n)), true).formScore == 0.0
    ensures !AnalyzeForm(m, exercise, Some(Blank(n)), true).feedback.isValid
  {
    var f := Blank(n);
    assert !Present(f, LeftShoulder) && !Present(f, LeftHip);
    assert At(f, LeftShoulder) == None && At(f, LeftHip) == None;
  }
}
