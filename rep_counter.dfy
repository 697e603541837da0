/**
 * The rep counter of the workout screen. For rep exercises it feeds each
 * processed frame to the exercise's validator and counts a rep whenever an
 * `Up` answer follows a `Down` answer of the previous processed frame; the
 * plank is counted in whole seconds since the timer started instead.
 */
module RepCounter {
  import opened Numeric
  import opened PoseDetector
  import opened FormValidator
  import opened ExerciseConfig

  /** The timer's period and the unit of the timed count, in milliseconds. */
  const TickMillis: int := 1000

  /** The rep effect skips the plank, an inactive workout, and a missing or empty frame. */
  predicate Skipped(exercise: Exercise, landmarks: Option<Frame>, isActive: bool)
  {
    exercise.id == "plank" || !isActive || landmarks.None? || |landmarks.value| == 0
  }

  /** A rep completes when an `Up` answer follows a `Down` answer. */
  predicate CompletesRep(previous: Option<Phase>, phase: Option<Phase>)
  {
    phase == Some(Up) && previous == Some(Down)
  }

  /**
   * The count after a run of processed frames whose validator answers are
   * `phases`, starting from `count` with `previous` as the last recorded answer.
   * Every answer, `Hold` and `None` included, becomes the recorded one.
   */
  function Replay(count: int, previous: Option<Phase>, phases: seq<Option<Phase>>): (r: int)
    ensures count <= r <= count + |phases|
    decreases |phases|
  {
    if phases == [] then count
    else Replay(count + (if CompletesRep(previous, phases[0]) then 1 else 0), phases[0], phases[1..])
  }

  /** The number of adjacent (`Down`, `Up`) pairs in a history of answers, counted from its end. */
  function DownUpPairs(s: seq<Option<Phase>>): nat
    decreases |s|
  {
    if |s| < 2 then 0
    else DownUpPairs(s[..|s| - 1]) + (if CompletesRep(s[|s| - 2], s[|s| - 1]) then 1 else 0)
  }

  /** Counting pairs from the front gives the same number. */
  lemma {:induction false} DownUpPairsFront(a: Option<Phase>, t: seq<Option<Phase>>)
    ensures DownUpPairs([a] + t) == (if |t| > 0 && CompletesRep(a, t[0]) then 1 else 0) + DownUpPairs(t)
    decreases |t|
  {
    if |t| >= 2 {
      var s := [a] + t;
      assert s[..|s| - 1] == [a] + t[..|t| - 1];
      DownUpPairsFront(a, t[..|t| - 1]);
      assert t[..|t| - 1][0] == t[0];
    } else if |t| == 1 {
      var s := [a] + t;
      assert s[..|s| - 1] == [a];
    }
  }

  /** The counter's replayed count is the starting count plus the (`Down`, `Up`) pairs of the history. */
  lemma {:induction false} ReplayCountsPairs(count: int, previous: Option<Phase>, phases: seq<Option<Phase>>)
    ensures Replay(count, previous, phases) == count + DownUpPairs([previous] + phases)
    decreases |phases|
  {
    DownUpPairsFront(previous, phases);
    if phases != [] {
      ReplayCountsPairs(count + (if CompletesRep(previous, phases[0]) then 1 else 0), phases[0], phases[1..]);
      assert [phases[0]] + phases[1..] == phases;
    }
  }

  /** Pairs cannot overlap, so a history of n answers holds at most n / 2 of them. */
  lemma {:induction false} PairsAtMostHalf(s: seq<Option<Phase>>)
    ensures 2 * DownUpPairs(s) <= |s|
    decreases |s|
  {
    if |s| >= 2 {
      var n := |s|;
      PairsAtMostHalf(s[..n - 1]);
      if CompletesRep(s[n - 2], s[n - 1]) {
        var p := s[..n - 1];
        if n - 1 >= 2 {
          assert p[..|p| - 1] == s[..n - 2];
          assert !CompletesRep(p[|p| - 2], p[|p| - 1]);
          PairsAtMostHalf(s[..n - 2]);
        }
      }
    }
  }

  /** An `Up` answer needs a `Down` answer right before it: hold between them loses the rep. */
  lemma ReplayExamples()
    ensures Replay(0, None, [Some(Down), Some(Up)]) == 1
    ensures Replay(0, None, [Some(Down), Some(Hold), Some(Up)]) == 0
    ensures Replay(0, None, [Some(Down), Some(Hold), Some(Up), Some(Hold), Some(Down), Some(Up)]) == 1
  {
  }

  /** Whole seconds elapsed since `start`, as `Math.floor((now - start) / 1000)`. */
  function ElapsedSeconds(start: int, now: int): (s: int)
    ensures s * TickMillis <= now - start < (s + 1) * TickMillis
  {
    FloorDiv(now - start, TickMillis)
  }

  /** The timed count never goes backwards while the clock moves forwards. */
  lemma ElapsedSecondsMonotone(start: int, t1: int, t2: int)
    requires t1 <= t2
    ensures ElapsedSeconds(start, t1) <= ElapsedSeconds(start, t2)
  {
  }

  /** The hook's state: the count, the last recorded answer, the last frame, and the plank timer. */
  class RepCounter {
    var repCount: int
    var previousPhase: Option<Phase>
    var previousLandmarks: Option<Frame>
    var timerRunning: bool
    var startTime: Option<int>

    /** A running timer always has a start time. */
    ghost predicate Valid()
      reads this
    {
      timerRunning ==> startTime.Some?
    }

    constructor()
      ensures Valid()
      ensures repCount == 0 && previousPhase == None && previousLandmarks == None
      ensures !timerRunning && startTime == None
    {
      repCount := 0;
      previousPhase := None;
      previousLandmarks := None;
      timerRunning := false;
      startTime := None;
    }

    /**
     * The rep effect for one frame: unless skipped, ask the exercise's
     * validator for a phase, count a rep on `Down` then `Up`, and record the
     * phase and the frame.
     */
    method ProcessFrame(m: MathLib, validators: Validators, exercise: Exercise, landmarks: Option<Frame>,
                        isActive: bool)
      requires Valid() && validators.Valid()
      modifies this, validators.pushup, validators.squat, validators.lunge
      ensures Valid() && validators.Valid()
      ensures Skipped(exercise, landmarks, isActive) ==>
                && repCount == old(repCount) && previousPhase == old(previousPhase)
                && previousLandmarks == old(previousLandmarks)
                && validators.Memories() == old(validators.Memories())
      ensures !Skipped(exercise, landmarks, isActive) ==>
                && (previousPhase, validators.Memories())
                   == DetectFor(m, exercise.kind, landmarks.value, old(validators.Memories()))
                && repCount == Replay(old(repCount), old(previousPhase), [previousPhase])
                && previousLandmarks == landmarks
      ensures repCount >= old(repCount)
      ensures timerRunning == old(timerRunning) && startTime == old(startTime)
    {
      if exercise.id == "plank" || !isActive || landmarks.None? || |landmarks.value| == 0 {
        return;
      }
      var phase := validators.DetectRepPhase(m, exercise.kind, landmarks.value);
      if phase == Some(Up) && previousPhase == Some(Down) {
        repCount := repCount + 1;
      }
      previousPhase := phase;
      previousLandmarks := landmarks;
    }

    /**
     * The timed effect, re-run whenever the activity or the exercise id
     * changes: the previous run's cleanup stops the timer first, then an
     * active plank starts it afresh from `now`. The count is left as it is.
     */
    method OnActivityChange(exerciseId: string, isActive: bool, now: int)
      requires Valid()
      modifies this
      ensures Valid()
      ensures exerciseId == "plank" && isActive ==> timerRunning && startTime == Some(now)
      ensures !(exerciseId == "plank" && isActive) ==> !timerRunning && startTime == old(startTime)
      ensures repCount == old(repCount) && previousPhase == old(previousPhase)
      ensures previousLandmarks == old(previousLandmarks)
    {
      // cleanup of the previous run
      if timerRunning {
        timerRunning := false;
      }
      if exerciseId == "plank" {
        if isActive && !timerRunning {
          startTime := Some(now);
          timerRunning := true;
        } else if !isActive && timerRunning {
          // the source's deactivation branch: the cleanup above has already stopped the timer
          assert false;
        }
      }
    }

    /** One timer tick at `now`: the count becomes the whole seconds since the start. */
    method Tick(now: int)
      requires Valid()
      modifies this
      ensures Valid()
      ensures timerRunning == old(timerRunning) && startTime == old(startTime)
      ensures timerRunning ==> repCount == ElapsedSeconds(startTime.value, now)
      ensures !timerRunning ==> repCount == old(repCount)
      ensures previousPhase == old(previousPhase) && previousLandmarks == old(previousLandmarks)
    {
      if timerRunning && startTime.Some? {
        repCount := FloorDiv(now - startTime.value, TickMillis);
      }
    }

    /** `reset`: everything back to the start; the validators' own memories are not touched. */
    method Reset()
      modifies this
      ensures Valid()
      ensures repCount == 0 && previousPhase == None && previousLandmarks == None
      ensures !timerRunning && startTime == None
    {
      repCount := 0;
      previousPhase := None;
      previousLandmarks := None;
      if timerRunning {
        timerRunning := false;
      }
      startTime := None;
    }
  }
}
