/**
 * The in-memory record of the workout in progress: its start, the latest
 * rep count, every form score and feedback message collected, and how it is
 * turned into a saved workout when it ends. Clock readings (milliseconds)
 * and the storage call's outcome are parameters.
 */
module WorkoutRecorder {
  import opened Numeric
  import opened FormValidator
  import opened ExerciseConfig
  import opened Firestore

  /** The workout in progress. */
  datatype Session = Session(
    exercise: Exercise,
    startTime: int,
    reps: int,
    formScores: seq<real>,
    feedback: seq<FeedbackEntry>)

  /** What `endSession` answers: `null`, the saved workout's id, or the storage error it rethrows. */
  datatype EndResult = NoSession | Saved(workoutId: string) | Threw(error: string)

  /** The user whose failed saves are forgiven. */
  const DemoUser: string := "demo-user"

  /** The id reported for a forgiven save. */
  const DemoWorkoutId: string := "demo-workout-id"

  /** Scores that lie in [0, 100], as every validator's `calculateFormScore` produces them. */
  predicate ScoresInRange(s: seq<real>)
  {
    forall i :: 0 <= i < |s| ==> 0.0 <= s[i] <= 100.0
  }

  /**
   * The saved form score: 100 when no score was collected, otherwise the
   * mean of the scores rounded to the nearest integer.
   */
  function AverageFormScore(scores: seq<real>): (r: int)
    ensures scores == [] ==> r == 100
    ensures scores != [] ==>
              r as real - 0.5 <= Sum(scores) / |scores| as real < r as real + 0.5
  {
    if |scores| > 0 then Round(Sum(scores) / |scores| as real) else 100
  }

  /** Scores that each lie in [0, 100] average to a saved score in [0, 100]. */
  lemma AverageFormScoreInRange(scores: seq<real>)
    requires ScoresInRange(scores)
    ensures 0 <= AverageFormScore(scores) <= 100
  {
    if |scores| > 0 {
      var n := |scores| as real;
      SumBounds(scores, 0.0, 100.0);
      MeanBounds(Sum(scores), n, 0.0, 100.0);
      RoundBetween(Sum(scores) / n, 0, 100);
    }
  }

  /** The two scores 80 and 90 are saved as 85; 70 and 85 (mean 77.5) as 78. */
  lemma AverageExamples()
    ensures AverageFormScore([80.0, 90.0]) == 85
    ensures AverageFormScore([70.0, 85.0]) == 78
  {
    assert Sum([80.0, 90.0]) == 170.0 by {
      assert [80.0, 90.0][..1] == [80.0];
      assert [80.0] [..0] == [];
    }
    assert Sum([70.0, 85.0]) == 155.0 by {
      assert [70.0, 85.0][..1] == [70.0];
      assert [70.0] [..0] == [];
    }
  }

  /** The duration in whole seconds, `Math.round((end - start) / 1000)`. */
  function DurationSeconds(startTime: int, endTime: int): (d: int)
    ensures startTime <= endTime ==> 0 <= d
    ensures d * 1000 - 500 <= endTime - startTime < d * 1000 + 500
  {
    Round((endTime - startTime) as real / 1000.0)
  }

  /** The workout record an ending session is saved as. */
  function RecordOf(userId: string, s: Session, endTime: int): (w: WorkoutData)
    ensures w.userId == userId && w.exerciseId == s.exercise.id && w.exerciseName == s.exercise.name
    ensures w.startTime == s.startTime && w.endTime == Some(endTime)
    ensures w.reps == s.reps && w.feedback == s.feedback
    ensures w.formScore == AverageFormScore(s.formScores)
    ensures s.startTime <= endTime ==> 0 <= w.duration
  {
    WorkoutData(userId, s.exercise.id, s.exercise.name, s.startTime, Some(endTime),
                DurationSeconds(s.startTime, endTime), s.reps, AverageFormScore(s.formScores), s.feedback)
  }

  class WorkoutRecorder {
    var session: Option<Session>
    const userId: string

    constructor(userId: string)
      ensures this.userId == userId && session == None
    {
      this.userId := userId;
      session := None;
    }

    /** Begins a fresh session at time `now`, discarding any session in progress. */
    method StartSession(exercise: Exercise, now: int)
      modifies this
      ensures session == Some(Session(exercise, now, 0, [], []))
    {
      session := Some(Session(exercise, now, 0, [], []));
    }

    /** Appends a score to the session in progress; without a session nothing happens. */
    method AddFormScore(score: real)
      modifies this
      ensures old(session).None? ==> session == None
      ensures old(session).Some? ==>
                session == Some(old(session).value.(formScores := old(session).value.formScores + [score]))
    {
      if session.Some? {
        session := Some(session.value.(formScores := session.value.formScores + [score]));
      }
    }

    /** Appends a feedback message stamped with `now`; without a session nothing happens. */
    method AddFeedback(message: string, severity: Severity, now: int)
      modifies this
      ensures old(session).None? ==> session == None
      ensures old(session).Some? ==>
                session == Some(old(session).value.(feedback := old(session).value.feedback
                                                                 + [FeedbackEntry(message, severity, now)]))
    {
      if session.Some? {
        session := Some(session.value.(feedback := session.value.feedback + [FeedbackEntry(message, severity, now)]));
      }
    }

    /** Overwrites the session's rep count; without a session nothing happens. */
    method UpdateReps(reps: int)
      modifies this
      ensures old(session).None? ==> session == None
      ensures old(session).Some? ==> session == Some(old(session).value.(reps := reps))
    {
      if session.Some? {
        session := Some(session.value.(reps := reps));
      }
    }

    /**
     * Ends the session at `now` and saves it (`writeError` is the store's
     * refusal, if any; `newId` the id a successful write is given). A saved or
     * forgiven session is cleared; a failed one is kept and the error rethrown.
     */
    method EndSession(db: Option<Store>, writeError: Option<string>, newId: string, now: int, today: int)
      returns (result: EndResult, dbAfter: Option<Store>)
      modifies this
      ensures old(session).None? ==> result == NoSession && session == None && dbAfter == db
      ensures old(session).Some? ==>
                var saved := SaveWorkout(db, writeError, RecordOf(userId, old(session).value, now), today, newId);
                && (saved.Success? ==> result == Saved(newId) && session == None && dbAfter == Some(saved.value.1))
                && (saved.Failure? && userId == DemoUser ==>
                      result == Saved(DemoWorkoutId) && session == None && dbAfter == db)
                && (saved.Failure? && userId != DemoUser ==>
                      result == Threw(saved.error) && session == old(session) && dbAfter == db)
    {
      if session.None? {
        return NoSession, db;
      }
      var workoutData := RecordOf(userId, session.value, now);
      var saved := SaveWorkout(db, writeError, workoutData, today, newId);
      if saved.Success? {
        session := None;
        return Saved(saved.value.0), Some(saved.value.1);
      }
      if userId == DemoUser {
        session := None;
        return Saved(DemoWorkoutId), db;
      }
      return Threw(saved.error), db;
    }

    /** The session in progress, if any. */
    function GetSession(): (s: Option<Session>)
      reads this
      ensures s == session
    {
      session
    }
  }

  /**
   * A whole session: started, two scores and a rep count recorded, then
   * ended with a working store. The saved record carries the rounded mean
   * and the reps, and the recorder is idle again.
   */
  method SessionExample(exercise: Exercise, db: Store) returns (result: EndResult, dbAfter: Option<Store>)
    ensures result == Saved("w1")
    ensures dbAfter.Some? && |dbAfter.value.workouts| == |db.workouts| + 1
    ensures dbAfter.Some? ==> dbAfter.value.workouts[|db.workouts|].formScore == 85
    ensures dbAfter.Some? ==> dbAfter.value.workouts[|db.workouts|].reps == 12
  {
    var recorder := new WorkoutRecorder("u1");
    recorder.StartSession(exercise, 1000);
    recorder.AddFormScore(80.0);
    recorder.AddFormScore(90.0);
    recorder.UpdateReps(12);
    AverageExamples();
    assert recorder.session.value.formScores == [80.0, 90.0];
    result, dbAfter := recorder.EndSession(Some(db), None, "w1", 31000, 0);
  }
}
