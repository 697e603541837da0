/**
 * The server-side helpers behind the two callable functions: per-call
 * workout metrics, the start of a reporting timeframe, and the report built
 * from the stored, processed workouts. Clock readings (milliseconds) and the
 * random draw behind the calorie placeholder are parameters.
 */
module CloudFunctions {
  import opened Numeric

  /** One exercise entry of a processing request; a missing (or zero) form score is `None`. */
  datatype ExerciseEntry = ExerciseEntry(reps: real, duration: real, formScore: Option<real>)

  /** The metrics stored with a processed workout; a form score of `NaN` (no entries) is `None`. */
  datatype Metrics = Metrics(totalReps: real, totalDuration: real, caloriesBurned: int, formScore: Option<int>)

  /** A stored processed workout; missing metrics or a missing processing time are `None`. */
  datatype StoredWorkout = StoredWorkout(metrics: Option<Metrics>, processedAt: Option<int>)

  /** What the analytics report answers. */
  datatype Report = Report(
    totalWorkouts: int,
    totalDuration: real,
    totalCalories: int,
    averageFormScore: int,
    workoutsPerWeek: int)

  const DayMillis: int := 24 * 60 * 60 * 1000
  const WeekMillis: int := 7 * DayMillis

  function Reps(es: seq<ExerciseEntry>): (r: seq<real>)
    ensures |r| == |es| && forall i :: 0 <= i < |es| ==> r[i] == es[i].reps
  {
    seq(|es|, i requires 0 <= i < |es| => es[i].reps)
  }

  function Durations(es: seq<ExerciseEntry>): (r: seq<real>)
    ensures |r| == |es| && forall i :: 0 <= i < |es| ==> r[i] == es[i].duration
  {
    seq(|es|, i requires 0 <= i < |es| => es[i].duration)
  }

  /** Each entry's form score, a missing one counting as 0 (`exercise.formScore || 0`). */
  function EntryScores(es: seq<ExerciseEntry>): (r: seq<real>)
    ensures |r| == |es|
    ensures forall i :: 0 <= i < |es| ==> r[i] == (if es[i].formScore.Some? then es[i].formScore.value else 0.0)
  {
    seq(|es|, i requires 0 <= i < |es| => if es[i].formScore.Some? then es[i].formScore.value else 0.0)
  }

  /** Entries whose present form scores all lie in [0, 100]. */
  predicate EntryScoresInRange(es: seq<ExerciseEntry>)
  {
    forall i :: 0 <= i < |es| && es[i].formScore.Some? ==> 0.0 <= es[i].formScore.value <= 100.0
  }

  /**
   * The request's form score: the mean of the entries' scores rounded to the
   * nearest integer; for no entries the division yields NaN, shown as `None`.
   */
  function CalculateFormScore(es: seq<ExerciseEntry>): (r: Option<int>)
    ensures r.None? <==> es == []
    ensures r.Some? ==>
              r.value as real - 0.5 <= Sum(EntryScores(es)) / |es| as real < r.value as real + 0.5
  {
    if es == [] then None else Some(Round(Sum(EntryScores(es)) / |es| as real))
  }

  /** Scores in [0, 100] give a request score in [0, 100]. */
  lemma CalculateFormScoreInRange(es: seq<ExerciseEntry>)
    requires es != [] && EntryScoresInRange(es)
    ensures 0 <= CalculateFormScore(es).value <= 100
  {
    var n := |es| as real;
    SumBounds(EntryScores(es), 0.0, 100.0);
    MeanBounds(Sum(EntryScores(es)), n, 0.0, 100.0);
    RoundBetween(Sum(EntryScores(es)) / n, 0, 100);
  }

  /** The placeholder calorie figure from a draw `random` in [0, 1): between 200 and 699. */
  function Calories(random: real): (c: int)
    ensures 0.0 <= random < 1.0 ==> 200 <= c < 700
  {
    (random * 500.0).Floor + 200
  }

  /** `calculateWorkoutMetrics`: summed reps and durations, the calorie placeholder and the form score. */
  function CalculateWorkoutMetrics(es: seq<ExerciseEntry>, random: real): (m: Metrics)
    ensures m.totalReps == Sum(Reps(es)) && m.totalDuration == Sum(Durations(es))
    ensures m.formScore == CalculateFormScore(es)
    ensures 0.0 <= random < 1.0 ==> 200 <= m.caloriesBurned < 700
  {
    Metrics(Sum(Reps(es)), Sum(Durations(es)), Calories(random), CalculateFormScore(es))
  }

  /** Splitting a request in two splits its rep and duration totals accordingly. */
  lemma {:induction false} MetricsTotalsAdd(a: seq<ExerciseEntry>, b: seq<ExerciseEntry>, random: real)
    ensures CalculateWorkoutMetrics(a + b, random).totalReps
            == CalculateWorkoutMetrics(a, random).totalReps + CalculateWorkoutMetrics(b, random).totalReps
    ensures CalculateWorkoutMetrics(a + b, random).totalDuration
            == CalculateWorkoutMetrics(a, random).totalDuration + CalculateWorkoutMetrics(b, random).totalDuration
  {
    assert Reps(a + b) == Reps(a) + Reps(b);
    assert Durations(a + b) == Durations(a) + Durations(b);
    SumConcat(Reps(a), Reps(b));
    SumConcat(Durations(a), Durations(b));
  }

  /** The number of days a timeframe reaches back: a week, 30 days, 365 days, and a week for anything else. */
  function TimeframeDays(timeframe: string): (d: int)
    ensures d == 7 || d == 30 || d == 365
    ensures timeframe != "month" && timeframe != "year" ==> d == 7
  {
    if timeframe == "week" then 7
    else if timeframe == "month" then 30
    else if timeframe == "year" then 365
    else 7
  }

  /** `getTimeframeStart`: `now` moved back by the timeframe's days. */
  function GetTimeframeStart(timeframe: string, now: int): (start: int)
    ensures start < now
    ensures now - start == TimeframeDays(timeframe) * DayMillis
  {
    now - TimeframeDays(timeframe) * DayMillis
  }

  /** A longer timeframe starts no later: week after month after year; an unknown name is a week. */
  lemma TimeframesNest(now: int, other: string)
    requires other != "week" && other != "month" && other != "year"
    ensures GetTimeframeStart("year", now) < GetTimeframeStart("month", now) < GetTimeframeStart("week", now)
    ensures GetTimeframeStart(other, now) == GetTimeframeStart("week", now)
  {
  }

  /** A stored workout's duration, calories and score, each 0 when missing (`metrics?.x || 0`). */
  function DurationOf(w: StoredWorkout): (r: real)
    ensures w.metrics.None? ==> r == 0.0
    ensures w.metrics.Some? ==> r == w.metrics.value.totalDuration
  {
    if w.metrics.Some? then w.metrics.value.totalDuration else 0.0
  }

  function CaloriesOf(w: StoredWorkout): (r: int)
    ensures w.metrics.None? ==> r == 0
    ensures w.metrics.Some? ==> r == w.metrics.value.caloriesBurned
  {
    if w.metrics.Some? then w.metrics.value.caloriesBurned else 0
  }

  function ScoreOf(w: StoredWorkout): (r: int)
    ensures w.metrics.None? || w.metrics.value.formScore.None? ==> r == 0
    ensures w.metrics.Some? && w.metrics.value.formScore.Some? ==> r == w.metrics.value.formScore.value
  {
    if w.metrics.Some? && w.metrics.value.formScore.Some? then w.metrics.value.formScore.value else 0
  }

  function StoredDurations(ws: seq<StoredWorkout>): (r: seq<real>)
    ensures |r| == |ws| && forall i :: 0 <= i < |ws| ==> r[i] == DurationOf(ws[i])
  {
    seq(|ws|, i requires 0 <= i < |ws| => DurationOf(ws[i]))
  }

  function StoredScores(ws: seq<StoredWorkout>): (r: seq<real>)
    ensures |r| == |ws| && forall i :: 0 <= i < |ws| ==> r[i] == ScoreOf(ws[i]) as real
  {
    seq(|ws|, i requires 0 <= i < |ws| => ScoreOf(ws[i]) as real)
  }

  /** The integer calorie total, added from the left. */
  function TotalCalories(ws: seq<StoredWorkout>): (r: int)
    ensures ws == [] ==> r == 0
    ensures (forall i :: 0 <= i < |ws| ==> 0 <= CaloriesOf(ws[i])) ==> 0 <= r
    decreases |ws|
  {
    if ws == [] then 0 else TotalCalories(ws[..|ws| - 1]) + CaloriesOf(ws[|ws| - 1])
  }

  /** The processing times that are present, in order (`filter(Boolean)`). */
  function Dates(ws: seq<StoredWorkout>): (ds: seq<int>)
    ensures |ds| <= |ws|
    ensures forall d :: d in ds <==> exists i :: 0 <= i < |ws| && ws[i].processedAt == Some(d)
    decreases |ws|
  {
    if ws == [] then []
    else
      var rest := Dates(ws[1..]);
      assert forall i :: 1 <= i < |ws| ==> ws[i] == ws[1..][i - 1];
      assert forall i :: 0 <= i < |ws| - 1 ==> ws[1..][i] == ws[i + 1];
      if ws[0].processedAt.Some? then [ws[0].processedAt.value] + rest else rest
  }

  /** The earliest of a non-empty list of times (`Math.min(...dates)`). */
  function Earliest(ds: seq<int>): (m: int)
    requires ds != []
    ensures m in ds && forall d :: d in ds ==> m <= d
    decreases |ds|
  {
    if |ds| == 1 then ds[0]
    else
      var rest := Earliest(ds[1..]);
      assert forall d :: d in ds ==> d == ds[0] || d in ds[1..];
      if ds[0] <= rest then ds[0] else rest
  }

  /** `count` workouts over the weeks from `earliest` to `now` (at least one week), rounded. */
  function WeeklyRate(count: nat, earliest: int, now: int): (r: int)
    ensures 0 <= r <= count
  {
    var weeksDiff := (now - earliest) as real / WeekMillis as real;
    var divisor := Max(weeksDiff, 1.0);
    assert count as real / divisor <= count as real by {
      assert count as real <= count as real * divisor;
    }
    RoundBetween(count as real / divisor, 0, count);
    Round(count as real / divisor)
  }

  /** Within a week of the earliest workout the rate is the full count. */
  lemma WeeklyRateWithinAWeek(count: nat, earliest: int, now: int)
    requires now - earliest <= WeekMillis
    ensures WeeklyRate(count, earliest, now) == count
  {
    QuotientAtMostOne((now - earliest) as real, WeekMillis as real);
    RoundWhole(count);
  }

  /**
   * `calculateWorkoutsPerWeek`: the workout count divided by the weeks since
   * the earliest processing time (at least one week), rounded; 0 without
   * workouts or without any processing time.
   */
  function WorkoutsPerWeek(ws: seq<StoredWorkout>, now: int): (r: int)
    ensures ws == [] || Dates(ws) == [] ==> r == 0
    ensures 0 <= r <= |ws|
  {
    if |ws| == 0 then 0
    else
      var dates := Dates(ws);
      if |dates| == 0 then 0 else WeeklyRate(|ws|, Earliest(dates), now)
  }

  /** Workouts all processed within the last week are counted in full. */
  lemma WorkoutsPerWeekRecent(ws: seq<StoredWorkout>, now: int)
    requires Dates(ws) != []
    requires forall i :: 0 <= i < |ws| && ws[i].processedAt.Some? ==> now - WeekMillis <= ws[i].processedAt.value
    ensures WorkoutsPerWeek(ws, now) == |ws|
  {
    var e := Earliest(Dates(ws));
    assert e in Dates(ws);
    var i :| 0 <= i < |ws| && ws[i].processedAt == Some(e);
    WeeklyRateWithinAWeek(|ws|, e, now);
  }

  /**
   * `generateAnalytics`: the number of stored workouts, the duration and
   * calorie totals and the rounded mean score (missing values counting as
   * 0; a mean of 0 for no workouts), and the weekly rate.
   */
  function GenerateAnalytics(ws: seq<StoredWorkout>, now: int): (r: Report)
    ensures r.totalWorkouts == |ws|
    ensures r.totalDuration == Sum(StoredDurations(ws)) && r.totalCalories == TotalCalories(ws)
    ensures ws == [] ==> r.averageFormScore == 0 && r.workoutsPerWeek == 0
    ensures ws != [] ==>
              r.averageFormScore as real - 0.5 <= Sum(StoredScores(ws)) / |ws| as real < r.averageFormScore as real + 0.5
    ensures 0 <= r.workoutsPerWeek <= |ws|
  {
    var average := if |ws| > 0 then Round(Sum(StoredScores(ws)) / |ws| as real) else 0;
    Report(|ws|, Sum(StoredDurations(ws)), TotalCalories(ws), average, WorkoutsPerWeek(ws, now))
  }

  /** Stored scores in [0, 100] give a mean score in [0, 100]. */
  lemma AverageFormScoreInRange(ws: seq<StoredWorkout>, now: int)
    requires forall i :: 0 <= i < |ws| ==> 0 <= ScoreOf(ws[i]) <= 100
    ensures 0 <= GenerateAnalytics(ws, now).averageFormScore <= 100
  {
    if ws != [] {
      var n := |ws| as real;
      SumBounds(StoredScores(ws), 0.0, 100.0);
      MeanBounds(Sum(StoredScores(ws)), n, 0.0, 100.0);
      RoundBetween(Sum(StoredScores(ws)) / n, 0, 100);
    }
  }

  /** A workout processed from an empty request stores a NaN score, which the report counts as 0. */
  lemma EmptyRequestScoresZero(random: real, processedAt: int, now: int)
    ensures var w := StoredWorkout(Some(CalculateWorkoutMetrics([], random)), Some(processedAt));
            ScoreOf(w) == 0 && GenerateAnalytics([w], now).averageFormScore == 0
  {
    var w := StoredWorkout(Some(CalculateWorkoutMetrics([], random)), Some(processedAt));
    assert StoredScores([w]) == [0.0];
    assert Sum([0.0]) == Sum([]) + 0.0;
  }
}
