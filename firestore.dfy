/**
 * The storage layer's record logic: the saved workout record, the per-user
 * analytics record with its default, and how saving a workout updates the
 * analytics (streak, running totals, the last seven days, per-exercise
 * totals). The database is a value passed in and returned; `None` stands for
 * a database that was never configured. Calendar days are day numbers.
 */
module Firestore {
  import opened Numeric
  import opened FormValidator

  /** One spoken/shown feedback message with the time (ms) it was recorded. */
  datatype FeedbackEntry = FeedbackEntry(message: string, severity: Severity, timestamp: int)

  /** A finished workout as it is saved. Times are in milliseconds, `duration` in seconds. */
  datatype WorkoutData = WorkoutData(
    userId: string,
    exerciseId: string,
    exerciseName: string,
    startTime: int,
    endTime: Option<int>,
    duration: int,
    reps: int,
    formScore: int,
    feedback: seq<FeedbackEntry>)

  /** Reps and minutes of one day, keyed by the day. */
  datatype DayStat = DayStat(date: int, reps: int, duration: int)

  datatype ExerciseStat = ExerciseStat(completed: int, target: int)

  datatype AnalyticsData = AnalyticsData(
    totalWorkouts: int,
    totalReps: int,
    totalMinutes: int,
    currentStreak: int,
    lastWorkoutDate: Option<int>,
    weeklyStats: seq<DayStat>,
    exerciseStats: map<string, ExerciseStat>)
  {
    /** What every update keeps true of a user's record. */
    predicate Valid()
    {
      && 0 <= totalWorkouts && 0 <= totalReps && 0 <= totalMinutes && 0 <= currentStreak
      && (lastWorkoutDate.Some? ==> 1 <= currentStreak)
      && |weeklyStats| <= MaxWeeklyStats
      && Chronological(weeklyStats)
    }
  }

  /** The number of days the weekly list keeps. */
  const MaxWeeklyStats: nat := 7

  /** The all-zero record shown to a user with no analytics. */
  const DefaultAnalytics: AnalyticsData := AnalyticsData(0, 0, 0, 0, None, [], map[])

  /** The stored collections: saved workouts and one analytics record per user. */
  datatype Store = Store(workouts: seq<WorkoutData>, analytics: map<string, AnalyticsData>)

  datatype Result<T> = Success(value: T) | Failure(error: string)

  const NotInitialized: string := "Firestore is not initialized. Please configure Firebase."

  /** Days in strictly increasing order (so no day twice). */
  predicate Chronological(s: seq<DayStat>)
  {
    forall i, j :: 0 <= i < j < |s| ==> s[i].date < s[j].date
  }

  /** Days in non-decreasing order. */
  predicate SortedByDate(s: seq<DayStat>)
  {
    forall i, j :: 0 <= i < j < |s| ==> s[i].date <= s[j].date
  }

  /** `getAnalytics`: the stored record, or the default when there is no database or no record. */
  function GetAnalytics(db: Option<Store>, userId: string): (r: AnalyticsData)
    ensures db.None? ==> r == DefaultAnalytics
    ensures db.Some? && userId !in db.value.analytics ==> r == DefaultAnalytics
    ensures db.Some? && userId in db.value.analytics ==> r == db.value.analytics[userId]
  {
    if db.None? then DefaultAnalytics
    else if userId in db.value.analytics then db.value.analytics[userId]
    else DefaultAnalytics
  }

  /** The default record satisfies the record invariant. */
  lemma DefaultAnalyticsValid()
    ensures DefaultAnalytics.Valid()
  {
  }

  /** Whole minutes of a duration in seconds, `Math.round(duration / 60)`. */
  function MinutesOf(duration: int): (r: int)
    ensures 0 <= duration ==> 0 <= r
    ensures r * 60 - 30 <= duration < r * 60 + 30
  {
    Round(duration as real / 60.0)
  }

  /**
   * The streak after a workout on day `today`: 1 for a first workout or
   * after a gap; the stored streak on the same day; one more on the next day.
   */
  function NextStreak(existing: Option<AnalyticsData>, today: int): (s: int)
    ensures existing.None? || existing.value.lastWorkoutDate.None? ==> s == 1
    ensures existing.Some? && existing.value.lastWorkoutDate.Some? ==>
              var daysDiff := today - existing.value.lastWorkoutDate.value;
              && (daysDiff == 0 ==> s == existing.value.currentStreak)
              && (daysDiff == 1 ==> s == existing.value.currentStreak + 1)
              && (daysDiff != 0 && daysDiff != 1 ==> s == 1)
  {
    if existing.None? || existing.value.lastWorkoutDate.None? then 1
    else
      var daysDiff := today - existing.value.lastWorkoutDate.value;
      if daysDiff == 0 then existing.value.currentStreak
      else if daysDiff == 1 then existing.value.currentStreak + 1
      else 1
  }

  /** `findIndex` on the day key: the first position holding `date`, or -1. */
  function FindDateIndex(s: seq<DayStat>, date: int): (r: int)
    ensures -1 <= r < |s|
    ensures r == -1 <==> forall i :: 0 <= i < |s| ==> s[i].date != date
    ensures 0 <= r ==> s[r].date == date && forall i :: 0 <= i < r ==> s[i].date != date
    decreases |s|
  {
    if s == [] then -1
    else if s[0].date == date then 0
    else
      var r := FindDateIndex(s[1..], date);
      if r == -1 then -1 else r + 1
  }

  /** Inserts `x` after every day not later than it: one step of a stable insertion sort. */
  function InsertByDate(s: seq<DayStat>, x: DayStat): (r: seq<DayStat>)
    ensures |r| == |s| + 1
    ensures multiset(r) == multiset(s) + multiset{x}
    decreases |s|
  {
    if s == [] then [x]
    else if x.date < s[0].date then [x] + s
    else
      assert s == [s[0]] + s[1..];
      [s[0]] + InsertByDate(s[1..], x)
  }

  /** Every day of the insertion is `x` or a day of `s`. */
  lemma InsertedFrom(s: seq<DayStat>, x: DayStat, k: int)
    requires 0 <= k < |InsertByDate(s, x)|
    ensures InsertByDate(s, x)[k] == x || InsertByDate(s, x)[k] in s
  {
    var r := InsertByDate(s, x);
    assert r[k] in multiset(s) + multiset{x};
  }

  /** Where the insertion puts `x`: after the first day when that day is not later than `x`. */
  lemma {:induction false} InsertPosition(s: seq<DayStat>, x: DayStat) returns (p: nat)
    ensures p < |InsertByDate(s, x)| && InsertByDate(s, x)[p] == x
    ensures s != [] && s[0].date <= x.date ==> 0 < p
    decreases |s|
  {
    if s == [] || x.date < s[0].date {
      p := 0;
    } else {
      var q := InsertPosition(s[1..], x);
      p := q + 1;
    }
  }

  /** Insertion keeps a sorted list sorted. */
  lemma {:induction false} InsertKeepsSorted(s: seq<DayStat>, x: DayStat)
    requires SortedByDate(s)
    ensures SortedByDate(InsertByDate(s, x))
    decreases |s|
  {
    if s != [] && s[0].date <= x.date {
      InsertKeepsSorted(s[1..], x);
      var t := InsertByDate(s[1..], x);
      forall k | 0 <= k < |t|
        ensures s[0].date <= t[k].date
      {
        InsertedFrom(s[1..], x, k);
      }
    }
  }

  /** The list sorted by day, as the library's stable sort leaves it. */
  function SortByDate(s: seq<DayStat>): (r: seq<DayStat>)
    ensures |r| == |s|
    ensures multiset(r) == multiset(s)
    ensures SortedByDate(r)
    decreases |s|
  {
    if s == [] then []
    else
      var init := s[..|s| - 1];
      assert s == init + [s[|s| - 1]];
      InsertKeepsSorted(SortByDate(init), s[|s| - 1]);
      InsertByDate(SortByDate(init), s[|s| - 1])
  }

  /** Inserting a day later than every day of a sorted list appends it. */
  lemma {:induction false} InsertLatest(s: seq<DayStat>, x: DayStat)
    requires forall i :: 0 <= i < |s| ==> s[i].date <= x.date
    ensures InsertByDate(s, x) == s + [x]
    decreases |s|
  {
    if s != [] {
      InsertLatest(s[1..], x);
      assert [s[0]] + (s[1..] + [x]) == s + [x];
    }
  }

  /** Sorting a sorted list changes nothing. */
  lemma {:induction false} SortSorted(s: seq<DayStat>)
    requires SortedByDate(s)
    ensures SortByDate(s) == s
    decreases |s|
  {
    if s != [] {
      var init := s[..|s| - 1];
      SortSorted(init);
      InsertLatest(init, s[|s| - 1]);
      assert init + [s[|s| - 1]] == s;
    }
  }

  /** Inserting a day that is not yet listed into a chronological list keeps it chronological. */
  lemma {:induction false} InsertKeepsChronological(s: seq<DayStat>, x: DayStat)
    requires Chronological(s)
    requires forall i :: 0 <= i < |s| ==> s[i].date != x.date
    ensures Chronological(InsertByDate(s, x))
    decreases |s|
  {
    if s != [] && s[0].date <= x.date {
      InsertKeepsChronological(s[1..], x);
      var t := InsertByDate(s[1..], x);
      forall k | 0 <= k < |t|
        ensures s[0].date < t[k].date
      {
        InsertedFrom(s[1..], x, k);
        if t[k] != x {
          var j :| 0 <= j < |s[1..]| && s[1..][j] == t[k];
          assert s[j + 1] == t[k];
        }
      }
    }
  }

  /**
   * The weekly list after a workout of `reps` reps and `minutes` minutes on
   * `today`: an existing entry for today accumulates both; otherwise a new
   * entry is appended, the list sorted by day, and the oldest dropped when
   * more than seven remain.
   */
  function WeeklyAfter(weekly: seq<DayStat>, today: int, reps: int, minutes: int): (r: seq<DayStat>)
    ensures |weekly| <= MaxWeeklyStats ==> |r| <= MaxWeeklyStats
    ensures FindDateIndex(weekly, today) >= 0 ==>
              var k := FindDateIndex(weekly, today);
              r == weekly[k := DayStat(today, weekly[k].reps + reps, weekly[k].duration + minutes)]
  {
    var k := FindDateIndex(weekly, today);
    if k >= 0 then
      weekly[k := DayStat(weekly[k].date, weekly[k].reps + reps, weekly[k].duration + minutes)]
    else
      var sorted := SortByDate(weekly + [DayStat(today, reps, minutes)]);
      if |sorted| > MaxWeeklyStats then sorted[1..] else sorted
  }

  /** On a chronological list a new day is inserted in its place (then the oldest dropped if more than seven remain). */
  lemma {:induction false} WeeklyAfterNewDay(weekly: seq<DayStat>, today: int, reps: int, minutes: int)
    requires Chronological(weekly) && FindDateIndex(weekly, today) == -1
    ensures var sorted := InsertByDate(weekly, DayStat(today, reps, minutes));
            WeeklyAfter(weekly, today, reps, minutes)
            == if |sorted| > MaxWeeklyStats then sorted[1..] else sorted
  {
    var x := DayStat(today, reps, minutes);
    var w := weekly + [x];
    assert w[..|w| - 1] == weekly;
    SortSorted(weekly);
    assert SortByDate(w) == InsertByDate(weekly, x);
  }

  /** The weekly list stays chronological. */
  lemma {:induction false} WeeklyAfterChronological(weekly: seq<DayStat>, today: int, reps: int, minutes: int)
    requires Chronological(weekly)
    ensures Chronological(WeeklyAfter(weekly, today, reps, minutes))
  {
    var k := FindDateIndex(weekly, today);
    if k >= 0 {
      var r := weekly[k := DayStat(today, weekly[k].reps + reps, weekly[k].duration + minutes)];
      ChronologicalSameDates(weekly, r);
    } else {
      NewDayChronological(weekly, today, reps, minutes);
    }
  }

  /** A new day keeps the weekly list chronological. */
  lemma {:induction false} NewDayChronological(weekly: seq<DayStat>, today: int, reps: int, minutes: int)
    requires Chronological(weekly) && FindDateIndex(weekly, today) == -1
    ensures Chronological(WeeklyAfter(weekly, today, reps, minutes))
  {
    var sorted := InsertByDate(weekly, DayStat(today, reps, minutes));
    WeeklyAfterNewDay(weekly, today, reps, minutes);
    InsertKeepsChronological(weekly, DayStat(today, reps, minutes));
    if |sorted| > MaxWeeklyStats {
      ChronologicalTail(sorted);
    }
  }

  /** Only the dates decide whether a list is chronological. */
  lemma ChronologicalSameDates(s: seq<DayStat>, t: seq<DayStat>)
    requires Chronological(s) && |s| == |t|
    requires forall i :: 0 <= i < |s| ==> s[i].date == t[i].date
    ensures Chronological(t)
  {
  }

  /** Dropping the oldest day keeps a list chronological. */
  lemma ChronologicalTail(s: seq<DayStat>)
    requires Chronological(s) && s != []
    ensures Chronological(s[1..])
  {
    assert forall i :: 0 <= i < |s| - 1 ==> s[1..][i] == s[i + 1];
  }

  /** Today's workout is always listed afterwards, unless it is older than a full list of seven later days. */
  lemma {:induction false} WeeklyAfterRecordsToday(weekly: seq<DayStat>, today: int, reps: int, minutes: int)
    requires Chronological(weekly)
    requires |weekly| < MaxWeeklyStats || exists i :: 0 <= i < |weekly| && weekly[i].date <= today
    ensures FindDateIndex(WeeklyAfter(weekly, today, reps, minutes), today) >= 0
  {
    var k := FindDateIndex(weekly, today);
    var r := WeeklyAfter(weekly, today, reps, minutes);
    if k >= 0 {
      assert r[k].date == today;
    } else {
      var x := DayStat(today, reps, minutes);
      var sorted := InsertByDate(weekly, x);
      WeeklyAfterNewDay(weekly, today, reps, minutes);
      var p := InsertPosition(weekly, x);
      if |sorted| > MaxWeeklyStats {
        var i :| 0 <= i < |weekly| && weekly[i].date <= today;
        assert 0 < p by { assert weekly[0].date <= weekly[i].date; }
        assert r[p - 1] == x;
      } else {
        assert r[p] == x;
      }
    }
  }

  /** Today's reps are added to the exercise's total; a missing exercise starts at {0, 0}. */
  function ExerciseStatsAfter(stats: map<string, ExerciseStat>, exerciseId: string, reps: int)
    : (r: map<string, ExerciseStat>)
    ensures r.Keys == stats.Keys + {exerciseId}
    ensures exerciseId in stats ==> r[exerciseId] == stats[exerciseId].(completed := stats[exerciseId].completed + reps)
    ensures exerciseId !in stats ==> r[exerciseId] == ExerciseStat(reps, 0)
    ensures forall id :: id in stats && id != exerciseId ==> r[id] == stats[id]
  {
    var current := if exerciseId in stats then stats[exerciseId] else ExerciseStat(0, 0);
    stats[exerciseId := current.(completed := current.completed + reps)]
  }

  /** The analytics record after a workout on day `today`, from the stored record if any. */
  function AnalyticsAfter(existing: Option<AnalyticsData>, workout: WorkoutData, today: int): (r: AnalyticsData)
    ensures var base := if existing.Some? then existing.value else DefaultAnalytics;
            && r.totalWorkouts == base.totalWorkouts + 1
            && r.lastWorkoutDate == Some(today)
            && (existing.None? ==> r.currentStreak == 1)
            && r.exerciseStats.Keys == base.exerciseStats.Keys + {workout.exerciseId}
            && (|base.weeklyStats| <= MaxWeeklyStats ==> |r.weeklyStats| <= MaxWeeklyStats)
  {
    var base := if existing.Some? then existing.value else DefaultAnalytics;
    var minutes := MinutesOf(workout.duration);
    AnalyticsData(
      base.totalWorkouts + 1,
      base.totalReps + workout.reps,
      base.totalMinutes + minutes,
      NextStreak(existing, today),
      Some(today),
      WeeklyAfter(base.weeklyStats, today, workout.reps, minutes),
      ExerciseStatsAfter(base.exerciseStats, workout.exerciseId, workout.reps))
  }

  /** One workout adds one to the count, its reps and its rounded minutes to the totals, and dates the record today. */
  lemma AnalyticsAfterTotals(existing: Option<AnalyticsData>, workout: WorkoutData, today: int)
    ensures var r := AnalyticsAfter(existing, workout, today);
            var base := if existing.Some? then existing.value else DefaultAnalytics;
            && r.totalWorkouts == base.totalWorkouts + 1
            && r.totalReps == base.totalReps + workout.reps
            && r.totalMinutes == base.totalMinutes + MinutesOf(workout.duration)
            && r.currentStreak == NextStreak(existing, today)
            && r.lastWorkoutDate == Some(today)
  {
  }

  /** An update keeps a valid record valid, for a workout with no negative reps or duration. */
  lemma {:induction false} AnalyticsAfterValid(existing: Option<AnalyticsData>, workout: WorkoutData, today: int)
    requires existing.Some? ==> existing.value.Valid()
    requires 0 <= workout.reps && 0 <= workout.duration
    ensures AnalyticsAfter(existing, workout, today).Valid()
  {
    var base := if existing.Some? then existing.value else DefaultAnalytics;
    WeeklyAfterChronological(base.weeklyStats, today, workout.reps, MinutesOf(workout.duration));
  }

  /** The streak over consecutive days: first day 1, same day again unchanged, next day 2, after a gap 1. */
  lemma StreakExamples(w: WorkoutData)
    ensures var day1 := AnalyticsAfter(None, w, 100);
            && day1.currentStreak == 1
            && AnalyticsAfter(Some(day1), w, 100).currentStreak == 1
            && AnalyticsAfter(Some(day1), w, 101).currentStreak == 2
            && AnalyticsAfter(Some(day1), w, 103).currentStreak == 1
  {
  }

  /** The weekly list updated as the storage code does it: find today's entry, then add to it or append, sort and trim. */
  method UpdateWeeklyStats(weekly: seq<DayStat>, today: int, reps: int, minutes: int) returns (weeklyStats: seq<DayStat>)
    ensures weeklyStats == WeeklyAfter(weekly, today, reps, minutes)
  {
    var weekIndex := -1;
    var i := 0;
    while i < |weekly| && weekIndex < 0
      invariant 0 <= i <= |weekly|
      invariant weekIndex < 0 ==> weekIndex == -1 && forall j :: 0 <= j < i ==> weekly[j].date != today
      invariant 0 <= weekIndex ==> weekIndex == FindDateIndex(weekly, today)
      decreases |weekly| - i
    {
      if weekly[i].date == today {
        weekIndex := i;
      }
      i := i + 1;
    }
    weeklyStats := weekly;
    if weekIndex >= 0 {
      var stat := weeklyStats[weekIndex];
      weeklyStats := weeklyStats[weekIndex := DayStat(stat.date, stat.reps + reps, stat.duration + minutes)];
    } else {
      assert FindDateIndex(weekly, today) == -1;
      weeklyStats := weeklyStats + [DayStat(today, reps, minutes)];
      weeklyStats := SortByDate(weeklyStats);
      if |weeklyStats| > MaxWeeklyStats {
        weeklyStats := weeklyStats[1..];
      }
    }
  }

  /**
   * The record update as the storage code performs it, step by step: the
   * streak, the totals, the weekly list mutated in place, and the exercise entry.
   */
  method UpdateAnalyticsRecord(existing: Option<AnalyticsData>, workout: WorkoutData, today: int)
    returns (r: AnalyticsData)
    ensures r == AnalyticsAfter(existing, workout, today)
  {
    var currentStreak := NextStreak(existing, today);

    var existingData := if existing.Some? then existing.value else DefaultAnalytics;
    var minutes := MinutesOf(workout.duration);
    var totalWorkouts := existingData.totalWorkouts + 1;
    var totalReps := existingData.totalReps + workout.reps;
    var totalMinutes := existingData.totalMinutes + minutes;

    var weeklyStats := UpdateWeeklyStats(existingData.weeklyStats, today, workout.reps, minutes);

    var exerciseStats := ExerciseStatsAfter(existingData.exerciseStats, workout.exerciseId, workout.reps);

    r := AnalyticsData(totalWorkouts, totalReps, totalMinutes, currentStreak, Some(today), weeklyStats, exerciseStats);
  }

  /** `updateAnalytics`: no database, no change; otherwise the user's record is replaced by its update. */
  function UpdateAnalytics(db: Option<Store>, userId: string, workout: WorkoutData, today: int): (r: Option<Store>)
    ensures db.None? ==> r.None?
    ensures db.Some? ==> r.Some? && r.value.workouts == db.value.workouts
    ensures db.Some? ==> r.value.analytics.Keys == db.value.analytics.Keys + {userId}
    ensures db.Some? ==> forall u :: u in db.value.analytics && u != userId ==> r.value.analytics[u] == db.value.analytics[u]
    ensures db.Some? ==>
              r.value.analytics[userId]
              == AnalyticsAfter(if userId in db.value.analytics then Some(db.value.analytics[userId]) else None, workout, today)
  {
    if db.None? then None
    else
      var existing := if userId in db.value.analytics then Some(db.value.analytics[userId]) else None;
      Some(db.value.(analytics := db.value.analytics[userId := AnalyticsAfter(existing, workout, today)]))
  }

  /**
   * `saveWorkout`: fails when there is no database, or with the store's own
   * error `writeError` when the write is refused; otherwise stores the
   * workout under the new id `newId` and updates the saver's analytics.
   */
  function SaveWorkout(db: Option<Store>, writeError: Option<string>, workout: WorkoutData, today: int, newId: string)
    : (r: Result<(string, Store)>)
    ensures db.None? ==> r == Failure(NotInitialized)
    ensures db.Some? && writeError.Some? ==> r == Failure(writeError.value)
    ensures r.Success? <==> db.Some? && writeError.None?
    ensures r.Success? ==> r.value.0 == newId
    ensures r.Success? ==> r.value.1.workouts == db.value.workouts + [workout]
    ensures r.Success? ==> r.value.1.analytics.Keys == db.value.analytics.Keys + {workout.userId}
    ensures r.Success? ==>
              forall u :: u in db.value.analytics && u != workout.userId ==>
                r.value.1.analytics[u] == db.value.analytics[u]
    ensures r.Success? ==>
              GetAnalytics(Some(r.value.1), workout.userId)
              == AnalyticsAfter(if workout.userId in db.value.analytics
                                then Some(db.value.analytics[workout.userId]) else None,
                                workout, today)
  {
    if db.None? then Failure(NotInitialized)
    else if writeError.Some? then Failure(writeError.value)
    else
      var added := db.value.(workouts := db.value.workouts + [workout]);
      var updated := UpdateAnalytics(Some(added), workout.userId, workout, today);
      Success((newId, updated.value))
  }

  /** Reading the analytics right after a save sees one more workout than before. */
  lemma {:induction false} SaveCountsWorkout(db: Store, workout: WorkoutData, today: int, newId: string)
    ensures var r := SaveWorkout(Some(db), None, workout, today, newId);
            r.Success? &&
            GetAnalytics(Some(r.value.1), workout.userId).totalWorkouts
            == GetAnalytics(Some(db), workout.userId).totalWorkouts + 1
  {
    var r := SaveWorkout(Some(db), None, workout, today, newId);
    assert GetAnalytics(Some(r.value.1), workout.userId)
           == AnalyticsAfter(if workout.userId in db.analytics then Some(db.analytics[workout.userId]) else None,
                             workout, today);
  }
}
