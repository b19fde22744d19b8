/**
 * The aggregations of the second frontend's statistics service (`frontend/services/statsService.ts`),
 * taken over an already fetched list of workout logs: the weekly totals (lines 57-64), the per-date
 * trend (lines 93-113) and the muscle-tag distribution (lines 140-171).
 */
module StatsService {
  import opened Wrappers
  import opened DbTypes

  // ---------------------------------------------------------------------------
  // Weekly totals: `reduce` folds, left to right

  datatype WeeklyStats = WeeklyStats(totalWorkouts: nat, totalDuration: int, totalCalories: int, averageRating: real)

  function TotalDuration(logs: seq<WorkoutLog>): int {
    if logs == [] then 0 else TotalDuration(logs[..|logs| - 1]) + logs[|logs| - 1].durationSeconds
  }

  /** `calories_burned || 0` summed. */
  function TotalCalories(logs: seq<WorkoutLog>): int {
    if logs == [] then 0 else TotalCalories(logs[..|logs| - 1]) + logs[|logs| - 1].caloriesBurned.GetOr(0)
  }

  /** `difficulty_rating || 0` summed. */
  function RatingSum(logs: seq<WorkoutLog>): int {
    if logs == [] then 0 else RatingSum(logs[..|logs| - 1]) + logs[|logs| - 1].difficultyRating.GetOr(0)
  }

  /** The `stats` object of `getWeeklyStats` (lines 57-64). */
  function Weekly(logs: seq<WorkoutLog>): (r: WeeklyStats)
    ensures r.totalWorkouts == |logs|
    ensures |logs| == 0 ==> r.averageRating == 0.0
    ensures |logs| > 0 ==> r.averageRating * (|logs| as real) == RatingSum(logs) as real
  {
    WeeklyStats(
      |logs|,
      TotalDuration(logs),
      TotalCalories(logs),
      if |logs| > 0 then RatingSum(logs) as real / |logs| as real else 0.0)
  }

  /** The three sums split over a concatenation of log lists. */
  lemma {:induction false} SumsOfConcat(a: seq<WorkoutLog>, b: seq<WorkoutLog>)
    ensures TotalDuration(a + b) == TotalDuration(a) + TotalDuration(b)
    ensures TotalCalories(a + b) == TotalCalories(a) + TotalCalories(b)
    ensures RatingSum(a + b) == RatingSum(a) + RatingSum(b)
    decreases |b|
  {
    if b == [] {
      assert a + b == a;
    } else {
      var b' := b[..|b| - 1];
      assert (a + b)[..|a + b| - 1] == a + b';
      assert (a + b)[|a + b| - 1] == b[|b| - 1];
      SumsOfConcat(a, b');
    }
  }

  predicate RatingsInRange(logs: seq<WorkoutLog>) {
    forall i :: 0 <= i < |logs| && logs[i].difficultyRating.Some? ==> 1 <= logs[i].difficultyRating.value <= 5
  }

  lemma {:induction false} RatingSumBounds(logs: seq<WorkoutLog>)
    requires RatingsInRange(logs)
    ensures 0 <= RatingSum(logs) <= 5 * |logs|
  {
    if logs != [] {
      var prefix := logs[..|logs| - 1];
      assert forall i :: 0 <= i < |prefix| ==> prefix[i] == logs[i];
      RatingSumBounds(prefix);
    }
  }

  /** With ratings in 1..5, the average lies in 0..5; unrated logs pull it towards 0. */
  lemma AverageRatingBounds(logs: seq<WorkoutLog>)
    requires RatingsInRange(logs)
    ensures 0.0 <= Weekly(logs).averageRating <= 5.0
  {
    RatingSumBounds(logs);
    if |logs| > 0 {
      QuotientBounds(Weekly(logs).averageRating, |logs| as real, RatingSum(logs) as real);
    }
  }

  /** A quotient of a sum in 0..5n by n lies in 0..5. */
  lemma QuotientBounds(q: real, n: real, sum: real)
    requires n > 0.0 && q * n == sum && 0.0 <= sum <= 5.0 * n
    ensures 0.0 <= q <= 5.0
  {
  }

  /** An unrated log still counts in the denominator: ratings 4 and none average 2. */
  lemma UnratedLogCounts(a: WorkoutLog, b: WorkoutLog)
    requires a.difficultyRating == Some(4) && b.difficultyRating.None?
    ensures Weekly([a, b]).averageRating == 2.0
  {
    assert [a, b][..1] == [a];
    assert RatingSum([a]) == 4;
    assert RatingSum([a, b]) == 4;
  }

  // ---------------------------------------------------------------------------
  // Code-point order on strings (standing in for `localeCompare` on date keys)

  function StrLess(a: string, b: string): bool {
    if a == [] then b != []
    else if b == [] then false
    else if a[0] == b[0] then StrLess(a[1..], b[1..])
    else a[0] < b[0]
  }

  lemma {:induction false} StrLessIrreflexive(a: string)
    ensures !StrLess(a, a)
  {
    if a != [] {
      StrLessIrreflexive(a[1..]);
    }
  }

  lemma {:induction false} StrLessTotal(a: string, b: string)
    requires a != b
    ensures StrLess(a, b) || StrLess(b, a)
  {
    if a != [] && b != [] && a[0] == b[0] {
      assert a == [a[0]] + a[1..] && b == [b[0]] + b[1..];
      StrLessTotal(a[1..], b[1..]);
    }
  }

  lemma {:induction false} StrLessTransitive(a: string, b: string, c: string)
    requires StrLess(a, b) && StrLess(b, c)
    ensures StrLess(a, c)
  {
    if a != [] && b != [] && c != [] && a[0] == b[0] && b[0] == c[0] {
      StrLessTransitive(a[1..], b[1..], c[1..]);
    }
  }

  // ---------------------------------------------------------------------------
  // Per-date trend

  datatype TrendPoint = TrendPoint(date: string, duration: real, calories: int)

  /** `split('T')[0]`: the text before the first 'T'. */
  function DateKey(s: string): (r: string)
    ensures r <= s && 'T' !in r
    ensures |r| < |s| ==> s[|r|] == 'T'
  {
    if s == [] then []
    else if s[0] == 'T' then []
    else [s[0]] + DateKey(s[1..])
  }

  function LogDate(log: WorkoutLog): string {
    DateKey(log.workoutDate)
  }

  /** The date keys occurring in the logs. */
  function Dates(logs: seq<WorkoutLog>): set<string> {
    set i | 0 <= i < |logs| :: LogDate(logs[i])
  }

  /** Minutes trained on date `d`. */
  function DurationOn(logs: seq<WorkoutLog>, d: string): real {
    if logs == [] then 0.0
    else
      var last := logs[|logs| - 1];
      DurationOn(logs[..|logs| - 1], d) + (if LogDate(last) == d then last.durationSeconds as real / 60.0 else 0.0)
  }

  /** Calories burnt on date `d`. */
  function CaloriesOn(logs: seq<WorkoutLog>, d: string): int {
    if logs == [] then 0
    else
      var last := logs[|logs| - 1];
      CaloriesOn(logs[..|logs| - 1], d) + (if LogDate(last) == d then last.caloriesBurned.GetOr(0) else 0)
  }

  lemma {:induction false} NothingOnAbsentDate(logs: seq<WorkoutLog>, d: string)
    requires d !in Dates(logs)
    ensures DurationOn(logs, d) == 0.0 && CaloriesOn(logs, d) == 0
  {
    if logs != [] {
      var prefix := logs[..|logs| - 1];
      assert LogDate(logs[|logs| - 1]) in Dates(logs);
      assert Dates(prefix) <= Dates(logs) by {
        forall x | x in Dates(prefix) ensures x in Dates(logs) {
          var i :| 0 <= i < |prefix| && LogDate(prefix[i]) == x;
          assert prefix[i] == logs[i];
        }
      }
      NothingOnAbsentDate(prefix, d);
    }
  }

  predicate SortedByDate(ps: seq<TrendPoint>) {
    forall i :: 0 <= i < |ps| - 1 ==> StrLess(ps[i].date, ps[i + 1].date)
  }

  predicate DistinctDates(ps: seq<TrendPoint>) {
    forall i, j :: 0 <= i < j < |ps| ==> ps[i].date != ps[j].date
  }

  /** Inserting a point before the first point whose date is later. */
  function InsertByDate(s: seq<TrendPoint>, p: TrendPoint): seq<TrendPoint> {
    if s == [] then [p]
    else if StrLess(p.date, s[0].date) then [p] + s
    else [s[0]] + InsertByDate(s[1..], p)
  }

  /** Inserting a point with a new date into a date-sorted list keeps it sorted. */
  lemma {:induction false} InsertByDateSorted(s: seq<TrendPoint>, p: TrendPoint)
    requires SortedByDate(s)
    requires forall i :: 0 <= i < |s| ==> s[i].date != p.date
    ensures SortedByDate(InsertByDate(s, p))
    ensures s != [] ==> InsertByDate(s, p)[0] == p || InsertByDate(s, p)[0] == s[0]
  {
    if s != [] && !StrLess(p.date, s[0].date) {
      StrLessTotal(p.date, s[0].date);
      InsertByDateSorted(s[1..], p);
      var rest := InsertByDate(s[1..], p);
      var r := [s[0]] + rest;
      assert |s| > 1 ==> rest[0] == p || rest[0] == s[1];
      assert forall i :: 0 <= i < |rest| ==> r[i + 1] == rest[i];
    }
  }

  /** Inserting adds exactly the one point. */
  lemma {:induction false} InsertByDatePermutes(s: seq<TrendPoint>, p: TrendPoint)
    ensures multiset(InsertByDate(s, p)) == multiset(s) + multiset{p}
  {
    if s != [] && !StrLess(p.date, s[0].date) {
      InsertByDatePermutes(s[1..], p);
      assert s == [s[0]] + s[1..];
    }
  }

  /** A permutation of points that all avoid a date avoids it too. */
  lemma {:induction false} PermutationAvoidsDate(prefix: seq<TrendPoint>, sorted: seq<TrendPoint>, date: string)
    requires multiset(sorted) == multiset(prefix)
    requires forall i :: 0 <= i < |prefix| ==> prefix[i].date != date
    ensures forall k :: 0 <= k < |sorted| ==> sorted[k].date != date
  {
    forall k | 0 <= k < |sorted| ensures sorted[k].date != date {
      assert sorted[k] in multiset(prefix);
      var i :| 0 <= i < |prefix| && prefix[i] == sorted[k];
    }
  }

  /** `sort((a, b) => a.date.localeCompare(b.date))` on points with distinct dates. */
  function SortByDate(ps: seq<TrendPoint>): (r: seq<TrendPoint>)
    requires DistinctDates(ps)
    ensures SortedByDate(r) && multiset(r) == multiset(ps)
  {
    if ps == [] then []
    else
      var prefix := ps[..|ps| - 1];
      var last := ps[|ps| - 1];
      assert forall i :: 0 <= i < |prefix| ==> prefix[i] == ps[i];
      var sorted := SortByDate(prefix);
      PermutationAvoidsDate(prefix, sorted, last.date);
      InsertByDateSorted(sorted, last);
      InsertByDatePermutes(sorted, last);
      assert ps == prefix + [last];
      InsertByDate(sorted, last)
  }

  /** In a date-sorted list all dates are distinct. */
  lemma {:induction false} SortedHasDistinctDates(ps: seq<TrendPoint>)
    requires SortedByDate(ps)
    ensures forall i, j :: 0 <= i < j < |ps| ==> StrLess(ps[i].date, ps[j].date)
    ensures DistinctDates(ps)
  {
    if ps != [] {
      var tail := ps[1..];
      assert SortedByDate(tail) by {
        forall i | 0 <= i < |tail| - 1 ensures StrLess(tail[i].date, tail[i + 1].date) {
          assert tail[i] == ps[i + 1] && tail[i + 1] == ps[i + 2];
        }
      }
      SortedHasDistinctDates(tail);
      forall i, j | 0 <= i < j < |ps|
        ensures StrLess(ps[i].date, ps[j].date)
      {
        if i == 0 {
          if j > 1 {
            assert ps[1] == tail[0] && ps[j] == tail[j - 1];
            StrLessTransitive(ps[0].date, ps[1].date, ps[j].date);
          }
        } else {
          assert ps[i] == tail[i - 1] && ps[j] == tail[j - 1];
        }
      }
      forall i, j | 0 <= i < j < |ps|
        ensures ps[i].date != ps[j].date
      {
        if ps[i].date == ps[j].date {
          StrLessIrreflexive(ps[i].date);
        }
      }
    }
  }

  /** `dataByDate` and its key order agree with the logs grouped so far. */
  ghost predicate Grouped(byDate: map<string, TrendPoint>, order: seq<string>, logs: seq<WorkoutLog>) {
    && byDate.Keys == Dates(logs)
    && (forall d :: d in byDate ==> byDate[d] == TrendPoint(d, DurationOn(logs, d), CaloriesOn(logs, d)))
    && (forall j :: 0 <= j < |order| ==> order[j] in byDate)
    && (forall d :: d in byDate ==> d in order)
    && (forall j, k :: 0 <= j < k < |order| ==> order[j] != order[k])
  }

  /** One log added to its date's entry, the entry created first when the date is new (lines 98-107). */
  function AddToDate(byDate: map<string, TrendPoint>, log: WorkoutLog): map<string, TrendPoint> {
    var date := LogDate(log);
    var point := if date in byDate then byDate[date] else TrendPoint(date, 0.0, 0);
    byDate[date := point.(duration := point.duration + log.durationSeconds as real / 60.0,
                          calories := point.calories + log.caloriesBurned.GetOr(0))]
  }

  /** `AddToDate` is the update the loop body makes once it has looked up (or created) the entry. */
  lemma AddToDateUpdates(byDate: map<string, TrendPoint>, log: WorkoutLog, point: TrendPoint)
    requires point == if LogDate(log) in byDate then byDate[LogDate(log)] else TrendPoint(LogDate(log), 0.0, 0)
    ensures AddToDate(byDate, log)
      == byDate[LogDate(log) := point.(duration := point.duration + log.durationSeconds as real / 60.0,
                                       calories := point.calories + log.caloriesBurned.GetOr(0))]
  {
  }

  lemma DatesOfSnoc(logs: seq<WorkoutLog>, log: WorkoutLog)
    ensures Dates(logs + [log]) == Dates(logs) + {LogDate(log)}
  {
    var ls := logs + [log];
    forall x | x in Dates(ls) ensures x in Dates(logs) + {LogDate(log)} {
      var j :| 0 <= j < |ls| && LogDate(ls[j]) == x;
      if j < |logs| {
        assert ls[j] == logs[j];
      }
    }
    forall x | x in Dates(logs) ensures x in Dates(ls) {
      var j :| 0 <= j < |logs| && LogDate(logs[j]) == x;
      assert logs[j] == ls[j];
    }
    assert LogDate(ls[|logs|]) == LogDate(log);
  }

  /** One more log keeps each date's entry equal to that date's sums. */
  lemma AddToDateSums(byDate: map<string, TrendPoint>, logs: seq<WorkoutLog>, log: WorkoutLog)
    requires byDate.Keys == Dates(logs)
    requires forall d :: d in byDate ==> byDate[d] == TrendPoint(d, DurationOn(logs, d), CaloriesOn(logs, d))
    ensures AddToDate(byDate, log).Keys == Dates(logs + [log])
    ensures forall d :: d in AddToDate(byDate, log) ==>
      AddToDate(byDate, log)[d] == TrendPoint(d, DurationOn(logs + [log], d), CaloriesOn(logs + [log], d))
  {
    var ls := logs + [log];
    var date := LogDate(log);
    var next := AddToDate(byDate, log);
    assert ls[..|ls| - 1] == logs && ls[|ls| - 1] == log;
    DatesOfSnoc(logs, log);
    if date !in byDate {
      NothingOnAbsentDate(logs, date);
    }
    forall d | d in next
      ensures next[d] == TrendPoint(d, DurationOn(ls, d), CaloriesOn(ls, d))
    {
      assert DurationOn(ls, d) == DurationOn(logs, d) + (if date == d then log.durationSeconds as real / 60.0 else 0.0);
      assert CaloriesOn(ls, d) == CaloriesOn(logs, d) + (if date == d then log.caloriesBurned.GetOr(0) else 0);
    }
  }

  lemma GroupStep(byDate: map<string, TrendPoint>, order: seq<string>, logs: seq<WorkoutLog>, log: WorkoutLog)
    requires Grouped(byDate, order, logs)
    ensures Grouped(AddToDate(byDate, log), if LogDate(log) in byDate then order else order + [LogDate(log)], logs + [log])
  {
    var date := LogDate(log);
    var next := AddToDate(byDate, log);
    var nextOrder := if date in byDate then order else order + [date];
    AddToDateSums(byDate, logs, log);
    assert next.Keys == byDate.Keys + {date};
    assert forall d :: d in next ==> d in nextOrder;
    assert forall j :: 0 <= j < |nextOrder| ==> nextOrder[j] in next;
    assert date !in byDate ==> date !in order;
  }

  /**
   * The body of `getWorkoutTrend` after the fetch: group by date key, then sort. The result has
   * one point per date key, in ascending order, carrying that date's minutes and calories.
   */
  method WorkoutTrend(logs: seq<WorkoutLog>) returns (points: seq<TrendPoint>)
    ensures SortedByDate(points) && DistinctDates(points)
    ensures forall d :: d in Dates(logs) <==> exists p :: p in points && p.date == d
    ensures forall p :: p in points ==>
      p.duration == DurationOn(logs, p.date) && p.calories == CaloriesOn(logs, p.date)
  {
    var dataByDate, order := GroupByDate(logs);
    var values := seq(|order|, j requires 0 <= j < |order| => dataByDate[order[j]]);
    assert forall j :: 0 <= j < |values| ==> values[j].date == order[j];
    points := SortByDate(values);
    SortedHasDistinctDates(points);
    TrendPointsOf(logs, dataByDate, order, values, points);
  }

  /** The `forEach` of `getWorkoutTrend` (lines 95-108), with the dictionary's key order beside it. */
  method GroupByDate(logs: seq<WorkoutLog>) returns (dataByDate: map<string, TrendPoint>, order: seq<string>)
    ensures Grouped(dataByDate, order, logs)
  {
    dataByDate := map[];
    order := [];
    for i := 0 to |logs|
      invariant Grouped(dataByDate, order, logs[..i])
    {
      var log := logs[i];
      var date := LogDate(log);
      ghost var before, beforeOrder := dataByDate, order;
      var point := TrendPoint(date, 0.0, 0);
      if date in dataByDate {
        point := dataByDate[date];
      } else {
        order := order + [date];
      }
      AddToDateUpdates(before, log, point);
      dataByDate := dataByDate[date := point.(duration := point.duration + log.durationSeconds as real / 60.0,
                                               calories := point.calories + log.caloriesBurned.GetOr(0))];
      assert logs[..i + 1] == logs[..i] + [log];
      GroupStep(before, beforeOrder, logs[..i], log);
    }
    assert logs[..|logs|] == logs;
  }

  lemma TrendPointsOf(logs: seq<WorkoutLog>, byDate: map<string, TrendPoint>, order: seq<string>,
                      values: seq<TrendPoint>, points: seq<TrendPoint>)
    requires Grouped(byDate, order, logs)
    requires |values| == |order| && forall j :: 0 <= j < |values| ==> values[j] == byDate[order[j]]
    requires multiset(points) == multiset(values)
    ensures forall d :: d in Dates(logs) <==> exists p :: p in points && p.date == d
    ensures forall p :: p in points ==>
      p.duration == DurationOn(logs, p.date) && p.calories == CaloriesOn(logs, p.date)
  {
    forall p | p in points
      ensures p in values
    {
      assert p in multiset(points);
    }
    forall d | d in Dates(logs)
      ensures exists p :: p in points && p.date == d
    {
      var j :| 0 <= j < |order| && order[j] == d;
      assert values[j] in multiset(values);
      assert values[j] in points;
    }
  }

  lemma {:induction false} DateKeyOf(day: string, rest: string)
    requires 'T' !in day
    ensures DateKey(day + "T" + rest) == day
  {
    if day == [] {
      assert day + "T" + rest == "T" + rest;
    } else {
      assert (day + "T" + rest)[1..] == day[1..] + "T" + rest;
      DateKeyOf(day[1..], rest);
    }
  }

  lemma {:induction false} StrLessAfterCommonPrefix(p: string, a: string, b: string)
    ensures StrLess(p + a, p + b) == StrLess(a, b)
  {
    if p == [] {
      assert p + a == a && p + b == b;
    } else {
      assert (p + a)[1..] == p[1..] + a && (p + b)[1..] == p[1..] + b;
      StrLessAfterCommonPrefix(p[1..], a, b);
    }
  }

  /** Two logs on one day and one on another: two dates, each with its own minutes and calories. */
  lemma TrendExample(a: WorkoutLog, b: WorkoutLog, c: WorkoutLog, day1: string, day2: string, ta: string, tb: string, tc: string)
    requires 'T' !in day1 && 'T' !in day2 && day1 != day2
    requires a.workoutDate == day1 + "T" + ta && a.durationSeconds == 600 && a.caloriesBurned == Some(50)
    requires b.workoutDate == day2 + "T" + tb && b.durationSeconds == 1200 && b.caloriesBurned.None?
    requires c.workoutDate == day1 + "T" + tc && c.durationSeconds == 300 && c.caloriesBurned == Some(20)
    ensures Dates([a, b, c]) == {day1, day2}
    ensures DurationOn([a, b, c], day1) == 15.0 && CaloriesOn([a, b, c], day1) == 70
    ensures DurationOn([a, b, c], day2) == 20.0 && CaloriesOn([a, b, c], day2) == 0
  {
    DateKeyOf(day1, ta);
    DateKeyOf(day2, tb);
    DateKeyOf(day1, tc);
    var logs := [a, b, c];
    assert logs[..2] == [a, b] && [a, b][..1] == [a] && [a][..0] == [];
    assert DurationOn([a], day1) == 10.0 && CaloriesOn([a], day1) == 50;
    assert DurationOn([a], day2) == 0.0 && CaloriesOn([a], day2) == 0;
    assert DurationOn([a, b], day1) == 10.0 && CaloriesOn([a, b], day1) == 50;
    assert DurationOn([a, b], day2) == 20.0 && CaloriesOn([a, b], day2) == 0;
    assert Dates(logs) == {day1, day2} by {
      assert logs[0] == a && logs[1] == b && logs[2] == c;
      assert LogDate(logs[0]) == day1 && LogDate(logs[1]) == day2;
    }
  }

  /** Date keys of one month sort by day. */
  lemma DateKeysSortByDay()
    ensures StrLess("2024-05-01", "2024-05-02")
  {
    StrLessAfterCommonPrefix("2024-05-0", "1", "2");
    assert "2024-05-01" == "2024-05-0" + "1" && "2024-05-02" == "2024-05-0" + "2";
  }

  // ---------------------------------------------------------------------------
  // Muscle distribution

  datatype MuscleShare = MuscleShare(muscle: string, count: nat, percentage: real)

  const MusclePrefix := "muscle:"

  /** The muscles named by `muscle:` tags, in tag order (`tag.replace('muscle:', '')`). */
  function TagMuscles(tags: seq<string>): seq<string> {
    if tags == [] then []
    else
      var t := tags[|tags| - 1];
      TagMuscles(tags[..|tags| - 1]) + (if MusclePrefix <= t then [t[|MusclePrefix|..]] else [])
  }

  /** Only exercise items with an exercise are counted (line 147). */
  predicate Counted(item: PlanItem) {
    item.kind == ExerciseItem && item.exercise.Some?
  }

  function ItemMuscles(item: PlanItem): seq<string> {
    if Counted(item) then TagMuscles(item.exercise.value.tags.GetOr([])) else []
  }

  function ItemsMuscles(items: seq<PlanItem>): seq<string> {
    if items == [] then [] else ItemsMuscles(items[..|items| - 1]) + ItemMuscles(items[|items| - 1])
  }

  function ItemsCounted(items: seq<PlanItem>): nat {
    if items == [] then 0 else ItemsCounted(items[..|items| - 1]) + (if Counted(items[|items| - 1]) then 1 else 0)
  }

  /** Logs without `exercises_completed` are skipped (line 144). */
  function LogMuscles(log: WorkoutLog): seq<string> {
    if log.exercisesCompleted.Some? then ItemsMuscles(log.exercisesCompleted.value) else []
  }

  function LogCounted(log: WorkoutLog): nat {
    if log.exercisesCompleted.Some? then ItemsCounted(log.exercisesCompleted.value) else 0
  }

  /** Every muscle tag of every counted item, in iteration order. */
  function MuscleStream(logs: seq<WorkoutLog>): seq<string> {
    if logs == [] then [] else MuscleStream(logs[..|logs| - 1]) + LogMuscles(logs[|logs| - 1])
  }

  /** `totalExercises`. */
  function TotalExercises(logs: seq<WorkoutLog>): nat {
    if logs == [] then 0 else TotalExercises(logs[..|logs| - 1]) + LogCounted(logs[|logs| - 1])
  }

  function Occurrences(stream: seq<string>, m: string): (r: nat)
    ensures r > 0 <==> m in stream
  {
    if stream == [] then 0
    else Occurrences(stream[..|stream| - 1], m) + (if stream[|stream| - 1] == m then 1 else 0)
  }

  /** The distinct names of a stream in order of first occurrence (the dictionary's key order). */
  function FirstSeen(stream: seq<string>): (r: seq<string>)
    ensures forall m :: m in r <==> m in stream
    ensures forall i, j :: 0 <= i < j < |r| ==> r[i] != r[j]
  {
    if stream == [] then []
    else
      var prefix := FirstSeen(stream[..|stream| - 1]);
      var last := stream[|stream| - 1];
      assert stream == stream[..|stream| - 1] + [last];
      if last in stream[..|stream| - 1] then prefix else prefix + [last]
  }

  /** `count / totalExercises * 100`, or 0 when nothing was counted. */
  function Percentage(count: nat, total: nat): (r: real)
    ensures total == 0 ==> r == 0.0
    ensures total > 0 ==> r * (total as real) == (count as real) * 100.0
  {
    if total > 0 then (count as real / total as real) * 100.0 else 0.0
  }

  /** `muscleCount` and its key order agree with a stream of muscles seen so far. */
  ghost predicate Tally(counts: map<string, nat>, keys: seq<string>, stream: seq<string>) {
    && (forall m :: m in counts <==> m in stream)
    && (forall m :: m in counts ==> counts[m] == Occurrences(stream, m))
    && keys == FirstSeen(stream)
  }

  /** Counting one more muscle, as `muscleCount[muscle] = (muscleCount[muscle] || 0) + 1` does. */
  lemma TallyStep(counts: map<string, nat>, keys: seq<string>, stream: seq<string>, m: string)
    requires Tally(counts, keys, stream)
    ensures Tally(counts[m := (if m in counts then counts[m] else 0) + 1],
                  if m in counts then keys else keys + [m], stream + [m])
  {
    var s := stream + [m];
    assert s[..|s| - 1] == stream && s[|s| - 1] == m;
  }

  /** The entries before sorting, in key order (`Object.entries(...).map(...)`, lines 162-168). */
  function Entries(counts: map<string, nat>, keys: seq<string>, total: nat): seq<MuscleShare>
    requires forall j :: 0 <= j < |keys| ==> keys[j] in counts
  {
    seq(|keys|, j requires 0 <= j < |keys| => MuscleShare(keys[j], counts[keys[j]], Percentage(counts[keys[j]], total)))
  }

  /** The unsorted distribution the logs determine. */
  function Distribution(logs: seq<WorkoutLog>): seq<MuscleShare> {
    var stream := MuscleStream(logs);
    var keys := FirstSeen(stream);
    seq(|keys|, j requires 0 <= j < |keys| =>
      MuscleShare(keys[j], Occurrences(stream, keys[j]), Percentage(Occurrences(stream, keys[j]), TotalExercises(logs))))
  }

  predicate SortedByCount(es: seq<MuscleShare>) {
    forall i :: 0 <= i < |es| - 1 ==> es[i].count >= es[i + 1].count
  }

  /** Inserting after every entry with at least the same count. */
  function InsertByCount(s: seq<MuscleShare>, e: MuscleShare): seq<MuscleShare> {
    if s == [] then [e]
    else if e.count > s[0].count then [e] + s
    else [s[0]] + InsertByCount(s[1..], e)
  }

  /** Inserting into a list sorted by count, largest first, keeps it sorted. */
  lemma {:induction false} InsertByCountSorted(s: seq<MuscleShare>, e: MuscleShare)
    requires SortedByCount(s)
    ensures SortedByCount(InsertByCount(s, e))
    ensures s != [] ==> InsertByCount(s, e)[0] == e || InsertByCount(s, e)[0] == s[0]
  {
    if s != [] && e.count <= s[0].count {
      InsertByCountSorted(s[1..], e);
      var rest := InsertByCount(s[1..], e);
      var r := [s[0]] + rest;
      assert |s| > 1 ==> rest[0] == e || rest[0] == s[1];
      assert forall i :: 0 <= i < |rest| ==> r[i + 1] == rest[i];
    }
  }

  /** Inserting adds exactly the one entry. */
  lemma {:induction false} InsertByCountPermutes(s: seq<MuscleShare>, e: MuscleShare)
    ensures multiset(InsertByCount(s, e)) == multiset(s) + multiset{e}
  {
    if s != [] && e.count <= s[0].count {
      InsertByCountPermutes(s[1..], e);
      assert s == [s[0]] + s[1..];
    }
  }

  /** `sort((a, b) => b.count - a.count)`. */
  function SortByCount(es: seq<MuscleShare>): (r: seq<MuscleShare>)
    ensures SortedByCount(r) && multiset(r) == multiset(es)
  {
    if es == [] then []
    else
      var sorted := SortByCount(es[..|es| - 1]);
      InsertByCountSorted(sorted, es[|es| - 1]);
      InsertByCountPermutes(sorted, es[|es| - 1]);
      assert es == es[..|es| - 1] + [es[|es| - 1]];
      InsertByCount(sorted, es[|es| - 1])
  }

  /** One more tag adds its muscle, if it names one, to the muscles of the tags before it. */
  lemma TagMusclesOfPrefix(tags: seq<string>, k: nat, before: seq<string>)
    requires k < |tags|
    ensures MusclePrefix <= tags[k] ==>
      before + TagMuscles(tags[..k + 1]) == before + TagMuscles(tags[..k]) + [tags[k][|MusclePrefix|..]]
    ensures !(MusclePrefix <= tags[k]) ==> before + TagMuscles(tags[..k + 1]) == before + TagMuscles(tags[..k])
  {
    assert tags[..k + 1][..k] == tags[..k] && tags[..k + 1][k] == tags[k];
  }

  /** The per-item tag loop (lines 150-156). */
  method AddItemTags(item: PlanItem, counts: map<string, nat>, keys: seq<string>, ghost before: seq<string>)
    returns (newCounts: map<string, nat>, newKeys: seq<string>)
    requires Counted(item) && Tally(counts, keys, before)
    ensures Tally(newCounts, newKeys, before + ItemMuscles(item))
  {
    newCounts, newKeys := counts, keys;
    var tags := item.exercise.value.tags.GetOr([]);
    assert before + TagMuscles(tags[..0]) == before;
    for k := 0 to |tags|
      invariant Tally(newCounts, newKeys, before + TagMuscles(tags[..k]))
    {
      var tag := tags[k];
      TagMusclesOfPrefix(tags, k, before);
      if MusclePrefix <= tag {
        var muscle := tag[|MusclePrefix|..];
        TallyStep(newCounts, newKeys, before + TagMuscles(tags[..k]), muscle);
        newKeys := if muscle in newCounts then newKeys else newKeys + [muscle];
        newCounts := newCounts[muscle := (if muscle in newCounts then newCounts[muscle] else 0) + 1];
      }
    }
    assert tags[..|tags|] == tags;
  }

  /** One more item of a log adds its muscles to the stream and, when counted, one exercise. */
  lemma ItemsOfPrefix(items: seq<PlanItem>, j: nat, before: seq<string>)
    requires j < |items|
    ensures before + ItemsMuscles(items[..j + 1]) == (before + ItemsMuscles(items[..j])) + ItemMuscles(items[j])
    ensures ItemsCounted(items[..j + 1]) == ItemsCounted(items[..j]) + (if Counted(items[j]) then 1 else 0)
  {
    assert items[..j + 1][..j] == items[..j] && items[..j + 1][j] == items[j];
  }

  /** The per-log item loop (lines 146-158). */
  method AddLogItems(items: seq<PlanItem>, counts: map<string, nat>, keys: seq<string>, total: nat,
                     ghost before: seq<string>)
    returns (newCounts: map<string, nat>, newKeys: seq<string>, newTotal: nat)
    requires Tally(counts, keys, before)
    ensures Tally(newCounts, newKeys, before + ItemsMuscles(items))
    ensures newTotal == total + ItemsCounted(items)
  {
    newCounts, newKeys, newTotal := counts, keys, total;
    assert before + ItemsMuscles(items[..0]) == before;
    for j := 0 to |items|
      invariant Tally(newCounts, newKeys, before + ItemsMuscles(items[..j]))
      invariant newTotal == total + ItemsCounted(items[..j])
    {
      var item := items[j];
      ghost var stream := before + ItemsMuscles(items[..j]);
      ItemsOfPrefix(items, j, before);
      if item.kind == ExerciseItem && item.exercise.Some? {
        newTotal := newTotal + 1;
        newCounts, newKeys := AddItemTags(item, newCounts, newKeys, stream);
      } else {
        assert stream + ItemMuscles(item) == stream;
      }
    }
    assert items[..|items|] == items;
  }

  /**
   * The body of `getMuscleDistribution` after the fetch: the entries are the distribution the logs
   * determine, sorted by count, largest first.
   */
  method MuscleDistribution(logs: seq<WorkoutLog>) returns (distribution: seq<MuscleShare>)
    ensures SortedByCount(distribution)
    ensures multiset(distribution) == multiset(Distribution(logs))
  {
    var muscleCount: map<string, nat> := map[];
    var keys: seq<string> := [];
    var totalExercises: nat := 0;
    for i := 0 to |logs|
      invariant Tally(muscleCount, keys, MuscleStream(logs[..i]))
      invariant totalExercises == TotalExercises(logs[..i])
    {
      var log := logs[i];
      assert logs[..i + 1][..i] == logs[..i] && logs[..i + 1][i] == log;
      assert MuscleStream(logs[..i + 1]) == MuscleStream(logs[..i]) + LogMuscles(log);
      if log.exercisesCompleted.Some? {
        muscleCount, keys, totalExercises :=
          AddLogItems(log.exercisesCompleted.value, muscleCount, keys, totalExercises, MuscleStream(logs[..i]));
      } else {
        assert MuscleStream(logs[..i + 1]) == MuscleStream(logs[..i]);
      }
    }
    assert logs[..|logs|] == logs;
    var entries := Entries(muscleCount, keys, totalExercises);
    assert entries == Distribution(logs);
    distribution := SortByCount(entries);
  }

  /** Each muscle appears once, with its tag count (at least 1) and its share of the counted items. */
  lemma DistributionEntries(logs: seq<WorkoutLog>)
    ensures forall m :: m in MuscleStream(logs) <==> exists e :: e in Distribution(logs) && e.muscle == m
    ensures forall i, j :: 0 <= i < j < |Distribution(logs)| ==> Distribution(logs)[i].muscle != Distribution(logs)[j].muscle
    ensures forall e :: e in Distribution(logs) ==>
      e.count == Occurrences(MuscleStream(logs), e.muscle) && e.count >= 1
      && e.percentage == Percentage(e.count, TotalExercises(logs))
  {
    var keys := FirstSeen(MuscleStream(logs));
    var d := Distribution(logs);
    assert forall j :: 0 <= j < |d| ==> d[j].muscle == keys[j];
    forall m | m in MuscleStream(logs)
      ensures exists e :: e in d && e.muscle == m
    {
      var j :| 0 <= j < |keys| && keys[j] == m;
      assert d[j] in d;
    }
  }

  /** The tag stream of one item carrying `muscle:chest` twice and `type:strength` once. */
  lemma {:induction false} ExampleTags(tags: seq<string>)
    requires tags == ["muscle:chest", "type:strength", "muscle:chest"]
    ensures TagMuscles(tags) == ["chest", "chest"]
  {
    assert tags[..2] == ["muscle:chest", "type:strength"] && tags[..2][..1] == ["muscle:chest"];
    assert MusclePrefix <= "muscle:chest";
    assert "type:strength"[0] != MusclePrefix[0];
    assert "muscle:chest"[|MusclePrefix|..] == "chest";
    assert tags[..1][..0] == [];
    assert TagMuscles(tags[..1]) == ["chest"];
    assert TagMuscles(tags[..2]) == ["chest"];
  }

  lemma ExampleStream(log: WorkoutLog, item: PlanItem, ex: Exercise)
    requires ex.tags == Some(["muscle:chest", "type:strength", "muscle:chest"])
    requires item == PlanItem(ExerciseItem, "Push-up", 30, Some(ex))
    requires log.exercisesCompleted == Some([item])
    ensures MuscleStream([log]) == ["chest", "chest"] && TotalExercises([log]) == 1
  {
    ExampleTags(ex.tags.value);
    assert [item][..0] == [] && [log][..0] == [] && [item][0] == item && [log][0] == log;
    assert ItemMuscles(item) == ["chest", "chest"];
    assert ItemsMuscles([item]) == ["chest", "chest"];
    assert ItemsCounted([item]) == 1;
    assert LogMuscles(log) == ["chest", "chest"];
  }

  /** A stream naming chest twice has one key, counted twice. */
  lemma {:induction false} ChestTwice(stream: seq<string>)
    requires stream == ["chest", "chest"]
    ensures FirstSeen(stream) == ["chest"] && Occurrences(stream, "chest") == 2
  {
    assert stream[..1] == ["chest"] && stream[..1][..0] == [];
    assert FirstSeen(stream[..1]) == ["chest"];
    assert Occurrences(stream[..1], "chest") == 1;
  }

  /** A log whose item carries `muscle:chest` twice counts chest twice for one item: 200 percent. */
  lemma DistributionExample(log: WorkoutLog, item: PlanItem, ex: Exercise)
    requires ex.tags == Some(["muscle:chest", "type:strength", "muscle:chest"])
    requires item == PlanItem(ExerciseItem, "Push-up", 30, Some(ex))
    requires log.exercisesCompleted == Some([item])
    ensures Distribution([log]) == [MuscleShare("chest", 2, 200.0)]
  {
    ExampleStream(log, item, ex);
    ChestTwice(MuscleStream([log]));
    var d := Distribution([log]);
    assert |d| == 1 && d[0] == MuscleShare("chest", 2, Percentage(2, 1));
  }
}
