/**
 * The completion screen of the second frontend (`frontend/components/player/CompletedScreen.tsx`):
 * the workout summary, and the rating/feeling form that builds and saves a workout record.
 * The save is split at its `await`: `BeginSave` builds the record handed to `saveWorkoutLog`,
 * and `FinishSave` receives whether that call succeeded.
 */
module CompletedScreen {
  import opened Wrappers
  import opened Numbers
  import opened DbTypes
  import opened WorkoutLogService

  const IncompleteFormAlert := "請完成評分與感受選擇"
  const SaveFailedAlert := "儲存失敗，請稍後再試"

  /** `workoutPlan.filter(item => item.type === 'exercise').length`. */
  function ExerciseCount(plan: seq<PlanItem>): (r: nat)
    ensures r <= |plan|
  {
    if plan == [] then 0
    else (if plan[0].kind == ExerciseItem then 1 else 0) + ExerciseCount(plan[1..])
  }

  /** The number of rest items. */
  function RestCount(plan: seq<PlanItem>): nat {
    if plan == [] then 0
    else (if plan[0].kind == RestItem then 1 else 0) + RestCount(plan[1..])
  }

  datatype WorkoutStats = WorkoutStats(duration: nat, exerciseCount: nat, estimatedCalories: int)

  /** The `workoutStats` memo (lines 27-42): the estimate uses rating 3 until one is chosen. */
  function Stats(durationMinutes: nat, plan: seq<PlanItem>, rating: nat, weight: Option<Number>): (r: WorkoutStats)
    ensures r.duration == durationMinutes && r.exerciseCount == ExerciseCount(plan)
    ensures rating == 0 ==>
      r.estimatedCalories == CaloriesBurned((durationMinutes * 60) as real, Some(Num(3.0)), weight)
    ensures rating != 0 ==>
      r.estimatedCalories == CaloriesBurned((durationMinutes * 60) as real, Some(Num(rating as real)), weight)
    ensures r.estimatedCalories >= 0
  {
    var shownRating := if rating == 0 then 3 else rating;
    WorkoutStats(
      durationMinutes,
      ExerciseCount(plan),
      CaloriesBurned((durationMinutes * 60) as real, Some(Num(shownRating as real)), weight))
  }

  /**
   * The record `handleSaveWorkout` persists (lines 44-77), or `None` when it refuses because there
   * is no user, no rating or no feeling.
   */
  function SaveRequest(userId: Option<string>, now: string, durationMinutes: nat, plan: seq<PlanItem>,
                       rating: nat, feeling: Option<Feeling>, weight: Option<Number>): (r: Option<NewWorkoutLog>)
    ensures r.Some? <==> userId.Some? && rating != 0 && feeling.Some?
    ensures r.Some? ==>
      && r.value.userId == userId.value
      && r.value.workoutDate == now
      && r.value.durationSeconds == durationMinutes * 60
      && r.value.difficultyRating == Some(rating)
      && r.value.feeling == feeling
      && r.value.exercisesCompleted == Some(plan)
  {
    if userId.None? || rating == 0 || feeling.None? then None
    else
      var durationSeconds := durationMinutes * 60;
      var calories := CaloriesBurned(durationSeconds as real, Some(Num(rating as real)), weight);
      Some(NewWorkoutLog(userId.value, now, durationSeconds, Some(calories), Some(rating), feeling, Some(plan)))
  }

  /** The save button's `disabled` (line 169). */
  function SaveDisabled(saving: bool, rating: nat, feeling: Option<Feeling>): bool {
    saving || rating == 0 || feeling.None?
  }

  // ---------------------------------------------------------------------------
  // Properties

  /** Every item is an exercise or a rest, and the count of exercises adds up over concatenation. */
  lemma {:induction false} CountsAddUp(a: seq<PlanItem>, b: seq<PlanItem>)
    ensures ExerciseCount(a) + RestCount(a) == |a|
    ensures ExerciseCount(a + b) == ExerciseCount(a) + ExerciseCount(b)
  {
    if a == [] {
      assert a + b == b;
    } else {
      assert (a + b)[0] == a[0] && (a + b)[1..] == a[1..] + b;
      CountsAddUp(a[1..], b);
    }
  }

  /** The record's calories use the chosen rating, and so agree with the estimate then shown. */
  lemma SavedCaloriesMatchEstimate(userId: Option<string>, now: string, durationMinutes: nat, plan: seq<PlanItem>,
                                   rating: nat, feeling: Option<Feeling>, weight: Option<Number>)
    requires SaveRequest(userId, now, durationMinutes, plan, rating, feeling, weight).Some?
    ensures SaveRequest(userId, now, durationMinutes, plan, rating, feeling, weight).value.caloriesBurned
      == Some(Stats(durationMinutes, plan, rating, weight).estimatedCalories)
    ensures SaveRequest(userId, now, durationMinutes, plan, rating, feeling, weight).value.caloriesBurned
      == Some(CaloriesBurned((durationMinutes * 60) as real, Some(Num(rating as real)), weight))
  {
  }

  /** When the button is enabled for a signed-in user, the handler does not refuse. */
  lemma EnabledButtonSaves(userId: Option<string>, now: string, durationMinutes: nat, plan: seq<PlanItem>,
                           saving: bool, rating: nat, feeling: Option<Feeling>, weight: Option<Number>)
    requires userId.Some? && !SaveDisabled(saving, rating, feeling)
    ensures SaveRequest(userId, now, durationMinutes, plan, rating, feeling, weight).Some?
  {
  }

  /** Conversely a refusal can only come from a disabled button or a missing user. */
  lemma RefusalMeansDisabledOrGuest(userId: Option<string>, now: string, durationMinutes: nat, plan: seq<PlanItem>,
                                    rating: nat, feeling: Option<Feeling>, weight: Option<Number>)
    requires SaveRequest(userId, now, durationMinutes, plan, rating, feeling, weight).None?
    ensures userId.None? || SaveDisabled(false, rating, feeling)
  {
  }

  // ---------------------------------------------------------------------------
  // The component's state cells

  class Screen {
    const durationMinutes: nat
    const workoutPlan: seq<PlanItem>
    /** The signed-in user's id, if any. */
    const userId: Option<string>
    /** `profile?.weight`. */
    const weight: Option<Number>
    var rating: nat
    var feeling: Option<Feeling>
    var saving: bool
    var saved: bool
    /** Every `alert` shown, oldest first. */
    var alerts: seq<string>

    constructor (minutes: nat, plan: seq<PlanItem>, user: Option<string>, profileWeight: Option<Number>)
      ensures durationMinutes == minutes && workoutPlan == plan && userId == user && weight == profileWeight
      ensures rating == 0 && feeling == None && !saving && !saved && alerts == []
    {
      durationMinutes, workoutPlan, userId, weight := minutes, plan, user, profileWeight;
      rating, feeling, saving, saved, alerts := 0, None, false, false, [];
    }

    function CurrentStats(): WorkoutStats
      reads this
    {
      Stats(durationMinutes, workoutPlan, rating, weight)
    }

    method SetRating(value: nat)
      modifies this
      ensures rating == value
      ensures feeling == old(feeling) && saving == old(saving) && saved == old(saved) && alerts == old(alerts)
    {
      rating := value;
    }

    method SetFeeling(value: Feeling)
      modifies this
      ensures feeling == Some(value)
      ensures rating == old(rating) && saving == old(saving) && saved == old(saved) && alerts == old(alerts)
    {
      feeling := Some(value);
    }

    /** `handleSaveWorkout` up to its `await`: refuse with an alert, or mark saving and build the record. */
    method BeginSave(now: string) returns (request: Option<NewWorkoutLog>)
      modifies this
      ensures request == SaveRequest(userId, now, durationMinutes, workoutPlan, old(rating), old(feeling), weight)
      ensures request.None? ==> saving == old(saving) && alerts == old(alerts) + [IncompleteFormAlert]
      ensures request.Some? ==> saving && alerts == old(alerts)
      ensures rating == old(rating) && feeling == old(feeling) && saved == old(saved)
    {
      if userId.None? || rating == 0 || feeling.None? {
        alerts := alerts + [IncompleteFormAlert];
        return None;
      }
      saving := true;
      var durationSeconds := durationMinutes * 60;
      var calories := CaloriesBurned(durationSeconds as real, Some(Num(rating as real)), weight);
      request := Some(NewWorkoutLog(userId.value, now, durationSeconds, Some(calories), Some(rating),
                                    feeling, Some(workoutPlan)));
    }

    /** The rest of `handleSaveWorkout`: `saved` only on success, and `saving` cleared either way. */
    method FinishSave(persisted: bool)
      modifies this
      ensures !saving
      ensures saved == (old(saved) || persisted)
      ensures alerts == old(alerts) + (if persisted then [] else [SaveFailedAlert])
      ensures rating == old(rating) && feeling == old(feeling)
    {
      if persisted {
        saved := true;
      } else {
        alerts := alerts + [SaveFailedAlert];
      }
      saving := false;
    }
  }
}
