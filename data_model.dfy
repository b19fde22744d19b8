/** The workout-plan records of the first frontend (`src/types/dataModel.ts`). */
module DataModel {
  import opened Wrappers

  /**
   * A catalogue exercise. The tag fields hold the raw database strings; the
   * duration may be absent in a stored row, which every reader treats as 0.
   */
  datatype Exercise = Exercise(
    id: int,
    name: string,
    targetMuscle: string,
    difficultyLevel: string,
    equipmentNeeded: Option<string>,
    description: Option<string>,
    videoUrl: Option<string>,
    durationSeconds: Option<nat>)

  /** One entry of a plan: an exercise with its effort parameters. */
  datatype WorkoutPlanItem = WorkoutPlanItem(exercise: Exercise, sets: nat, reps: nat, restSeconds: nat)

  /** A generated plan; the identifier, timestamp and preference snapshot are not read by the core. */
  datatype WorkoutPlan = WorkoutPlan(exercises: seq<WorkoutPlanItem>, estimatedDurationMinutes: int)

  /** `item.exercise.duration_seconds || 0`. */
  function ItemSeconds(item: WorkoutPlanItem): nat {
    item.exercise.durationSeconds.GetOr(0)
  }
}
