/**
 * The records of the second frontend (`frontend/types/db.ts`), and the plan item they
 * embed. The plan item is declared in `frontend/types/app.ts`, which is not part of this
 * model; its fields here are exactly those the core reads.
 */
module DbTypes {
  import opened Wrappers

  /** A catalogue exercise; `tags` encode extra attributes such as `muscle:chest`. */
  datatype Exercise = Exercise(
    id: string,
    name: string,
    description: string,
    videoUrl: string,
    durationSeconds: nat,
    tags: Option<seq<string>>)

  /** The `type` of a plan item: 'exercise' or 'rest'. */
  datatype ItemKind = ExerciseItem | RestItem

  /** A timed unit of a plan: its kind, display title, duration in seconds and, for exercises, the exercise. */
  datatype PlanItem = PlanItem(kind: ItemKind, title: string, duration: nat, exercise: Option<Exercise>)

  datatype Feeling = Easy | Good | Hard

  /** A stored workout record. `exercises_completed` may come back null from the database. */
  datatype WorkoutLog = WorkoutLog(
    id: string,
    userId: string,
    workoutDate: string,
    durationSeconds: int,
    caloriesBurned: Option<int>,
    difficultyRating: Option<int>,
    feeling: Option<Feeling>,
    exercisesCompleted: Option<seq<PlanItem>>,
    createdAt: string)

  /** The record handed to `saveWorkoutLog`: a workout log without `id` and `created_at`. */
  datatype NewWorkoutLog = NewWorkoutLog(
    userId: string,
    workoutDate: string,
    durationSeconds: int,
    caloriesBurned: Option<int>,
    difficultyRating: Option<int>,
    feeling: Option<Feeling>,
    exercisesCompleted: Option<seq<PlanItem>>)
}
