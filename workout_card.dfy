/**
 * The label lookups of the workout card (`src/components/workout/WorkoutCard.tsx`), a second copy of
 * those on the exercise card, shown here to agree with them on every input.
 */
module WorkoutCard {
  import opened Enums
  import ExerciseCard
  import PreferenceForm

  /** The `labels` record of `getDifficultyLabel` (lines 72-76). */
  const DifficultyLabels: map<string, string> := map["beginner" := "初學者", "intermediate" := "中階", "advanced" := "進階"]

  /** The `labels` record of `getMuscleLabel` (lines 84-91). */
  const MuscleLabels: map<string, string> :=
    map["chest" := "胸部", "back" := "背部", "legs" := "腿部", "shoulders" := "肩膀", "arms" := "手臂", "core" := "核心"]

  /** `getDifficultyLabel` (lines 71-78). */
  function DifficultyLabel(level: string): (r: string)
    ensures level in DifficultyLabels ==> r == DifficultyLabels[level] && r != level
    ensures level !in DifficultyLabels ==> r == level
  {
    ExerciseCard.LabelOr(DifficultyLabels, level)
  }

  /** `getMuscleLabel` (lines 83-93). */
  function MuscleLabel(muscle: string): (r: string)
    ensures muscle in MuscleLabels ==> r == MuscleLabels[muscle] && r != muscle
    ensures muscle !in MuscleLabels ==> r == muscle
  {
    ExerciseCard.LabelOr(MuscleLabels, muscle)
  }

  /** Both cards label every string the same way. */
  lemma AgreesWithExerciseCard(s: string)
    ensures DifficultyLabel(s) == ExerciseCard.DifficultyLabel(s)
    ensures MuscleLabel(s) == ExerciseCard.MuscleLabel(s)
  {
    assert DifficultyLabels == ExerciseCard.DifficultyLabels;
    assert MuscleLabels == ExerciseCard.MuscleLabels;
  }

  /** And the preference form's muscle chips carry the same labels as the cards. */
  lemma AgreesWithPreferenceForm(m: TargetMuscle)
    ensures MuscleLabel(MuscleValue(m)) == PreferenceForm.MuscleLabel(m)
    ensures ExerciseCard.MuscleLabel(MuscleValue(m)) == PreferenceForm.MuscleLabel(m)
  {
    AgreesWithExerciseCard(MuscleValue(m));
  }
}
