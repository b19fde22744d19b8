/**
 * The exercise card of the first frontend (`src/components/workout/ExerciseCard.tsx`): its
 * expand/collapse state and its two label lookups, each of which echoes an unknown key.
 */
module ExerciseCard {
  import opened Wrappers
  import opened Enums

  /** The `labels` record of `getDifficultyLabel` (lines 203-207). */
  const DifficultyLabels: map<string, string> := map["beginner" := "初學者", "intermediate" := "中階", "advanced" := "進階"]

  /** The `labels` record of `getMuscleLabel` (lines 215-222). */
  const MuscleLabels: map<string, string> :=
    map["chest" := "胸部", "back" := "背部", "legs" := "腿部", "shoulders" := "肩膀", "arms" := "手臂", "core" := "核心"]

  /** `labels[key] || key`: the label, or the key itself when the record has none. */
  function LabelOr(labels: map<string, string>, key: string): (r: string)
    ensures key in labels && labels[key] != "" ==> r == labels[key]
    ensures !(key in labels && labels[key] != "") ==> r == key
  {
    if key in labels && labels[key] != "" then labels[key] else key
  }

  /** `getDifficultyLabel` (lines 202-209). */
  function DifficultyLabel(level: string): (r: string)
    ensures level in DifficultyLabels ==> r == DifficultyLabels[level] && r != level
    ensures level !in DifficultyLabels ==> r == level
  {
    LabelOr(DifficultyLabels, level)
  }

  /** `getMuscleLabel` (lines 214-224). */
  function MuscleLabel(muscle: string): (r: string)
    ensures muscle in MuscleLabels ==> r == MuscleLabels[muscle] && r != muscle
    ensures muscle !in MuscleLabels ==> r == muscle
  {
    LabelOr(MuscleLabels, muscle)
  }

  /** A card flips on Enter and Space only (lines 31-36). */
  predicate TogglesOnKey(key: string) {
    key == "Enter" || key == " "
  }

  /** `onClick` (line 27): the card flips. */
  function AfterClick(expanded: bool): bool {
    !expanded
  }

  /** `onKeyDown` (lines 31-36): the card flips on a toggle key and is left alone otherwise. */
  function AfterKeyDown(expanded: bool, key: string): bool {
    if TogglesOnKey(key) then !expanded else expanded
  }

  // ---------------------------------------------------------------------------
  // Properties

  /** Every difficulty level has its own label, and a label is echoed only for unknown strings. */
  lemma DifficultyLabelsOfLevels(d: DifficultyLevel)
    ensures DifficultyLabel(LevelValue(d)) != LevelValue(d)
    ensures DifficultyLabel(LevelValue(Beginner)) == "初學者"
    ensures DifficultyLabel(LevelValue(Intermediate)) == "中階"
    ensures DifficultyLabel(LevelValue(Advanced)) == "進階"
    ensures forall s :: DifficultyLabel(s) == s <==> s !in DifficultyLabels
  {
  }

  /** Every target muscle has a label, and distinct muscles have distinct labels. */
  lemma MuscleLabelsOfMuscles(a: TargetMuscle, b: TargetMuscle)
    ensures MuscleLabel(MuscleValue(a)) != MuscleValue(a)
    ensures MuscleLabel(MuscleValue(a)) == MuscleLabel(MuscleValue(b)) ==> a == b
    ensures forall s :: MuscleLabel(s) == s <==> s !in MuscleLabels
  {
  }

  /** Flipping exactly on Enter and Space; pressing the same key twice restores the card. */
  lemma KeyDownTogglesOnlyOnEnterOrSpace(expanded: bool, key: string)
    ensures AfterKeyDown(expanded, key) != expanded <==> key == "Enter" || key == " "
    ensures AfterKeyDown(AfterKeyDown(expanded, key), key) == expanded
    ensures AfterKeyDown(expanded, "Enter") == AfterKeyDown(expanded, " ") == AfterClick(expanded)
  {
  }

  // ---------------------------------------------------------------------------
  // The component's state cell

  class Card {
    var isExpanded: bool

    /** `useState(defaultExpanded)` with `defaultExpanded = false` when not given (lines 18-20). */
    constructor (defaultExpanded: Option<bool>)
      ensures isExpanded == defaultExpanded.GetOr(false)
    {
      isExpanded := defaultExpanded.GetOr(false);
    }

    /** `onClick` (line 27). */
    method HandleClick()
      modifies this
      ensures isExpanded == AfterClick(old(isExpanded))
    {
      isExpanded := !isExpanded;
    }

    /** `onKeyDown` (lines 31-36). */
    method HandleKeyDown(key: string)
      modifies this
      ensures isExpanded == AfterKeyDown(old(isExpanded), key)
    {
      if key == "Enter" || key == " " {
        isExpanded := !isExpanded;
      }
    }
  }
}
