/** The closed tag sets of the app (`src/types/enums.ts`) and the strings that encode them. */
module Enums {

  datatype TrainingGoal = MuscleGain | WeightLoss | Endurance

  datatype TargetMuscle = Chest | Back | Legs | Shoulders | Arms | Core

  datatype DifficultyLevel = Beginner | Intermediate | Advanced

  function GoalValue(g: TrainingGoal): string {
    match g
    case MuscleGain => "muscle_gain"
    case WeightLoss => "weight_loss"
    case Endurance => "endurance"
  }

  function MuscleValue(m: TargetMuscle): string {
    match m
    case Chest => "chest"
    case Back => "back"
    case Legs => "legs"
    case Shoulders => "shoulders"
    case Arms => "arms"
    case Core => "core"
  }

  function LevelValue(d: DifficultyLevel): string {
    match d
    case Beginner => "beginner"
    case Intermediate => "intermediate"
    case Advanced => "advanced"
  }

  /** `Object.values(TrainingGoal)`, `Object.values(TargetMuscle)`, `Object.values(DifficultyLevel)`. */
  const GoalValues: seq<string> := [GoalValue(MuscleGain), GoalValue(WeightLoss), GoalValue(Endurance)]
  const MuscleValues: seq<string> :=
    [MuscleValue(Chest), MuscleValue(Back), MuscleValue(Legs),
     MuscleValue(Shoulders), MuscleValue(Arms), MuscleValue(Core)]
  const LevelValues: seq<string> := [LevelValue(Beginner), LevelValue(Intermediate), LevelValue(Advanced)]

  /** Distinct muscles are encoded by distinct strings. */
  lemma MuscleValueInjective(a: TargetMuscle, b: TargetMuscle)
    requires MuscleValue(a) == MuscleValue(b)
    ensures a == b
  {
  }
}
