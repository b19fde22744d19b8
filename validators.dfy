/**
 * The input validators of the first frontend (`src/utils/validators.ts`). A preference form
 * may leave any field unset, so every field of `PartialPreferences` is optional; the
 * validators report errors as the app's fixed Chinese messages, at most one per field.
 */
module Validators {
  import opened Wrappers
  import opened Numbers
  import opened Enums

  /** `Partial<UserPreferences>`, restricted to the four fields the validator reads. */
  datatype PartialPreferences = PartialPreferences(
    trainingGoal: Option<string>,
    targetMuscles: Option<seq<string>>,
    difficultyLevel: Option<string>,
    availableMinutes: Option<Number>)

  datatype ValidationResult = ValidationResult(isValid: bool, errors: seq<string>)

  const GoalMissing := "請選擇訓練目標"
  const GoalInvalid := "無效的訓練目標"
  const MusclesMissing := "請至少選擇一個目標肌群"
  const MusclesInvalidPrefix := "無效的目標肌群: "
  const LevelMissing := "請選擇難度等級"
  const LevelInvalid := "無效的難度等級"
  const MinutesMissing := "請輸入可用訓練時間"
  const MinutesTooShort := "訓練時間至少需要 15 分鐘"
  const MinutesTooLong := "訓練時間不應超過 120 分鐘"
  const MinutesNotANumber := "訓練時間必須是數字"
  const EquipmentNotAnArray := "裝備列表必須是陣列"

  // ---------------------------------------------------------------------------
  // Membership in the closed enums (lines 65-81)

  function ValidateTrainingGoal(s: string): (r: bool)
    ensures r <==> exists g :: GoalValue(g) == s
  {
    assert GoalValues == [GoalValue(MuscleGain), GoalValue(WeightLoss), GoalValue(Endurance)];
    s in GoalValues
  }

  function ValidateTargetMuscle(s: string): (r: bool)
    ensures r <==> exists m :: MuscleValue(m) == s
  {
    assert MuscleValues == [MuscleValue(Chest), MuscleValue(Back), MuscleValue(Legs),
                            MuscleValue(Shoulders), MuscleValue(Arms), MuscleValue(Core)];
    s in MuscleValues
  }

  function ValidateDifficultyLevel(s: string): (r: bool)
    ensures r <==> exists d :: LevelValue(d) == s
  {
    assert LevelValues == [LevelValue(Beginner), LevelValue(Intermediate), LevelValue(Advanced)];
    s in LevelValues
  }

  // ---------------------------------------------------------------------------
  // One error per field

  /** `!x` on an optional string: unset or empty. */
  predicate FalsyString(o: Option<string>) {
    o.None? || o.value == ""
  }

  /** `!x` on an optional number: unset, zero or NaN. */
  predicate FalsyNumber(o: Option<Number>) {
    o.None? || o.value.NaN? || o.value.value == 0.0
  }

  /** The entries that are not a muscle, in input order (`filter`, lines 32-34). */
  function InvalidMuscles(muscles: seq<string>): (r: seq<string>)
    ensures forall x :: x in r <==> x in muscles && !ValidateTargetMuscle(x)
    ensures |r| <= |muscles|
  {
    if muscles == [] then []
    else
      var rest := InvalidMuscles(muscles[1..]);
      if ValidateTargetMuscle(muscles[0]) then rest else [muscles[0]] + rest
  }

  /** `Array.prototype.join(', ')`. */
  function Join(items: seq<string>): (r: string)
    ensures |items| == 0 ==> r == ""
    ensures |items| == 1 ==> r == items[0]
  {
    if items == [] then ""
    else if |items| == 1 then items[0]
    else items[0] + ", " + Join(items[1..])
  }

  function GoalError(p: PartialPreferences): Option<string> {
    if FalsyString(p.trainingGoal) then Some(GoalMissing)
    else if !ValidateTrainingGoal(p.trainingGoal.value) then Some(GoalInvalid)
    else None
  }

  function MusclesError(p: PartialPreferences): Option<string> {
    if p.targetMuscles.None? || |p.targetMuscles.value| == 0 then Some(MusclesMissing)
    else
      var invalid := InvalidMuscles(p.targetMuscles.value);
      if |invalid| > 0 then Some(MusclesInvalidPrefix + Join(invalid)) else None
  }

  function LevelError(p: PartialPreferences): Option<string> {
    if FalsyString(p.difficultyLevel) then Some(LevelMissing)
    else if !ValidateDifficultyLevel(p.difficultyLevel.value) then Some(LevelInvalid)
    else None
  }

  function MinutesError(p: PartialPreferences): Option<string> {
    if FalsyNumber(p.availableMinutes) then Some(MinutesMissing)
    else if p.availableMinutes.value.value < 15.0 then Some(MinutesTooShort)
    else if p.availableMinutes.value.value > 120.0 then Some(MinutesTooLong)
    else None
  }

  function AsSeq(o: Option<string>): seq<string> {
    if o.Some? then [o.value] else []
  }

  /** The errors `validatePreferences` collects, field by field. */
  function PreferenceErrors(p: PartialPreferences): seq<string> {
    AsSeq(GoalError(p)) + AsSeq(MusclesError(p)) + AsSeq(LevelError(p)) + AsSeq(MinutesError(p))
  }

  /** A complete, well-formed preference: enum values, at least one muscle, 15 to 120 minutes. */
  predicate Acceptable(p: PartialPreferences) {
    && (exists g :: p.trainingGoal == Some(GoalValue(g)))
    && p.targetMuscles.Some? && |p.targetMuscles.value| > 0
    && (forall i :: 0 <= i < |p.targetMuscles.value| ==>
          exists m :: MuscleValue(m) == p.targetMuscles.value[i])
    && (exists d :: p.difficultyLevel == Some(LevelValue(d)))
    && p.availableMinutes.Some? && p.availableMinutes.value.Num?
    && 15.0 <= p.availableMinutes.value.value <= 120.0
  }

  // ---------------------------------------------------------------------------
  // The validators

  /** `validatePreferences` (lines 18-60): pushes each field's error in turn. */
  method ValidatePreferences(p: PartialPreferences) returns (result: ValidationResult)
    ensures result.errors == PreferenceErrors(p)
    ensures result.isValid <==> |result.errors| == 0
  {
    var errors: seq<string> := [];

    if FalsyString(p.trainingGoal) {
      errors := errors + [GoalMissing];
    } else if !ValidateTrainingGoal(p.trainingGoal.value) {
      errors := errors + [GoalInvalid];
    }
    assert errors == AsSeq(GoalError(p));

    if p.targetMuscles.None? || |p.targetMuscles.value| == 0 {
      errors := errors + [MusclesMissing];
    } else {
      var invalidMuscles := InvalidMuscles(p.targetMuscles.value);
      if |invalidMuscles| > 0 {
        errors := errors + [MusclesInvalidPrefix + Join(invalidMuscles)];
      }
    }
    assert errors == AsSeq(GoalError(p)) + AsSeq(MusclesError(p));

    if FalsyString(p.difficultyLevel) {
      errors := errors + [LevelMissing];
    } else if !ValidateDifficultyLevel(p.difficultyLevel.value) {
      errors := errors + [LevelInvalid];
    }
    assert errors == AsSeq(GoalError(p)) + AsSeq(MusclesError(p)) + AsSeq(LevelError(p));

    if FalsyNumber(p.availableMinutes) {
      errors := errors + [MinutesMissing];
    } else if p.availableMinutes.value.value < 15.0 {
      errors := errors + [MinutesTooShort];
    } else if p.availableMinutes.value.value > 120.0 {
      errors := errors + [MinutesTooLong];
    }

    result := ValidationResult(|errors| == 0, errors);
  }

  /** `validateAvailableMinutes` (lines 86-101). */
  method ValidateAvailableMinutes(minutes: Number) returns (result: ValidationResult)
    ensures minutes.NaN? ==> result.errors == [MinutesNotANumber]
    ensures minutes.Num? && minutes.value < 15.0 ==> result.errors == [MinutesTooShort]
    ensures minutes.Num? && minutes.value > 120.0 ==> result.errors == [MinutesTooLong]
    ensures minutes.Num? && 15.0 <= minutes.value <= 120.0 ==> result.errors == []
    ensures result.isValid <==> |result.errors| == 0
  {
    var errors: seq<string> := [];
    if minutes.NaN? {
      errors := errors + [MinutesNotANumber];
    } else if minutes.value < 15.0 {
      errors := errors + [MinutesTooShort];
    } else if minutes.value > 120.0 {
      errors := errors + [MinutesTooLong];
    }
    result := ValidationResult(|errors| == 0, errors);
  }

  /** The value handed to `validateEquipment`: an array, or anything else. */
  datatype EquipmentInput = ArrayValue(items: seq<string>) | NotAnArray

  /** `validateEquipment` (lines 106-118): every array is accepted, an empty one included. */
  method ValidateEquipment(equipment: EquipmentInput) returns (result: ValidationResult)
    ensures equipment.ArrayValue? ==> result == ValidationResult(true, [])
    ensures equipment.NotAnArray? ==> result == ValidationResult(false, [EquipmentNotAnArray])
  {
    var errors: seq<string> := [];
    if !equipment.ArrayValue? {
      errors := errors + [EquipmentNotAnArray];
    }
    result := ValidationResult(|errors| == 0, errors);
  }

  // ---------------------------------------------------------------------------
  // Properties

  /** The list has no errors exactly when the preference is complete and well formed. */
  lemma NoErrorsIffAcceptable(p: PartialPreferences)
    ensures PreferenceErrors(p) == [] <==> Acceptable(p)
  {
    if PreferenceErrors(p) == [] {
      var ms := p.targetMuscles.value;
      forall i | 0 <= i < |ms|
        ensures exists m :: MuscleValue(m) == ms[i]
      {
        assert ms[i] in ms;
        assert !(ms[i] in InvalidMuscles(ms));
      }
      assert Acceptable(p);
    }
    if Acceptable(p) {
      var g :| p.trainingGoal == Some(GoalValue(g));
      assert GoalError(p).None?;
      var ms := p.targetMuscles.value;
      MusclesAllValid(ms);
      assert MusclesError(p).None?;
      var d :| p.difficultyLevel == Some(LevelValue(d));
      assert LevelError(p).None?;
      assert MinutesError(p).None?;
    }
  }

  /** A list of muscles has no invalid entry. */
  lemma {:induction false} MusclesAllValid(ms: seq<string>)
    requires forall i :: 0 <= i < |ms| ==> exists m :: MuscleValue(m) == ms[i]
    ensures InvalidMuscles(ms) == []
  {
    if ms != [] {
      assert forall i :: 0 <= i < |ms[1..]| ==> ms[1..][i] == ms[i + 1];
      MusclesAllValid(ms[1..]);
      assert exists m :: MuscleValue(m) == ms[0];
    }
  }

  /**
   * At most one error per field, in field order: so never more than four, a goal error comes
   * first, and a minutes error comes last.
   */
  lemma ErrorsInFieldOrder(p: PartialPreferences)
    ensures |PreferenceErrors(p)| <= 4
    ensures GoalError(p).Some? ==> PreferenceErrors(p)[0] == GoalError(p).value
    ensures MinutesError(p).Some? ==>
      PreferenceErrors(p)[|PreferenceErrors(p)| - 1] == MinutesError(p).value
    ensures GoalError(p).None? && MusclesError(p).Some? ==> PreferenceErrors(p)[0] == MusclesError(p).value
  {
  }

  /** Each field's message tells which rule failed (lines 22-26, 41-45, 48-54). */
  lemma FieldMessages(p: PartialPreferences)
    ensures FalsyString(p.trainingGoal) ==> GoalError(p) == Some(GoalMissing)
    ensures (p.trainingGoal.Some? && p.trainingGoal.value != ""
             && forall g :: GoalValue(g) != p.trainingGoal.value)
            ==> GoalError(p) == Some(GoalInvalid)
    ensures (exists g :: p.trainingGoal == Some(GoalValue(g))) ==> GoalError(p).None?
    ensures FalsyString(p.difficultyLevel) ==> LevelError(p) == Some(LevelMissing)
    ensures (p.difficultyLevel.Some? && p.difficultyLevel.value != ""
             && forall d :: LevelValue(d) != p.difficultyLevel.value)
            ==> LevelError(p) == Some(LevelInvalid)
    ensures (exists d :: p.difficultyLevel == Some(LevelValue(d))) ==> LevelError(p).None?
    ensures (p.targetMuscles.None? || p.targetMuscles == Some([])) ==> MusclesError(p) == Some(MusclesMissing)
    ensures FalsyNumber(p.availableMinutes) ==> MinutesError(p) == Some(MinutesMissing)
    ensures (p.availableMinutes.Some? && p.availableMinutes.value.Num?
             && p.availableMinutes.value.value != 0.0 && p.availableMinutes.value.value < 15.0)
            ==> MinutesError(p) == Some(MinutesTooShort)
    ensures (p.availableMinutes.Some? && p.availableMinutes.value.Num?
             && p.availableMinutes.value.value > 120.0)
            ==> MinutesError(p) == Some(MinutesTooLong)
    ensures (p.availableMinutes.Some? && p.availableMinutes.value.Num?
             && 15.0 <= p.availableMinutes.value.value <= 120.0)
            ==> MinutesError(p).None?
  {
  }

  /** Filtering keeps input order: the invalid entries of a concatenation are concatenated. */
  lemma {:induction false} InvalidMusclesOfConcat(a: seq<string>, b: seq<string>)
    ensures InvalidMuscles(a + b) == InvalidMuscles(a) + InvalidMuscles(b)
  {
    if a == [] {
      assert a + b == b;
    } else {
      assert (a + b)[0] == a[0];
      assert (a + b)[1..] == a[1..] + b;
      InvalidMusclesOfConcat(a[1..], b);
    }
  }

  /** A list of non-muscles is reported whole, in its own order. */
  lemma {:induction false} AllInvalidReportedInOrder(muscles: seq<string>)
    requires forall i :: 0 <= i < |muscles| ==> !ValidateTargetMuscle(muscles[i])
    ensures InvalidMuscles(muscles) == muscles
  {
    if muscles != [] {
      AllInvalidReportedInOrder(muscles[1..]);
    }
  }

  /** Joining two non-empty lists is joining each, with one ", " between them. */
  lemma {:induction false} JoinOfConcat(a: seq<string>, b: seq<string>)
    requires a != [] && b != []
    ensures Join(a + b) == Join(a) + ", " + Join(b)
    decreases |a|
  {
    assert (a + b)[0] == a[0];
    assert (a + b)[1..] == a[1..] + b;
    if |a| > 1 {
      JoinOfConcat(a[1..], b);
    }
  }

  /** Every item follows its predecessor after a ", ", in list order. */
  lemma JoinAppend(a: seq<string>, x: string)
    requires a != []
    ensures Join(a + [x]) == Join(a) + ", " + x
  {
    JoinOfConcat(a, [x]);
  }

  /** A list of non-muscles is named whole in the message, each entry after a ", ", in order. */
  lemma AllInvalidNamedInMessage(muscles: seq<string>)
    requires muscles != []
    requires forall i :: 0 <= i < |muscles| ==> !ValidateTargetMuscle(muscles[i])
    ensures MusclesError(PartialPreferences(None, Some(muscles), None, None)) == Some(MusclesInvalidPrefix + Join(muscles))
  {
    AllInvalidReportedInOrder(muscles);
  }

  /** `['chest', 'wings', 'tail']` is reported as one error naming both bad entries. */
  lemma MusclesErrorExample()
    ensures MusclesError(PartialPreferences(None, Some(["chest", "wings", "tail"]), None, None))
      == Some("無效的目標肌群: wings, tail")
  {
    var ms := ["chest", "wings", "tail"];
    assert ValidateTargetMuscle("chest");
    assert !ValidateTargetMuscle("wings") && !ValidateTargetMuscle("tail");
    assert ms[1..] == ["wings", "tail"] && ms[1..][1..] == ["tail"];
    assert InvalidMuscles(ms) == ["wings", "tail"];
    assert Join(["wings", "tail"]) == "wings" + ", " + "tail";
    assert Join(["wings", "tail"]) == "wings, tail";
    assert MusclesInvalidPrefix + "wings, tail" == "無效的目標肌群: wings, tail";
  }

  /**
   * The stand-alone minutes check and the form's minutes check agree on every non-zero number;
   * they differ on NaN (not a number, versus missing) and on 0 (too short, versus missing).
   */
  lemma MinuteChecksAgree(minutes: Number)
    ensures minutes.Num? && minutes.value != 0.0 ==>
      AsSeq(MinutesError(PartialPreferences(None, None, None, Some(minutes))))
      == (if minutes.value < 15.0 then [MinutesTooShort]
          else if minutes.value > 120.0 then [MinutesTooLong] else [])
    ensures MinutesError(PartialPreferences(None, None, None, Some(NaN))) == Some(MinutesMissing)
    ensures MinutesError(PartialPreferences(None, None, None, Some(Num(0.0)))) == Some(MinutesMissing)
  {
  }
}
