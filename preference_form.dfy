/**
 * The preference form of the first frontend (`src/components/preferences/PreferenceForm.tsx`):
 * the selected goal, muscles, difficulty and minutes, the muscle toggle, and the submit handler
 * that shows the validator's errors or hands the preferences to `onSubmit`.
 */
module PreferenceForm {
  import opened Wrappers
  import opened Numbers
  import opened Enums
  import opened Validators

  /** `prev.filter((m) => m !== muscle)`. */
  function Without(ms: seq<TargetMuscle>, m: TargetMuscle): (r: seq<TargetMuscle>)
    ensures forall x :: x in r <==> x in ms && x != m
    ensures |r| <= |ms|
  {
    if ms == [] then []
    else if ms[0] == m then Without(ms[1..], m)
    else [ms[0]] + Without(ms[1..], m)
  }

  /** `handleMuscleToggle`'s updater (lines 30-36). */
  function Toggled(ms: seq<TargetMuscle>, m: TargetMuscle): seq<TargetMuscle> {
    if m in ms then Without(ms, m) else ms + [m]
  }

  predicate NoDuplicates(ms: seq<TargetMuscle>) {
    forall i, j :: 0 <= i < j < |ms| ==> ms[i] != ms[j]
  }

  /** The object built at lines 46-51: an unselected (`''`) goal or level becomes `undefined`. */
  function Payload(goal: Option<TrainingGoal>, muscles: seq<TargetMuscle>,
                   level: Option<DifficultyLevel>, minutes: Number): (r: PartialPreferences)
    ensures r.trainingGoal.Some? <==> goal.Some?
    ensures r.difficultyLevel.Some? <==> level.Some?
    ensures r.targetMuscles.Some? && |r.targetMuscles.value| == |muscles|
    ensures forall i :: 0 <= i < |muscles| ==> r.targetMuscles.value[i] == MuscleValue(muscles[i])
    ensures r.availableMinutes == Some(minutes)
  {
    PartialPreferences(
      if goal.Some? then Some(GoalValue(goal.value)) else None,
      Some(seq(|muscles|, i requires 0 <= i < |muscles| => MuscleValue(muscles[i]))),
      if level.Some? then Some(LevelValue(level.value)) else None,
      Some(minutes))
  }

  /** `getMuscleLabel` (lines 231-241); its argument is always one of the six muscles. */
  function MuscleLabel(m: TargetMuscle): (r: string)
    ensures r != ""
  {
    match m
    case Chest => "胸部"
    case Back => "背部"
    case Legs => "腿部"
    case Shoulders => "肩膀"
    case Arms => "手臂"
    case Core => "核心"
  }

  // ---------------------------------------------------------------------------
  // The toggle

  /** Toggling a muscle that is not selected appends it and leaves the others as they are. */
  lemma ToggleAbsentAppends(ms: seq<TargetMuscle>, m: TargetMuscle)
    requires m !in ms
    ensures Toggled(ms, m) == ms + [m]
  {
  }

  /** Removing what is absent changes nothing. */
  lemma {:induction false} WithoutAbsent(ms: seq<TargetMuscle>, m: TargetMuscle)
    requires m !in ms
    ensures Without(ms, m) == ms
  {
    if ms != [] {
      assert ms == [ms[0]] + ms[1..];
      WithoutAbsent(ms[1..], m);
    }
  }

  /** The tail of a duplicate-free list is duplicate-free and lacks the head. */
  lemma TailNoDuplicates(ms: seq<TargetMuscle>)
    requires NoDuplicates(ms) && ms != []
    ensures NoDuplicates(ms[1..]) && ms[0] !in ms[1..]
  {
    forall i, j | 0 <= i < j < |ms[1..]|
      ensures ms[1..][i] != ms[1..][j]
    {
      assert ms[1..][i] == ms[i + 1] && ms[1..][j] == ms[j + 1];
    }
  }

  /** Removing the muscle at `i` from a duplicate-free list deletes exactly that position. */
  lemma {:induction false} WithoutAt(ms: seq<TargetMuscle>, i: nat)
    requires NoDuplicates(ms) && i < |ms|
    ensures Without(ms, ms[i]) == ms[..i] + ms[i + 1..]
  {
    var m := ms[i];
    TailNoDuplicates(ms);
    if i == 0 {
      WithoutAbsent(ms[1..], m);
    } else {
      var tail := ms[1..];
      assert tail[i - 1] == m;
      WithoutAt(tail, i - 1);
      assert ms[0] != m;
      calc {
        Without(ms, m);
        [ms[0]] + Without(tail, m);
        [ms[0]] + (tail[..i - 1] + tail[i..]);
        { assert [ms[0]] + tail[..i - 1] == ms[..i]; assert tail[i..] == ms[i + 1..]; }
        ms[..i] + ms[i + 1..];
      }
    }
  }

  /** Toggling a selected muscle deletes its one occurrence and keeps the order of the rest. */
  lemma TogglePresentRemoves(ms: seq<TargetMuscle>, i: nat)
    requires NoDuplicates(ms) && i < |ms|
    ensures Toggled(ms, ms[i]) == ms[..i] + ms[i + 1..]
  {
    WithoutAt(ms, i);
  }

  /** Any toggle keeps the selection free of duplicates. */
  lemma ToggleKeepsNoDuplicates(ms: seq<TargetMuscle>, m: TargetMuscle)
    requires NoDuplicates(ms)
    ensures NoDuplicates(Toggled(ms, m))
  {
    if m in ms {
      var i :| 0 <= i < |ms| && ms[i] == m;
      TogglePresentRemoves(ms, i);
      var r := ms[..i] + ms[i + 1..];
      forall a, b | 0 <= a < b < |r| ensures r[a] != r[b] {
        var a' := if a < i then a else a + 1;
        var b' := if b < i then b else b + 1;
        assert r[a] == ms[a'] && r[b] == ms[b'] && a' < b';
      }
    } else {
      var r := ms + [m];
      forall a, b | 0 <= a < b < |r| ensures r[a] != r[b] {
        if b == |ms| {
          assert r[a] == ms[a];
        }
      }
    }
  }

  /** Toggling an unselected muscle twice restores the selection. */
  lemma ToggleTwiceRestores(ms: seq<TargetMuscle>, m: TargetMuscle)
    requires NoDuplicates(ms) && m !in ms
    ensures Toggled(Toggled(ms, m), m) == ms
  {
    var added := ms + [m];
    assert added[|ms|] == m;
    assert NoDuplicates(added);
    TogglePresentRemoves(added, |ms|);
    assert added[..|ms|] == ms;
  }

  /**
   * Toggling a selected muscle twice does not restore the selection: the first toggle removes it
   * and the second appends it, so it moves to the end.
   */
  lemma ToggleSelectedTwiceMovesToEnd(ms: seq<TargetMuscle>, i: nat)
    requires NoDuplicates(ms) && i < |ms|
    ensures Toggled(Toggled(ms, ms[i]), ms[i]) == ms[..i] + ms[i + 1..] + [ms[i]]
  {
    var m := ms[i];
    var removed := ms[..i] + ms[i + 1..];
    TogglePresentRemoves(ms, i);
    forall k | 0 <= k < |removed| ensures removed[k] != m {
      var k' := if k < i then k else k + 1;
      assert removed[k] == ms[k'] && k' != i;
    }
    ToggleAbsentAppends(removed, m);
  }

  // ---------------------------------------------------------------------------
  // What a submit can report

  /**
   * The form's own controls only produce enum values, so the validator can only complain about a
   * missing goal, muscle, difficulty or time, or about the time's bounds; and it accepts exactly
   * when all three choices are made, a muscle is selected, and the minutes are in 15..120.
   */
  lemma PayloadErrors(goal: Option<TrainingGoal>, muscles: seq<TargetMuscle>,
                      level: Option<DifficultyLevel>, minutes: Number)
    ensures var p := Payload(goal, muscles, level, minutes);
      PreferenceErrors(p) == [] <==>
        goal.Some? && |muscles| > 0 && level.Some? && minutes.Num? && 15.0 <= minutes.value <= 120.0
    ensures var p := Payload(goal, muscles, level, minutes);
      goal.Some? ==> GoalError(p).None?
    ensures var p := Payload(goal, muscles, level, minutes);
      |muscles| > 0 ==> MusclesError(p).None?
    ensures var p := Payload(goal, muscles, level, minutes);
      level.Some? ==> LevelError(p).None?
  {
    var p := Payload(goal, muscles, level, minutes);
    NoErrorsIffAcceptable(p);
    if |muscles| > 0 {
      MusclesAllValid(p.targetMuscles.value);
    }
    if goal.Some? {
      assert ValidateTrainingGoal(GoalValue(goal.value));
    }
    if level.Some? {
      assert ValidateDifficultyLevel(LevelValue(level.value));
    }
    if PreferenceErrors(p) == [] {
      assert p.trainingGoal.Some? && p.difficultyLevel.Some?;
    }
  }

  /** The form's initial minutes (30) with a chosen goal, muscle and level is submitted as is. */
  lemma CompleteFormIsAccepted()
    ensures var p := Payload(Some(MuscleGain), [Chest], Some(Beginner), Num(30.0));
      p == PartialPreferences(Some("muscle_gain"), Some(["chest"]), Some("beginner"), Some(Num(30.0)))
      && PreferenceErrors(p) == []
  {
    var p := Payload(Some(MuscleGain), [Chest], Some(Beginner), Num(30.0));
    assert p.targetMuscles.value == ["chest"];
    PayloadErrors(Some(MuscleGain), [Chest], Some(Beginner), Num(30.0));
  }

  /** An untouched form is refused with the goal, muscle and difficulty errors, in that order. */
  lemma EmptyFormErrors()
    ensures PreferenceErrors(Payload(None, [], None, Num(30.0))) == [GoalMissing, MusclesMissing, LevelMissing]
  {
  }

  // ---------------------------------------------------------------------------
  // The component's state cells

  class Form {
    var trainingGoal: Option<TrainingGoal>
    var targetMuscles: seq<TargetMuscle>
    var difficultyLevel: Option<DifficultyLevel>
    var availableMinutes: Number
    var errors: seq<string>
    /** Every value handed to `onSubmit`, oldest first. */
    var submitted: seq<PartialPreferences>

    ghost predicate Valid()
      reads this
    {
      NoDuplicates(targetMuscles)
    }

    function CurrentPayload(): PartialPreferences
      reads this
    {
      Payload(trainingGoal, targetMuscles, difficultyLevel, availableMinutes)
    }

    /** The initial state (lines 21-25). */
    constructor ()
      ensures Valid()
      ensures trainingGoal == None && targetMuscles == [] && difficultyLevel == None
      ensures availableMinutes == Num(30.0) && errors == [] && submitted == []
    {
      trainingGoal := None;
      targetMuscles := [];
      difficultyLevel := None;
      availableMinutes := Num(30.0);
      errors := [];
      submitted := [];
    }

    /** The goal buttons (lines 87, 99, 111). */
    method SelectGoal(g: TrainingGoal)
      requires Valid()
      modifies this
      ensures Valid() && trainingGoal == Some(g)
      ensures targetMuscles == old(targetMuscles) && difficultyLevel == old(difficultyLevel)
      ensures availableMinutes == old(availableMinutes) && errors == old(errors) && submitted == old(submitted)
    {
      trainingGoal := Some(g);
    }

    /** The difficulty buttons (lines 155, 167, 179). */
    method SelectDifficulty(d: DifficultyLevel)
      requires Valid()
      modifies this
      ensures Valid() && difficultyLevel == Some(d)
      ensures targetMuscles == old(targetMuscles) && trainingGoal == old(trainingGoal)
      ensures availableMinutes == old(availableMinutes) && errors == old(errors) && submitted == old(submitted)
    {
      difficultyLevel := Some(d);
    }

    /** The time slider (line 205): the parsed slider value. */
    method SetAvailableMinutes(minutes: Number)
      requires Valid()
      modifies this
      ensures Valid() && availableMinutes == minutes
      ensures targetMuscles == old(targetMuscles) && trainingGoal == old(trainingGoal)
      ensures difficultyLevel == old(difficultyLevel) && errors == old(errors) && submitted == old(submitted)
    {
      availableMinutes := minutes;
    }

    method HandleMuscleToggle(m: TargetMuscle)
      requires Valid()
      modifies this
      ensures Valid() && targetMuscles == Toggled(old(targetMuscles), m)
      ensures trainingGoal == old(trainingGoal) && difficultyLevel == old(difficultyLevel)
      ensures availableMinutes == old(availableMinutes) && errors == old(errors) && submitted == old(submitted)
    {
      ToggleKeepsNoDuplicates(targetMuscles, m);
      if m in targetMuscles {
        targetMuscles := Without(targetMuscles, m);
      } else {
        targetMuscles := targetMuscles + [m];
      }
    }

    /**
     * `handleSubmit` (lines 41-62): clear the errors, validate the payload, and either show the
     * validator's errors or call `onSubmit` with the payload.
     */
    method HandleSubmit()
      requires Valid()
      modifies this
      ensures Valid()
      ensures trainingGoal == old(trainingGoal) && targetMuscles == old(targetMuscles)
      ensures difficultyLevel == old(difficultyLevel) && availableMinutes == old(availableMinutes)
      ensures errors == PreferenceErrors(old(CurrentPayload()))
      ensures errors == [] ==> submitted == old(submitted) + [old(CurrentPayload())]
      ensures errors != [] ==> submitted == old(submitted)
    {
      errors := [];
      var preferences := Payload(trainingGoal, targetMuscles, difficultyLevel, availableMinutes);
      var validation := ValidatePreferences(preferences);
      if !validation.isValid {
        errors := validation.errors;
        return;
      }
      submitted := submitted + [preferences];
    }
  }
}
