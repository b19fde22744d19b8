/**
 * `calculateCaloriesBurned` of the second frontend (`frontend/services/workoutLogService.ts`,
 * lines 131-155): calories = MET x weight (kg) x hours, with the MET value looked up from the
 * rounded and clamped difficulty rating. Arithmetic is exact (reals) up to the final `Math.round`.
 */
module WorkoutLogService {
  import opened Wrappers
  import opened Numbers

  /** The MET value of each rating (lines 139-145). */
  const MetTable: map<int, real> := map[1 := 3.0, 2 := 4.0, 3 := 5.0, 4 := 6.0, 5 := 8.0]

  const DefaultRating: real := 3.0
  const DefaultWeight: real := 70.0
  /** The MET value used when the table has no entry (line 149). */
  const FallbackMet: real := 5.0

  /** `Math.max(1, Math.min(5, Math.round(r)))` (line 148); NaN stays NaN, written `None`. */
  function ValidRating(rating: Number): (r: Option<int>)
    ensures rating.NaN? <==> r.None?
    ensures r.Some? ==> 1 <= r.value <= 5 && r.value in MetTable
  {
    if rating.NaN? then None else Some(Clamp(Round(rating.value), 1, 5))
  }

  /** `metValues[validRating] || 5.0` (line 149). */
  function Met(validRating: Option<int>): real {
    if validRating.Some? && validRating.value in MetTable && MetTable[validRating.value] != 0.0
    then MetTable[validRating.value]
    else FallbackMet
  }

  /** `userWeight > 0 ? userWeight : 70` (line 152). */
  function EffectiveWeight(weight: Number): (r: real)
    ensures r > 0.0
    ensures weight.Num? && weight.value > 0.0 ==> r == weight.value
    ensures !(weight.Num? && weight.value > 0.0) ==> r == DefaultWeight
  {
    if weight.Num? && weight.value > 0.0 then weight.value else DefaultWeight
  }

  /**
   * `calculateCaloriesBurned(durationSeconds, difficultyRating = 3, userWeight = 70)`; an omitted
   * argument is `None`.
   */
  function CaloriesBurned(durationSeconds: real, difficultyRating: Option<Number>, userWeight: Option<Number>): (r: int)
    ensures durationSeconds == 0.0 ==> r == 0
    ensures durationSeconds >= 0.0 ==> r >= 0
  {
    var durationHours := durationSeconds / 3600.0;
    var met := Met(ValidRating(difficultyRating.GetOr(Num(DefaultRating))));
    var weight := EffectiveWeight(userWeight.GetOr(Num(DefaultWeight)));
    assert met > 0.0 && weight > 0.0;
    assert durationSeconds >= 0.0 ==> met * weight * durationHours >= 0.0;
    Round(met * weight * durationHours)
  }

  // ---------------------------------------------------------------------------
  // Properties

  /** Half an hour at the moderate rating for 70 kg is 175 kcal, and these are also the defaults. */
  lemma CaloriesExamples()
    ensures CaloriesBurned(1800.0, Some(Num(3.0)), Some(Num(70.0))) == 175
    ensures CaloriesBurned(1800.0, None, None) == 175
  {
    assert ValidRating(Num(3.0)) == Some(3);
    assert Met(Some(3)) == 5.0;
    assert 5.0 * 70.0 * (1800.0 / 3600.0) == 175.0;
  }

  /** An omitted rating counts as 3 and an omitted weight as 70 kg, for every duration. */
  lemma OmittedArgumentsAreDefaults(durationSeconds: real, rating: Option<Number>, w: Option<Number>)
    ensures CaloriesBurned(durationSeconds, None, w) == CaloriesBurned(durationSeconds, Some(Num(DefaultRating)), w)
    ensures CaloriesBurned(durationSeconds, rating, None) == CaloriesBurned(durationSeconds, rating, Some(Num(DefaultWeight)))
    ensures DefaultRating == 3.0 && DefaultWeight == 70.0
  {
  }

  /** The estimate depends on the rating only through its rounded and clamped value. */
  lemma SameRatingSameCalories(durationSeconds: real, a: Number, b: Number, w: Option<Number>)
    requires ValidRating(a) == ValidRating(b)
    ensures CaloriesBurned(durationSeconds, Some(a), w) == CaloriesBurned(durationSeconds, Some(b), w)
  {
  }

  /** Ratings outside 1..5 are clamped: 99 counts as 5 and -3 as 1; 2.4 rounds to 2. */
  lemma RatingsAreClamped(durationSeconds: real, w: Option<Number>)
    ensures CaloriesBurned(durationSeconds, Some(Num(99.0)), w) == CaloriesBurned(durationSeconds, Some(Num(5.0)), w)
    ensures CaloriesBurned(durationSeconds, Some(Num(-3.0)), w) == CaloriesBurned(durationSeconds, Some(Num(1.0)), w)
    ensures CaloriesBurned(durationSeconds, Some(Num(2.4)), w) == CaloriesBurned(durationSeconds, Some(Num(2.0)), w)
  {
    assert ValidRating(Num(99.0)) == Some(5) == ValidRating(Num(5.0));
    SameRatingSameCalories(durationSeconds, Num(99.0), Num(5.0), w);
    assert ValidRating(Num(-3.0)) == Some(1) == ValidRating(Num(1.0));
    SameRatingSameCalories(durationSeconds, Num(-3.0), Num(1.0), w);
    assert ValidRating(Num(2.4)) == Some(2) == ValidRating(Num(2.0));
    SameRatingSameCalories(durationSeconds, Num(2.4), Num(2.0), w);
  }

  /** Every finite rating finds its MET value in the table; only NaN reaches the 5.0 fallback. */
  lemma FallbackOnlyForNaN(rating: Number)
    ensures rating.Num? ==> Met(ValidRating(rating)) == MetTable[ValidRating(rating).value]
    ensures rating.NaN? ==> Met(ValidRating(rating)) == FallbackMet
    ensures 3.0 <= Met(ValidRating(rating)) <= 8.0
  {
  }

  /** A weight that is not positive (or NaN) counts as 70 kg. */
  lemma NonPositiveWeightIsDefault(durationSeconds: real, rating: Option<Number>, w: real)
    requires w <= 0.0
    ensures CaloriesBurned(durationSeconds, rating, Some(Num(w))) == CaloriesBurned(durationSeconds, rating, None)
    ensures CaloriesBurned(durationSeconds, rating, Some(NaN)) == CaloriesBurned(durationSeconds, rating, None)
  {
  }

  /** The MET value never decreases as the rating grows. */
  lemma MetMonotone(x: real, y: real)
    requires x <= y
    ensures Met(ValidRating(Num(x))) <= Met(ValidRating(Num(y)))
  {
    RoundMonotone(x, y);
  }

  /** The rounded product grows with its first factor when the others are not negative. */
  lemma ProductRoundMonotone(a: real, b: real, weight: real, hours: real)
    requires a <= b && weight >= 0.0 && hours >= 0.0
    ensures Round(a * weight * hours) <= Round(b * weight * hours)
  {
    assert weight * hours >= 0.0;
    assert a * (weight * hours) <= b * (weight * hours);
    assert a * weight * hours == a * (weight * hours);
    assert b * weight * hours == b * (weight * hours);
    RoundMonotone(a * weight * hours, b * weight * hours);
  }

  /** For a fixed non-negative duration and weight, a higher rating never gives fewer calories. */
  lemma CaloriesMonotoneInRating(durationSeconds: real, x: real, y: real, w: Option<Number>)
    requires durationSeconds >= 0.0 && x <= y
    ensures CaloriesBurned(durationSeconds, Some(Num(x)), w) <= CaloriesBurned(durationSeconds, Some(Num(y)), w)
  {
    MetMonotone(x, y);
    ProductRoundMonotone(Met(ValidRating(Num(x))), Met(ValidRating(Num(y))),
                         EffectiveWeight(w.GetOr(Num(DefaultWeight))), durationSeconds / 3600.0);
  }
}
