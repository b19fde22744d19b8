/**
 * The timer state machine of the first frontend (`src/hooks/usePlayer.ts`).
 *
 * The hook's six state cells form a `PlayerState`. Each command and the once-per-second
 * interval callback is a function from the old state to the new one; where the source
 * relies on its index-change effect (lines 71-75) to reload the remaining time, that
 * reload is part of the command's post-state. The class `Player` holds the cells as
 * fields and its methods are proved to follow these functions.
 */
module UsePlayer {
  import opened DataModel
  import Clock

  datatype PlayerState = PlayerState(
    index: nat,
    remaining: nat,
    elapsed: nat,
    isPlaying: bool,
    isPaused: bool,
    isCompleted: bool)

  /** The duration of item `i`, or 0 when there is no such item (`plan[i]?.… || 0`). */
  function DurationAt(plan: seq<WorkoutPlanItem>, i: nat): nat {
    if i < |plan| then ItemSeconds(plan[i]) else 0
  }

  /** The index is always a valid item (0 for an empty plan) and remaining never exceeds its duration. */
  predicate Inv(plan: seq<WorkoutPlanItem>, s: PlayerState) {
    if |plan| == 0 then s.index == 0 && s.remaining == 0
    else s.index < |plan| && s.remaining <= ItemSeconds(plan[s.index])
  }

  /** The state once the hook has mounted and its effects have run (lines 38-43, 71-75, 157-162). */
  function Load(plan: seq<WorkoutPlanItem>): PlayerState {
    if |plan| == 0 then PlayerState(0, 0, 0, false, false, true)
    else PlayerState(0, ItemSeconds(plan[0]), 0, true, false, false)
  }

  /** One firing of the interval callback (lines 79-101), followed by the index-change effect. */
  function AfterTick(plan: seq<WorkoutPlanItem>, s: PlayerState): PlayerState {
    if s.isCompleted || !s.isPlaying || s.isPaused || |plan| == 0 then s
    else if s.remaining <= 1 then
      if s.index + 1 >= |plan| then s.(remaining := 0, isCompleted := true, isPlaying := false)
      else s.(index := s.index + 1, remaining := ItemSeconds(plan[s.index + 1]))
    else s.(remaining := s.remaining - 1, elapsed := s.elapsed + 1)
  }

  /** `pause` (lines 116-119). */
  function AfterPause(s: PlayerState): PlayerState {
    s.(isPaused := true, isPlaying := false)
  }

  /** `resume` (lines 121-124); `play` (lines 111-114) sets the same two flags. */
  function AfterResume(s: PlayerState): PlayerState {
    s.(isPaused := false, isPlaying := true)
  }

  /** `next` (lines 126-135), followed by the index-change effect. */
  function AfterNext(plan: seq<WorkoutPlanItem>, s: PlayerState): PlayerState {
    if s.index < |plan| - 1 then
      s.(index := s.index + 1, elapsed := s.elapsed + s.remaining, remaining := ItemSeconds(plan[s.index + 1]))
    else
      s.(isCompleted := true, isPlaying := false)
  }

  /** `previous` (lines 137-145): it subtracts the duration of the item being left. */
  function AfterPrevious(plan: seq<WorkoutPlanItem>, s: PlayerState): PlayerState {
    if s.index > 0 then
      var adjusted := s.elapsed - DurationAt(plan, s.index) + s.remaining;
      s.(index := s.index - 1,
         elapsed := if adjusted < 0 then 0 else adjusted,
         remaining := DurationAt(plan, s.index - 1))
    else s
  }

  /** `reset` (lines 147-154): it ignores the state it is called in. */
  function AfterReset(plan: seq<WorkoutPlanItem>): PlayerState {
    PlayerState(0, DurationAt(plan, 0), 0, true, false, false)
  }

  /** `totalSeconds` (lines 51-54): the sum of the item durations from item `j` on. */
  function SumFrom(plan: seq<WorkoutPlanItem>, j: nat): nat
    decreases |plan| - j
  {
    if j >= |plan| then 0 else ItemSeconds(plan[j]) + SumFrom(plan, j + 1)
  }

  function TotalSeconds(plan: seq<WorkoutPlanItem>): nat {
    SumFrom(plan, 0)
  }

  /** `progressPercent` (lines 66-68): `Math.round(elapsed / total * 100)`, or 0 for a zero total. */
  function ProgressPercent(plan: seq<WorkoutPlanItem>, s: PlayerState): (r: nat)
    ensures TotalSeconds(plan) == 0 ==> r == 0
    ensures TotalSeconds(plan) > 0 ==>
      (2 * r - 1) * TotalSeconds(plan) <= 200 * s.elapsed < (2 * r + 1) * TotalSeconds(plan)
  {
    var t := TotalSeconds(plan);
    if t > 0 then
      var r := (200 * s.elapsed + t) / (2 * t);
      assert 2 * t * r <= 200 * s.elapsed + t < 2 * t * (r + 1);
      r
    else 0
  }

  /** `formattedTime` (line 63). */
  function FormattedTime(s: PlayerState): string {
    Clock.FormatTime(s.remaining)
  }

  // ---------------------------------------------------------------------------
  // Single-step properties

  /** After loading, a non-empty plan plays its first item; an empty plan is already completed. */
  lemma LoadState(plan: seq<WorkoutPlanItem>)
    ensures Inv(plan, Load(plan))
    ensures Load(plan).index == 0 && Load(plan).elapsed == 0 && !Load(plan).isPaused
    ensures |plan| > 0 ==> Load(plan).isPlaying && !Load(plan).isCompleted
                           && Load(plan).remaining == ItemSeconds(plan[0])
    ensures |plan| == 0 ==> Load(plan).isCompleted && !Load(plan).isPlaying
  {
  }

  /** Every command keeps the index on an item and remaining within that item's duration. */
  lemma CommandsKeepInv(plan: seq<WorkoutPlanItem>, s: PlayerState)
    requires Inv(plan, s)
    ensures Inv(plan, AfterTick(plan, s)) && Inv(plan, AfterPause(s)) && Inv(plan, AfterResume(s))
    ensures Inv(plan, AfterNext(plan, s)) && Inv(plan, AfterPrevious(plan, s)) && Inv(plan, AfterReset(plan))
  {
  }

  /** Pausing and resuming set the two flags and nothing else; resuming undoes pausing. */
  lemma PauseResume(s: PlayerState)
    ensures AfterPause(s).isPaused && !AfterPause(s).isPlaying
    ensures !AfterResume(s).isPaused && AfterResume(s).isPlaying
    ensures AfterResume(AfterPause(s)) == AfterResume(s)
    ensures AfterPause(s).(isPaused := s.isPaused, isPlaying := s.isPlaying) == s
  {
  }

  /** A tick changes nothing when the player is completed, stopped, paused, or the plan is empty. */
  lemma TickIgnoredWhenInactive(plan: seq<WorkoutPlanItem>, s: PlayerState)
    requires s.isCompleted || !s.isPlaying || s.isPaused || |plan| == 0
    ensures AfterTick(plan, s) == s
  {
  }

  /** A tick with several seconds left counts one second down and one second up. */
  lemma TickCountsDown(plan: seq<WorkoutPlanItem>, s: PlayerState)
    requires !s.isCompleted && s.isPlaying && !s.isPaused && |plan| > 0
    requires s.remaining > 1
    ensures AfterTick(plan, s) == s.(remaining := s.remaining - 1, elapsed := s.elapsed + 1)
  {
  }

  /**
   * A tick on the last second moves to the next item without counting that second;
   * on the last item it completes instead, keeping the index and leaving 0 seconds.
   */
  lemma TickOnLastSecond(plan: seq<WorkoutPlanItem>, s: PlayerState)
    requires !s.isCompleted && s.isPlaying && !s.isPaused && |plan| > 0
    requires s.remaining <= 1
    ensures AfterTick(plan, s).elapsed == s.elapsed && !AfterTick(plan, s).isPaused
    ensures s.index + 1 < |plan| ==>
      AfterTick(plan, s).index == s.index + 1 && AfterTick(plan, s).remaining == ItemSeconds(plan[s.index + 1])
      && !AfterTick(plan, s).isCompleted && AfterTick(plan, s).isPlaying
    ensures s.index + 1 >= |plan| ==>
      AfterTick(plan, s).index == s.index && AfterTick(plan, s).remaining == 0
      && AfterTick(plan, s).isCompleted && !AfterTick(plan, s).isPlaying
  {
  }

  /** `next` before the last item moves on and credits the unplayed seconds; on the last item it completes. */
  lemma NextMovesOrCompletes(plan: seq<WorkoutPlanItem>, s: PlayerState)
    ensures s.index < |plan| - 1 ==>
      AfterNext(plan, s).index == s.index + 1 && AfterNext(plan, s).elapsed == s.elapsed + s.remaining
      && AfterNext(plan, s).remaining == ItemSeconds(plan[s.index + 1])
      && AfterNext(plan, s).isPaused == s.isPaused && AfterNext(plan, s).isPlaying == s.isPlaying
      && AfterNext(plan, s).isCompleted == s.isCompleted
    ensures s.index >= |plan| - 1 ==>
      AfterNext(plan, s) == s.(isCompleted := true, isPlaying := false)
  {
  }

  /** `previous` at the first item changes nothing; otherwise it steps back and reloads that item. */
  lemma PreviousStepsBack(plan: seq<WorkoutPlanItem>, s: PlayerState)
    requires Inv(plan, s)
    ensures s.index == 0 ==> AfterPrevious(plan, s) == s
    ensures s.index > 0 ==>
      AfterPrevious(plan, s).index == s.index - 1
      && AfterPrevious(plan, s).remaining == ItemSeconds(plan[s.index - 1])
      && (AfterPrevious(plan, s).elapsed as int
          == if s.elapsed - ItemSeconds(plan[s.index]) + s.remaining < 0 then 0
             else s.elapsed - ItemSeconds(plan[s.index]) + s.remaining)
      && AfterPrevious(plan, s).(index := s.index, remaining := s.remaining, elapsed := s.elapsed) == s
  {
  }

  /**
   * `reset` returns to the first item, playing; it clears the completed flag even for an
   * empty plan, which the mount-time effect had marked completed.
   */
  lemma ResetRestarts(plan: seq<WorkoutPlanItem>, s: PlayerState)
    ensures AfterReset(plan) == PlayerState(0, DurationAt(plan, 0), 0, true, false, false)
    ensures |plan| == 0 ==>
      Load(plan).isCompleted && !AfterReset(plan).isCompleted
      && AfterTick(plan, AfterReset(plan)) == AfterReset(plan)
    ensures |plan| > 0 ==> AfterReset(plan) == Load(plan)
  {
  }

  /** Every item's duration is part of the total. */
  lemma {:induction false} ItemWithinTotal(plan: seq<WorkoutPlanItem>, j: nat, i: nat)
    requires j <= i < |plan|
    ensures ItemSeconds(plan[i]) <= SumFrom(plan, j)
    decreases i - j
  {
    if j < i {
      ItemWithinTotal(plan, j + 1, i);
    }
  }

  /** Progress is 0 right after loading. */
  lemma ProgressStartsAtZero(plan: seq<WorkoutPlanItem>)
    ensures ProgressPercent(plan, Load(plan)) == 0
  {
  }

  /**
   * Because `previous` subtracts the duration of the item being left, alternating `next` and
   * `previous` makes elapsed grow without bound: with items of 10 s and 1 s, next, previous,
   * next gives 20 s elapsed of an 11 s plan, and progress 182%.
   */
  lemma ProgressCanExceedHundred(a: WorkoutPlanItem, b: WorkoutPlanItem)
    requires ItemSeconds(a) == 10 && ItemSeconds(b) == 1
    ensures var plan := [a, b];
      var s := AfterNext(plan, AfterPrevious(plan, AfterNext(plan, Load(plan))));
      s.elapsed == 20 && TotalSeconds(plan) == 11 && ProgressPercent(plan, s) == 182
  {
    var plan := [a, b];
    assert SumFrom(plan, 2) == 0 && SumFrom(plan, 1) == 1;
    assert TotalSeconds(plan) == 11;
  }

  // ---------------------------------------------------------------------------
  // Running a plan to completion

  /** `k` interval firings in a row. */
  function Ticks(plan: seq<WorkoutPlanItem>, s: PlayerState, k: nat): PlayerState
    decreases k
  {
    if k == 0 then s else Ticks(plan, AfterTick(plan, s), k - 1)
  }

  /** The state in which the interval is armed. */
  predicate Running(plan: seq<WorkoutPlanItem>, s: PlayerState) {
    !s.isCompleted && s.isPlaying && !s.isPaused && |plan| > 0
  }

  /** An item of `d` seconds takes `d` ticks, and one tick when `d` is 0. */
  function Max1(d: nat): nat {
    if d <= 1 then 1 else d
  }

  /** Ticks needed by the items from `j` on. */
  function SuffixTicks(plan: seq<WorkoutPlanItem>, j: nat): nat
    decreases |plan| - j
  {
    if j >= |plan| then 0 else Max1(ItemSeconds(plan[j])) + SuffixTicks(plan, j + 1)
  }

  /** Seconds the items from `j` on add to elapsed: all but the last second of each. */
  function SuffixElapsed(plan: seq<WorkoutPlanItem>, j: nat): nat
    decreases |plan| - j
  {
    if j >= |plan| then 0 else Max1(ItemSeconds(plan[j])) - 1 + SuffixElapsed(plan, j + 1)
  }

  function TicksLeft(plan: seq<WorkoutPlanItem>, s: PlayerState): nat {
    Max1(s.remaining) + SuffixTicks(plan, s.index + 1)
  }

  function ElapsedLeft(plan: seq<WorkoutPlanItem>, s: PlayerState): nat {
    Max1(s.remaining) - 1 + SuffixElapsed(plan, s.index + 1)
  }

  /** One tick of a running player uses up exactly one of its remaining ticks. */
  lemma TickUsesOneTick(plan: seq<WorkoutPlanItem>, s: PlayerState)
    requires Inv(plan, s) && Running(plan, s)
    ensures TicksLeft(plan, s) == 1 ==>
      AfterTick(plan, s).isCompleted && AfterTick(plan, s).elapsed == s.elapsed + ElapsedLeft(plan, s)
    ensures TicksLeft(plan, s) > 1 ==>
      Inv(plan, AfterTick(plan, s)) && Running(plan, AfterTick(plan, s))
      && TicksLeft(plan, AfterTick(plan, s)) == TicksLeft(plan, s) - 1
      && AfterTick(plan, s).elapsed + ElapsedLeft(plan, AfterTick(plan, s)) == s.elapsed + ElapsedLeft(plan, s)
  {
    var t := AfterTick(plan, s);
    if s.remaining <= 1 && s.index + 1 < |plan| {
      assert SuffixTicks(plan, s.index + 1) == Max1(ItemSeconds(plan[s.index + 1])) + SuffixTicks(plan, s.index + 2);
      assert SuffixElapsed(plan, s.index + 1)
        == Max1(ItemSeconds(plan[s.index + 1])) - 1 + SuffixElapsed(plan, s.index + 2);
    }
  }

  /** Fewer ticks than are left keep the player running. */
  lemma {:induction false} StillRunning(plan: seq<WorkoutPlanItem>, s: PlayerState, k: nat)
    requires Inv(plan, s) && Running(plan, s) && k < TicksLeft(plan, s)
    ensures Inv(plan, Ticks(plan, s, k)) && Running(plan, Ticks(plan, s, k))
    decreases k
  {
    if k > 0 {
      TickUsesOneTick(plan, s);
      StillRunning(plan, AfterTick(plan, s), k - 1);
    }
  }

  /** Exactly the ticks left complete the player, with the predicted elapsed seconds. */
  lemma {:induction false} FinishesAfterTicksLeft(plan: seq<WorkoutPlanItem>, s: PlayerState)
    requires Inv(plan, s) && Running(plan, s)
    ensures Ticks(plan, s, TicksLeft(plan, s)).isCompleted
    ensures Ticks(plan, s, TicksLeft(plan, s)).elapsed == s.elapsed + ElapsedLeft(plan, s)
    decreases TicksLeft(plan, s)
  {
    TickUsesOneTick(plan, s);
    if TicksLeft(plan, s) > 1 {
      FinishesAfterTicksLeft(plan, AfterTick(plan, s));
    }
  }

  /** With no zero-length item, the ticks and the credited seconds are fixed by the total. */
  lemma {:induction false} SuffixOfPositiveItems(plan: seq<WorkoutPlanItem>, j: nat)
    requires forall i :: 0 <= i < |plan| ==> ItemSeconds(plan[i]) >= 1
    requires j <= |plan|
    ensures SuffixTicks(plan, j) == SumFrom(plan, j)
    ensures SuffixElapsed(plan, j) == SumFrom(plan, j) - (|plan| - j)
    decreases |plan| - j
  {
    if j < |plan| {
      SuffixOfPositiveItems(plan, j + 1);
    }
  }

  /**
   * A loaded plan whose items all last at least a second completes on exactly its
   * `totalSeconds`-th tick, and at that point elapsed is one second short per item, so
   * progress stays below 100%.
   */
  lemma PlanCompletesAfterTotalSeconds(plan: seq<WorkoutPlanItem>)
    requires |plan| > 0
    requires forall i :: 0 <= i < |plan| ==> ItemSeconds(plan[i]) >= 1
    ensures !Ticks(plan, Load(plan), TotalSeconds(plan) - 1).isCompleted
    ensures Ticks(plan, Load(plan), TotalSeconds(plan)).isCompleted
    ensures Ticks(plan, Load(plan), TotalSeconds(plan)).elapsed == TotalSeconds(plan) - |plan|
  {
    var s := Load(plan);
    SuffixOfPositiveItems(plan, 0);
    SuffixOfPositiveItems(plan, 1);
    assert TicksLeft(plan, s) == TotalSeconds(plan);
    StillRunning(plan, s, TotalSeconds(plan) - 1);
    FinishesAfterTicksLeft(plan, s);
  }

  /** Two 40-second items: 80 seconds in all, still running after 79 ticks, completed after 80. */
  lemma TwoFortySecondItems(a: WorkoutPlanItem, b: WorkoutPlanItem)
    requires ItemSeconds(a) == 40 && ItemSeconds(b) == 40
    ensures TotalSeconds([a, b]) == 80
    ensures Load([a, b]).remaining == 40 && Clock.FormatTime(Load([a, b]).remaining) == "0:40"
    ensures !Ticks([a, b], Load([a, b]), 79).isCompleted
    ensures Ticks([a, b], Load([a, b]), 80).isCompleted
    ensures ProgressPercent([a, b], Ticks([a, b], Load([a, b]), 80)) == 98
  {
    var plan := [a, b];
    assert SumFrom(plan, 2) == 0 && SumFrom(plan, 1) == 40;
    assert TotalSeconds(plan) == 80;
    PlanCompletesAfterTotalSeconds(plan);
    Clock.FormatTimeExamples();
  }

  // ---------------------------------------------------------------------------
  // The hook's state cells

  class Player {
    const plan: seq<WorkoutPlanItem>
    var index: nat
    var remaining: nat
    var elapsed: nat
    var isPlaying: bool
    var isPaused: bool
    var isCompleted: bool

    function State(): PlayerState
      reads this
    {
      PlayerState(index, remaining, elapsed, isPlaying, isPaused, isCompleted)
    }

    ghost predicate Valid()
      reads this
    {
      Inv(plan, State())
    }

    /** Mounting the hook: the initial cells, then the index-change and empty-plan effects. */
    constructor (workoutPlan: seq<WorkoutPlanItem>)
      ensures plan == workoutPlan && State() == Load(workoutPlan) && Valid()
    {
      plan := workoutPlan;
      index, remaining, elapsed := 0, 0, 0;
      isPlaying, isPaused, isCompleted := true, false, false;
      new;
      if |plan| > 0 {
        remaining := ItemSeconds(plan[0]);
      }
      if |plan| == 0 {
        isCompleted := true;
        isPlaying := false;
      }
    }

    /** The interval callback: count down, or on the last second move on or complete. */
    method Tick()
      requires Valid()
      modifies this
      ensures Valid() && State() == AfterTick(plan, old(State()))
    {
      if isCompleted || !isPlaying || isPaused || |plan| == 0 {
        return;
      }
      if remaining <= 1 {
        var prevIndex := index;
        var nextIndex := index + 1;
        if nextIndex >= |plan| {
          isCompleted := true;
          isPlaying := false;
        } else {
          index := nextIndex;
        }
        remaining := 0;
        if index != prevIndex {
          remaining := ItemSeconds(plan[index]);
        }
      } else {
        elapsed := elapsed + 1;
        remaining := remaining - 1;
      }
    }

    method Play()
      requires Valid()
      modifies this
      ensures Valid() && State() == AfterResume(old(State()))
    {
      isPlaying := true;
      isPaused := false;
    }

    method Pause()
      requires Valid()
      modifies this
      ensures Valid() && State() == AfterPause(old(State()))
    {
      isPaused := true;
      isPlaying := false;
    }

    method Resume()
      requires Valid()
      modifies this
      ensures Valid() && State() == AfterResume(old(State()))
    {
      isPaused := false;
      isPlaying := true;
    }

    method Next()
      requires Valid()
      modifies this
      ensures Valid() && State() == AfterNext(plan, old(State()))
    {
      if index < |plan| - 1 {
        index := index + 1;
        elapsed := elapsed + remaining;
        remaining := ItemSeconds(plan[index]);
      } else {
        isCompleted := true;
        isPlaying := false;
      }
    }

    method Previous()
      requires Valid()
      modifies this
      ensures Valid() && State() == AfterPrevious(plan, old(State()))
    {
      if index > 0 {
        var newIndex := index - 1;
        var currentExerciseDuration := DurationAt(plan, index);
        var adjusted := elapsed - currentExerciseDuration + remaining;
        elapsed := if adjusted < 0 then 0 else adjusted;
        index := newIndex;
        remaining := DurationAt(plan, index);
      }
    }

    method Reset()
      requires Valid()
      modifies this
      ensures Valid() && State() == AfterReset(plan)
    {
      index := 0;
      remaining := DurationAt(plan, 0);
      elapsed := 0;
      isPlaying := true;
      isPaused := false;
      isCompleted := false;
    }
  }
}
