/**
 * The playback engine of the second frontend (`frontend/components/player/PlayerScreen.tsx`).
 *
 * Its state is the current index, the seconds left, the paused and sound flags, and whether
 * `onComplete` has been called (the host then unmounts the screen, `frontend/App.tsx:318-321`).
 * Two effects drive it: entering an item loads its duration and announces it (lines 81-88), and
 * the timer effect (lines 91-114) arms a one-second timeout while time is left, beeps in the last
 * three seconds, and at zero moves on or completes. Speech and beeps are emitted as `Cue` values.
 *
 * As written, the timer effect reads the `timeLeft` of the render in which the index changed, which
 * is still 0 after an item ran out; it then fires a second time and skips the item just entered.
 * `CommitAsWritten` models the React commits as written and exhibits this; the functions
 * `Entered`/`Settled` model the evidently intended engine, in which the timer effect sees the newly
 * loaded duration, and the class `Session` follows them.
 */
module PlayerScreen {
  import opened Wrappers
  import opened DbTypes

  datatype Engine = Engine(index: nat, timeLeft: nat, isPaused: bool, soundEnabled: bool, finished: bool)

  datatype Cue = Announce(text: string) | ShortBeep | LongBeep

  datatype Outcome = Outcome(engine: Engine, cues: seq<Cue>)

  /** What the item-entry effect speaks (lines 83-87). */
  function Announcement(item: PlanItem): (r: string)
    ensures item.kind == ExerciseItem ==> r == "準備，" + item.title
    ensures item.kind == RestItem ==> r == "休息一下"
  {
    if item.kind == ExerciseItem then "準備，" + item.title else "休息一下"
  }

  /** `speak` (lines 70-78) says nothing while sound is off. */
  function Speak(e: Engine, text: string): seq<Cue> {
    if e.soundEnabled then [Announce(text)] else []
  }

  /** A settled engine has an armed timer unless it is paused or finished. */
  predicate Ok(plan: seq<PlanItem>, e: Engine) {
    |plan| > 0 && e.index < |plan| && (e.finished || e.isPaused || e.timeLeft > 0)
  }

  // ---------------------------------------------------------------------------
  // The intended engine

  /** Entering item `i`: load its duration, announce it, then let the timer effect run. */
  function Entered(plan: seq<PlanItem>, e: Engine, i: nat): (r: Outcome)
    requires i < |plan|
    ensures i <= r.engine.index < |plan|
    ensures r.engine.isPaused == e.isPaused && r.engine.soundEnabled == e.soundEnabled
    ensures r.engine.finished || r.engine.isPaused || r.engine.timeLeft > 0
    ensures e.soundEnabled ==> |r.cues| > 0 && r.cues[0] == Announce(Announcement(plan[i]))
    decreases |plan| - i, 1
  {
    var o := Settled(plan, e.(index := i, timeLeft := plan[i].duration));
    Outcome(o.engine, Speak(e, Announcement(plan[i])) + o.cues)
  }

  /** The timer effect run on the current state, and the item changes it cascades into. */
  function Settled(plan: seq<PlanItem>, e: Engine): (r: Outcome)
    requires e.index < |plan|
    ensures e.index <= r.engine.index < |plan|
    ensures r.engine.isPaused == e.isPaused && r.engine.soundEnabled == e.soundEnabled
    ensures r.engine.finished || r.engine.isPaused || r.engine.timeLeft > 0
    ensures e.finished || e.isPaused || e.timeLeft > 0 ==> r.engine == e
    decreases |plan| - e.index, 0
  {
    if e.finished || e.isPaused then Outcome(e, [])
    else if e.timeLeft == 0 then
      var beep := if e.soundEnabled then [LongBeep] else [];
      if e.index < |plan| - 1 then
        var o := Entered(plan, e, e.index + 1);
        Outcome(o.engine, beep + o.cues)
      else Outcome(e.(finished := true), beep)
    else Outcome(e, if e.soundEnabled && e.timeLeft <= 3 then [ShortBeep] else [])
  }

  /** Mounting: index 0, the first duration, playing with sound on, and both effects run. */
  function Mount(plan: seq<PlanItem>): Outcome
    requires |plan| > 0
  {
    Entered(plan, Engine(0, plan[0].duration, false, true, false), 0)
  }

  /** The armed timeout firing: one second less, then the timer effect. */
  function AfterTick(plan: seq<PlanItem>, e: Engine): (r: Outcome)
    requires e.index < |plan|
    ensures e.index <= r.engine.index < |plan|
  {
    if e.finished || e.isPaused || e.timeLeft == 0 then Outcome(e, [])
    else Settled(plan, e.(timeLeft := e.timeLeft - 1))
  }

  /** `togglePause` (lines 116-119). */
  function AfterTogglePause(plan: seq<PlanItem>, e: Engine): Outcome
    requires e.index < |plan|
  {
    Settled(plan, e.(isPaused := !e.isPaused))
  }

  /** The sound button (line 186); the timer effect depends on the flag and runs again. */
  function AfterToggleSound(plan: seq<PlanItem>, e: Engine): Outcome
    requires e.index < |plan|
  {
    Settled(plan, e.(soundEnabled := !e.soundEnabled))
  }

  /** `skipItem` (lines 121-128). */
  function AfterSkipItem(plan: seq<PlanItem>, e: Engine): Outcome
    requires e.index < |plan|
  {
    if e.index < |plan| - 1 then Entered(plan, e, e.index + 1)
    else Outcome(e.(finished := true), [])
  }

  /** `skipToEnd` (lines 130-133). */
  function AfterSkipToEnd(e: Engine): Outcome {
    Outcome(e.(finished := true), [])
  }

  /** `progress` (line 151): the share of items already left behind. */
  function Progress(index: nat, length: nat): (r: real)
    requires length > 0
    ensures index == 0 ==> r == 0.0
    ensures index < length ==> 0.0 <= r < 100.0
  {
    var q := index as real / length as real;
    assert index < length ==> q < 1.0;
    q * 100.0
  }

  // ---------------------------------------------------------------------------
  // Single-step properties

  /** A plan whose first item has time on it starts there, playing, announcing it. */
  lemma MountState(plan: seq<PlanItem>)
    requires |plan| > 0 && plan[0].duration > 0
    ensures Mount(plan).engine == Engine(0, plan[0].duration, false, true, false)
    ensures Mount(plan).cues
      == [Announce(Announcement(plan[0]))] + (if plan[0].duration <= 3 then [ShortBeep] else [])
    ensures Ok(plan, Mount(plan).engine)
  {
    var init := Engine(0, plan[0].duration, false, true, false);
    assert Settled(plan, init).cues == if plan[0].duration <= 3 then [ShortBeep] else [];
  }

  /** Entering an item with time on it loads exactly its duration. */
  lemma EnteringLoadsDuration(plan: seq<PlanItem>, e: Engine, i: nat)
    requires i < |plan| && !e.finished && plan[i].duration > 0
    ensures Entered(plan, e, i).engine == e.(index := i, timeLeft := plan[i].duration)
  {
  }

  /** While not paused with time left, a tick takes exactly one second off and nothing else. */
  lemma TickCountsDown(plan: seq<PlanItem>, e: Engine)
    requires e.index < |plan| && !e.finished && !e.isPaused && e.timeLeft > 1
    ensures AfterTick(plan, e).engine == e.(timeLeft := e.timeLeft - 1)
    ensures AfterTick(plan, e).cues
      == if e.soundEnabled && e.timeLeft - 1 <= 3 then [ShortBeep] else []
  {
  }

  /** While paused no timer is armed, so a tick does nothing. */
  lemma TickIgnoredWhilePaused(plan: seq<PlanItem>, e: Engine)
    requires e.index < |plan| && e.isPaused
    ensures AfterTick(plan, e) == Outcome(e, [])
  {
  }

  /**
   * On the last second the engine beeps long (with sound), then enters the next item or,
   * on the last item, completes.
   */
  lemma TickOnLastSecond(plan: seq<PlanItem>, e: Engine)
    requires e.index < |plan| && !e.finished && !e.isPaused && e.timeLeft == 1
    ensures e.soundEnabled ==> |AfterTick(plan, e).cues| > 0 && AfterTick(plan, e).cues[0] == LongBeep
    ensures e.index < |plan| - 1 ==>
      AfterTick(plan, e).engine == Entered(plan, e.(timeLeft := 0), e.index + 1).engine
    ensures e.index == |plan| - 1 ==> AfterTick(plan, e).engine == e.(timeLeft := 0, finished := true)
  {
  }

  /** With sound off nothing is spoken or beeped. */
  lemma {:induction false} MutedIsSilent(plan: seq<PlanItem>, e: Engine)
    requires e.index < |plan| && !e.soundEnabled
    ensures Settled(plan, e).cues == []
    ensures e.index + 1 < |plan| ==> Entered(plan, e, e.index + 1).cues == []
    decreases |plan| - e.index
  {
    if e.index + 1 < |plan| {
      MutedIsSilent(plan, e.(index := e.index + 1, timeLeft := plan[e.index + 1].duration));
    }
  }

  /** A muted tick emits no cue. */
  lemma MutedTickIsSilent(plan: seq<PlanItem>, e: Engine)
    requires e.index < |plan| && !e.soundEnabled
    ensures AfterTick(plan, e).cues == []
  {
    if !(e.finished || e.isPaused || e.timeLeft == 0) {
      MutedIsSilent(plan, e.(timeLeft := e.timeLeft - 1));
    }
  }

  /** `skipItem` never touches the paused flag; it enters the next item, or completes on the last. */
  lemma SkipItemMovesOn(plan: seq<PlanItem>, e: Engine)
    requires e.index < |plan|
    ensures AfterSkipItem(plan, e).engine.isPaused == e.isPaused
    ensures e.index < |plan| - 1 ==> AfterSkipItem(plan, e).engine.index > e.index
    ensures e.index < |plan| - 1 && plan[e.index + 1].duration > 0 && !e.finished ==>
      AfterSkipItem(plan, e).engine == e.(index := e.index + 1, timeLeft := plan[e.index + 1].duration)
    ensures e.index == |plan| - 1 ==> AfterSkipItem(plan, e).engine == e.(finished := true)
  {
  }

  /** Skipping to an item of more than three seconds only announces it: no countdown beep. */
  lemma SkipItemOnlyAnnounces(plan: seq<PlanItem>, e: Engine)
    requires e.index < |plan| - 1 && plan[e.index + 1].duration > 3
    ensures AfterSkipItem(plan, e).cues == Speak(e, Announcement(plan[e.index + 1]))
    ensures ShortBeep !in AfterSkipItem(plan, e).cues
  {
    var entered := e.(index := e.index + 1, timeLeft := plan[e.index + 1].duration);
    assert Settled(plan, entered).cues == [];
    assert AfterSkipItem(plan, e).cues == Speak(e, Announcement(plan[e.index + 1])) + [];
  }

  /** `skipToEnd` completes from any state; `togglePause` flips the paused flag. */
  lemma SkipToEndAndTogglePause(plan: seq<PlanItem>, e: Engine)
    requires e.index < |plan|
    ensures AfterSkipToEnd(e).engine.finished
    ensures AfterTogglePause(plan, e).engine.isPaused == !e.isPaused
    ensures !e.isPaused ==> AfterTogglePause(plan, e) == Outcome(e.(isPaused := true), [])
  {
  }

  /** Every command leaves the engine settled. */
  lemma CommandsKeepOk(plan: seq<PlanItem>, e: Engine)
    requires Ok(plan, e)
    ensures Ok(plan, AfterTick(plan, e).engine) && Ok(plan, AfterTogglePause(plan, e).engine)
    ensures Ok(plan, AfterToggleSound(plan, e).engine) && Ok(plan, AfterSkipItem(plan, e).engine)
    ensures Ok(plan, AfterSkipToEnd(e).engine)
  {
  }

  // ---------------------------------------------------------------------------
  // Running a plan to completion

  /** `k` timeouts in a row. */
  function Run(plan: seq<PlanItem>, e: Engine, k: nat): (r: Engine)
    requires e.index < |plan|
    ensures r.index < |plan|
    decreases k
  {
    if k == 0 then e else Run(plan, AfterTick(plan, e).engine, k - 1)
  }

  predicate Running(plan: seq<PlanItem>, e: Engine) {
    e.index < |plan| && !e.finished && !e.isPaused && e.timeLeft > 0
  }

  /** The sum of the durations of the items from `j` on. */
  function SumFrom(plan: seq<PlanItem>, j: nat): nat
    decreases |plan| - j
  {
    if j >= |plan| then 0 else plan[j].duration + SumFrom(plan, j + 1)
  }

  /** The ticks left: this item's seconds, then every later item's. */
  function TicksLeft(plan: seq<PlanItem>, e: Engine): nat {
    e.timeLeft + SumFrom(plan, e.index + 1)
  }

  /** The timer effect's cascade through used-up and zero-length items loses no tick. */
  lemma {:induction false} SettleKeepsTicks(plan: seq<PlanItem>, e: Engine)
    requires e.index < |plan| && !e.finished && !e.isPaused
    ensures !Settled(plan, e).engine.isPaused
    ensures Settled(plan, e).engine.finished ==> TicksLeft(plan, e) == 0
    ensures !Settled(plan, e).engine.finished ==>
      Running(plan, Settled(plan, e).engine) && TicksLeft(plan, Settled(plan, e).engine) == TicksLeft(plan, e)
    decreases |plan| - e.index
  {
    if e.timeLeft == 0 && e.index < |plan| - 1 {
      var entered := e.(index := e.index + 1, timeLeft := plan[e.index + 1].duration);
      SettleKeepsTicks(plan, entered);
      assert SumFrom(plan, e.index + 1) == plan[e.index + 1].duration + SumFrom(plan, e.index + 2);
    }
  }

  /** One tick of a running engine uses up one tick. */
  lemma TickUsesOneTick(plan: seq<PlanItem>, e: Engine)
    requires Running(plan, e)
    ensures TicksLeft(plan, e) == 1 ==> AfterTick(plan, e).engine.finished
    ensures TicksLeft(plan, e) > 1 ==>
      Running(plan, AfterTick(plan, e).engine)
      && TicksLeft(plan, AfterTick(plan, e).engine) == TicksLeft(plan, e) - 1
  {
    SettleKeepsTicks(plan, e.(timeLeft := e.timeLeft - 1));
  }

  lemma {:induction false} RunningBeforeTicksLeft(plan: seq<PlanItem>, e: Engine, k: nat)
    requires Running(plan, e) && k < TicksLeft(plan, e)
    ensures Running(plan, Run(plan, e, k)) && TicksLeft(plan, Run(plan, e, k)) == TicksLeft(plan, e) - k
    decreases k
  {
    if k > 0 {
      TickUsesOneTick(plan, e);
      RunningBeforeTicksLeft(plan, AfterTick(plan, e).engine, k - 1);
    }
  }

  lemma {:induction false} FinishedAtTicksLeft(plan: seq<PlanItem>, e: Engine)
    requires Running(plan, e)
    ensures Run(plan, e, TicksLeft(plan, e)).finished
    decreases TicksLeft(plan, e)
  {
    TickUsesOneTick(plan, e);
    if TicksLeft(plan, e) > 1 {
      FinishedAtTicksLeft(plan, AfterTick(plan, e).engine);
    }
  }

  /** Within an item, each tick takes a second off. */
  lemma {:induction false} CountdownWithinItem(plan: seq<PlanItem>, e: Engine, k: nat)
    requires Running(plan, e) && k < e.timeLeft
    ensures Run(plan, e, k) == e.(timeLeft := e.timeLeft - k)
    decreases k
  {
    if k > 0 {
      CountdownWithinItem(plan, AfterTick(plan, e).engine, k - 1);
    }
  }

  /** An item with `d` seconds left ends on exactly the `d`-th tick: the engine moves on or completes. */
  lemma {:induction false} ItemEndsAfterItsSeconds(plan: seq<PlanItem>, e: Engine)
    requires Running(plan, e)
    ensures var t := Run(plan, e, e.timeLeft); t.finished || t.index > e.index
    decreases e.timeLeft
  {
    if e.timeLeft > 1 {
      ItemEndsAfterItsSeconds(plan, AfterTick(plan, e).engine);
    }
  }

  /**
   * A mounted, never paused plan completes on exactly its total number of seconds: after one
   * tick fewer it is still running. A plan of zero total length completes on mounting.
   */
  lemma PlanCompletesAfterTotalSeconds(plan: seq<PlanItem>)
    requires |plan| > 0
    ensures SumFrom(plan, 0) == 0 ==> Mount(plan).engine.finished
    ensures SumFrom(plan, 0) > 0 ==>
      Running(plan, Mount(plan).engine)
      && Running(plan, Run(plan, Mount(plan).engine, SumFrom(plan, 0) - 1))
      && Run(plan, Mount(plan).engine, SumFrom(plan, 0)).finished
  {
    var init := Engine(0, plan[0].duration, false, true, false);
    SettleKeepsTicks(plan, init);
    assert TicksLeft(plan, init) == SumFrom(plan, 0);
    if SumFrom(plan, 0) > 0 {
      RunningBeforeTicksLeft(plan, Mount(plan).engine, SumFrom(plan, 0) - 1);
      FinishedAtTicksLeft(plan, Mount(plan).engine);
    }
  }

  // ---------------------------------------------------------------------------
  // The engine as written: React commits

  /**
   * One commit from render `prev` to render `cur` and the commits it causes. The entry effect runs
   * when the index changed, the timer effect when any of its dependencies did; both read `cur`. A
   * commit whose updates change nothing ends the cascade.
   */
  function CommitAsWritten(plan: seq<PlanItem>, prev: Engine, cur: Engine, mount: bool): (r: Outcome)
    requires cur.index < |plan| && !cur.finished
    decreases |plan| - cur.index, if mount || cur.index != prev.index then 1 else 0
  {
    var entering := mount || cur.index != prev.index;
    var timerRuns := mount || cur != prev;
    var spoken := if entering then Speak(cur, Announcement(plan[cur.index])) else [];
    var loaded := if entering then plan[cur.index].duration else cur.timeLeft;
    if timerRuns && !cur.isPaused && cur.timeLeft == 0 then
      var cues := spoken + (if cur.soundEnabled then [LongBeep] else []);
      if cur.index < |plan| - 1 then
        var o := CommitAsWritten(plan, cur, cur.(index := cur.index + 1, timeLeft := loaded), false);
        Outcome(o.engine, cues + o.cues)
      else Outcome(cur.(timeLeft := loaded, finished := true), cues)
    else
      var beep := timerRuns && !cur.isPaused && cur.soundEnabled && cur.timeLeft <= 3;
      var cues := spoken + (if beep then [ShortBeep] else []);
      var next := cur.(timeLeft := loaded);
      if next == cur then Outcome(cur, cues)
      else
        assert entering;
        var o := CommitAsWritten(plan, cur, next, false);
        Outcome(o.engine, cues + o.cues)
  }

  function MountAsWritten(plan: seq<PlanItem>): Outcome
    requires |plan| > 0
  {
    var init := Engine(0, plan[0].duration, false, true, false);
    CommitAsWritten(plan, init, init, true)
  }

  function TickAsWritten(plan: seq<PlanItem>, e: Engine): Outcome
    requires e.index < |plan|
  {
    if e.finished || e.isPaused || e.timeLeft == 0 then Outcome(e, [])
    else CommitAsWritten(plan, e, e.(timeLeft := e.timeLeft - 1), false)
  }

  function SkipItemAsWritten(plan: seq<PlanItem>, e: Engine): Outcome
    requires e.index < |plan|
  {
    if e.finished then Outcome(e, [])
    else if e.index < |plan| - 1 then CommitAsWritten(plan, e, e.(index := e.index + 1), false)
    else Outcome(e.(finished := true), [])
  }

  /** As written, a cascade of commits never moves the index back and stays on an item. */
  lemma {:induction false} CommitAsWrittenNeverGoesBack(plan: seq<PlanItem>, prev: Engine, cur: Engine, mount: bool)
    requires cur.index < |plan| && !cur.finished
    ensures cur.index <= CommitAsWritten(plan, prev, cur, mount).engine.index < |plan|
    decreases |plan| - cur.index, if mount || cur.index != prev.index then 1 else 0
  {
    var entering := mount || cur.index != prev.index;
    var loaded := if entering then plan[cur.index].duration else cur.timeLeft;
    if (mount || cur != prev) && !cur.isPaused && cur.timeLeft == 0 {
      if cur.index < |plan| - 1 {
        CommitAsWrittenNeverGoesBack(plan, cur, cur.(index := cur.index + 1, timeLeft := loaded), false);
      }
    } else if cur.(timeLeft := loaded) != cur {
      CommitAsWrittenNeverGoesBack(plan, cur, cur.(timeLeft := loaded), false);
    }
  }

  /**
   * As written, the last second of any item before the second-to-last one carries the engine
   * past the next item, which is never played; the intended engine enters that item with its
   * full duration.
   */
  lemma AsWrittenItemEndSkipsNext(plan: seq<PlanItem>, e: Engine)
    requires e.index < |plan| - 2 && !e.finished && !e.isPaused && e.timeLeft == 1
    ensures TickAsWritten(plan, e).engine.index >= e.index + 2
    ensures plan[e.index + 1].duration > 0 ==>
      AfterTick(plan, e).engine == e.(index := e.index + 1, timeLeft := plan[e.index + 1].duration)
  {
    var zero := e.(timeLeft := 0);
    var stale := zero.(index := e.index + 1);
    var next := stale.(index := e.index + 2, timeLeft := plan[e.index + 1].duration);
    assert TickAsWritten(plan, e) == CommitAsWritten(plan, e, zero, false);
    assert CommitAsWritten(plan, e, zero, false).engine == CommitAsWritten(plan, zero, stale, false).engine;
    assert CommitAsWritten(plan, zero, stale, false).engine == CommitAsWritten(plan, stale, next, false).engine;
    CommitAsWrittenNeverGoesBack(plan, stale, next, false);
    TickOnLastSecond(plan, e);
  }

  /**
   * Two one-second items: as written, the first item's last tick completes the whole plan and
   * the second item is never played; the intended engine is then on the second item with its
   * second still to run.
   */
  lemma AsWrittenSkipsEnteredItem(a: PlanItem, b: PlanItem)
    requires a.duration == 1 && b.duration == 1
    ensures var plan := [a, b];
      MountAsWritten(plan).engine == Engine(0, 1, false, true, false)
      && TickAsWritten(plan, MountAsWritten(plan).engine).engine.finished
    ensures var plan := [a, b];
      Mount(plan).engine == Engine(0, 1, false, true, false)
      && AfterTick(plan, Mount(plan).engine).engine == Engine(1, 1, false, true, false)
  {
    var plan := [a, b];
    var init := Engine(0, 1, false, true, false);
    assert MountAsWritten(plan) == CommitAsWritten(plan, init, init, true);
    var zero := init.(timeLeft := 0);
    var second := Engine(1, 0, false, true, false);
    assert CommitAsWritten(plan, zero, second, false).engine.finished;
    assert TickAsWritten(plan, init) == CommitAsWritten(plan, init, zero, false);
    assert Mount(plan).engine == init;
    assert AfterTick(plan, init) == Settled(plan, zero);
    assert Settled(plan, zero).engine == Entered(plan, zero, 1).engine;
    assert Entered(plan, zero, 1).engine == Settled(plan, Engine(1, 1, false, true, false)).engine;
  }

  /**
   * Skipping with 2 s left of a 5 s item to a 10 s item: as written the timer effect sees the
   * stale 2 s and beeps; the intended engine only announces the new item.
   */
  lemma AsWrittenBeepsOnSkip(a: PlanItem, b: PlanItem)
    requires a.duration == 5 && b.duration == 10
    ensures var plan := [a, b];
      var e := Engine(0, 2, false, true, false);
      ShortBeep in SkipItemAsWritten(plan, e).cues
      && SkipItemAsWritten(plan, e).engine == Engine(1, 10, false, true, false)
      && AfterSkipItem(plan, e) == Outcome(Engine(1, 10, false, true, false), [Announce(Announcement(b))])
  {
    var plan := [a, b];
    var e := Engine(0, 2, false, true, false);
    var stale := Engine(1, 2, false, true, false);
    var loaded := Engine(1, 10, false, true, false);
    assert CommitAsWritten(plan, stale, loaded, false) == Outcome(loaded, []);
    assert CommitAsWritten(plan, e, stale, false)
      == Outcome(loaded, [Announce(Announcement(b)), ShortBeep]);
    assert SkipItemAsWritten(plan, e) == CommitAsWritten(plan, e, stale, false);
    assert Settled(plan, loaded) == Outcome(loaded, []);
    assert AfterSkipItem(plan, e) == Entered(plan, e, 1);
  }

  /**
   * A used-up item before the last: the timer effect long-beeps, announces the next item and
   * settles into it. `heard` is whatever was emitted before.
   */
  lemma ItemEndSettles(plan: seq<PlanItem>, e: Engine, heard: seq<Cue>)
    requires e.index < |plan| - 1 && !e.finished && !e.isPaused && e.timeLeft == 0
    ensures var next := e.(index := e.index + 1, timeLeft := plan[e.index + 1].duration);
      Settled(plan, e).engine == Settled(plan, next).engine
      && heard + Settled(plan, e).cues
         == heard + ((if e.soundEnabled then [LongBeep] else []) + Speak(e, Announcement(plan[e.index + 1])))
            + Settled(plan, next).cues
  {
    var next := e.(index := e.index + 1, timeLeft := plan[e.index + 1].duration);
    var beep := if e.soundEnabled then [LongBeep] else [];
    var spoken := Speak(e, Announcement(plan[e.index + 1]));
    assert Settled(plan, e).cues == beep + (spoken + Settled(plan, next).cues);
  }

  // ---------------------------------------------------------------------------
  // The component's state cells

  class Session {
    const plan: seq<PlanItem>
    var index: nat
    var timeLeft: nat
    var isPaused: bool
    var soundEnabled: bool
    var finished: bool
    var showExitConfirm: bool
    var exitCalls: nat
    /** Everything spoken or beeped so far. */
    var cues: seq<Cue>

    function State(): Engine
      reads this
    {
      Engine(index, timeLeft, isPaused, soundEnabled, finished)
    }

    ghost predicate Valid()
      reads this
    {
      Ok(plan, State())
    }

    /** The timer effect and the item changes it cascades into, one finished item at a time. */
    method RunTimerEffect()
      requires index < |plan|
      modifies this
      ensures State() == Settled(plan, old(State())).engine
      ensures cues == old(cues) + Settled(plan, old(State())).cues
      ensures showExitConfirm == old(showExitConfirm) && exitCalls == old(exitCalls)
    {
      ghost var goal := Settled(plan, State());
      var i, left, done, heard := index, timeLeft, finished, cues;
      var paused, sound := isPaused, soundEnabled;
      while !done && !paused && left == 0
        modifies {}
        invariant i < |plan|
        invariant Settled(plan, Engine(i, left, paused, sound, done)).engine == goal.engine
        invariant heard + Settled(plan, Engine(i, left, paused, sound, done)).cues == old(cues) + goal.cues
        decreases |plan| - i, if done then 0 else 1
      {
        ghost var before := Engine(i, left, paused, sound, done);
        ghost var previously := heard;
        var beep := if sound then [LongBeep] else [];
        if i < |plan| - 1 {
          i := i + 1;
          left := plan[i].duration;
          var spoken := if sound then [Announce(Announcement(plan[i]))] else [];
          heard := heard + (beep + spoken);
          ItemEndSettles(plan, before, previously);
          assert Engine(i, left, paused, sound, done)
            == before.(index := before.index + 1, timeLeft := plan[before.index + 1].duration);
        } else {
          heard := heard + beep;
          done := true;
        }
      }
      if !done && !paused && sound && left <= 3 {
        heard := heard + [ShortBeep];
      }
      index, timeLeft, finished, cues := i, left, done, heard;
    }

    /** Entering item `i`: the entry effect, then the timer effect. */
    method EnterItem(i: nat)
      requires i < |plan|
      modifies this
      ensures State() == Entered(plan, old(State()), i).engine
      ensures cues == old(cues) + Entered(plan, old(State()), i).cues
      ensures showExitConfirm == old(showExitConfirm) && exitCalls == old(exitCalls)
    {
      index := i;
      timeLeft := plan[i].duration;
      if soundEnabled {
        cues := cues + [Announce(Announcement(plan[i]))];
      }
      RunTimerEffect();
    }

    constructor (items: seq<PlanItem>)
      requires |items| > 0
      ensures plan == items && Valid()
      ensures State() == Mount(items).engine && cues == Mount(items).cues
      ensures !showExitConfirm && exitCalls == 0
    {
      plan := items;
      index, timeLeft := 0, items[0].duration;
      isPaused, soundEnabled, finished := false, true, false;
      showExitConfirm, exitCalls := false, 0;
      cues := [];
      new;
      EnterItem(0);
    }

    /** The armed one-second timeout firing. */
    method Tick()
      requires Valid()
      modifies this
      ensures Valid() && State() == AfterTick(plan, old(State())).engine
      ensures cues == old(cues) + AfterTick(plan, old(State())).cues
      ensures showExitConfirm == old(showExitConfirm) && exitCalls == old(exitCalls)
    {
      if finished || isPaused || timeLeft == 0 {
        return;
      }
      timeLeft := timeLeft - 1;
      RunTimerEffect();
    }

    method TogglePause()
      requires Valid() && !finished
      modifies this
      ensures Valid() && State() == AfterTogglePause(plan, old(State())).engine
      ensures cues == old(cues) + AfterTogglePause(plan, old(State())).cues
      ensures showExitConfirm == old(showExitConfirm) && exitCalls == old(exitCalls)
    {
      isPaused := !isPaused;
      RunTimerEffect();
    }

    method ToggleSound()
      requires Valid() && !finished
      modifies this
      ensures Valid() && State() == AfterToggleSound(plan, old(State())).engine
      ensures cues == old(cues) + AfterToggleSound(plan, old(State())).cues
      ensures showExitConfirm == old(showExitConfirm) && exitCalls == old(exitCalls)
    {
      soundEnabled := !soundEnabled;
      RunTimerEffect();
    }

    method SkipItem()
      requires Valid() && !finished
      modifies this
      ensures Valid() && State() == AfterSkipItem(plan, old(State())).engine
      ensures cues == old(cues) + AfterSkipItem(plan, old(State())).cues
      ensures showExitConfirm == old(showExitConfirm) && exitCalls == old(exitCalls)
    {
      if index < |plan| - 1 {
        EnterItem(index + 1);
      } else {
        finished := true;
      }
    }

    method SkipToEnd()
      requires Valid() && !finished
      modifies this
      ensures Valid() && State() == AfterSkipToEnd(old(State())).engine
      ensures cues == old(cues)
      ensures showExitConfirm == old(showExitConfirm) && exitCalls == old(exitCalls)
    {
      finished := true;
    }

    /** The exit button only opens the dialog; the timer keeps running. */
    method HandleExitClick()
      modifies this
      ensures showExitConfirm && State() == old(State()) && cues == old(cues) && exitCalls == old(exitCalls)
    {
      showExitConfirm := true;
    }

    method CancelExit()
      modifies this
      ensures !showExitConfirm && State() == old(State()) && cues == old(cues) && exitCalls == old(exitCalls)
    {
      showExitConfirm := false;
    }

    /** `confirmExit` (lines 140-143): close the dialog and call `onExit` once. */
    method ConfirmExit()
      modifies this
      ensures !showExitConfirm && exitCalls == old(exitCalls) + 1
      ensures State() == old(State()) && cues == old(cues)
    {
      showExitConfirm := false;
      exitCalls := exitCalls + 1;
    }
  }
}
