# Virtual Coach: a Dafny model of the workout player, forms and statistics

This project models the core of the Virtual Coach web app in Dafny. The app has two React/TypeScript frontends:

- The first frontend (`virtual_coach_app_frontend/`):
  - the `usePlayer` hook;
  - the training player that drives it from the keyboard;
  - the preference form and its validator;
  - the exercise and workout cards, with their label lookups;
  - the error normaliser.
- The second frontend (`frontend/`):
  - the player screen, a self-contained countdown engine with spoken and beeped cues;
  - the completion screen, which rates a workout and builds the record to save;
  - the calorie estimate;
  - the sign-up form;
  - the weekly totals, per-date trend and muscle distribution of the statistics service.

How the model is written:

- Pure logic becomes datatypes, functions and lemmas.
- Components and hooks that update state cells become classes. Their methods state the new state against a specification function of the old one.
- The loops of the statistics service become `for` loops with invariants. They are proved against recursive specification functions.
- React effects are folded into the command that triggers them. After each command the model's state is the one the effects settle in.
- An `await` splits a handler into a `Begin…` method, which returns the request sent to the backend, and a `Finish…` method, which receives the outcome.

Modules (one per file): `Wrappers`, `Numbers`, `Decimal`, `Clock`, `Enums`, `DataModel`, `DbTypes`, `UsePlayer`, `TrainingPlayer`, `PlayerScreen`, `Validators`, `PreferenceForm`, `WorkoutLogService`, `CompletedScreen`, `StatsService`, `RegisterScreen`, `ErrorHandler`, `ExerciseCard`, `WorkoutCard`.

JavaScript semantics the model writes out:

- A JavaScript number is `Numbers.Number`, which is `NaN` or an exact real.
- `Math.round(x)` is `floor(x + 0.5)`.
- `a || b` falls back on every falsy value: `""`, `0`, `NaN` and `undefined`.
- `undefined` and `null` are `Option.None`.

## Model

| member | source | states |
|---|---|---|
| Numbers.Round | frontend/services/workoutLogService.ts:148 | `Math.round`: the nearest integer, halves rounded up (`r - 0.5 <= x < r + 0.5`) |
| Numbers.RoundMonotone | frontend/services/workoutLogService.ts:148 | rounding never reverses the order of two numbers |
| Numbers.Clamp | frontend/services/workoutLogService.ts:148 | `Math.max(lo, Math.min(hi, n))` lies in `lo..hi` and is `n` when `n` already does |
| Decimal.NatToString | virtual_coach_app_frontend/src/hooks/usePlayer.ts:60 | `toString()` of a natural number: non-empty decimal digits, a single digit exactly below 10 |
| Decimal.StringToNatOfNatToString | virtual_coach_app_frontend/src/hooks/usePlayer.ts:60 | the decimal rendering reads back as the same number |
| Clock.PadStart2 | virtual_coach_app_frontend/src/hooks/usePlayer.ts:60 | `padStart(2, '0')` gives two characters: "00" for an empty string, a leading 0 for one character, and a two-character string unchanged |
| Clock.FormatTime | virtual_coach_app_frontend/src/hooks/usePlayer.ts:57-61 | `M:SS`: the minutes in decimal, a colon, and two digits; the same function is the `formatTime` of frontend/components/player/PlayerScreen.tsx, lines 145-149 |
| Clock.SecondsFieldReadsBack | virtual_coach_app_frontend/src/hooks/usePlayer.ts:59-60 | the two-digit field is the seconds of the minute |
| Clock.FormatTimeRoundTrip | virtual_coach_app_frontend/src/hooks/usePlayer.ts:57-61 | parsing the rendering gives back the number of seconds |
| Clock.FormatTimeExamples | virtual_coach_app_frontend/tests/unit/usePlayer.test.ts:197-198 | 40 s is `0:40`; 125 s is `2:05` |
| Enums.GoalValue | virtual_coach_app_frontend/src/types/enums.ts:4-8 | the string value of each training goal |
| Enums.MuscleValue | virtual_coach_app_frontend/src/types/enums.ts:13-20 | the string value of each target muscle |
| Enums.LevelValue | virtual_coach_app_frontend/src/types/enums.ts:25-29 | the string value of each difficulty level |
| Enums.MuscleValueInjective | virtual_coach_app_frontend/src/types/enums.ts:13-20 | distinct muscles have distinct string values |
| UsePlayer.ProgressPercent | virtual_coach_app_frontend/src/hooks/usePlayer.ts:66-68 | 0 for a zero total; otherwise the rounded `elapsed / total * 100` |
| UsePlayer.LoadState | virtual_coach_app_frontend/src/hooks/usePlayer.ts:38-43 | on mounting, a non-empty plan plays item 0 with its full duration; an empty plan is completed at once |
| UsePlayer.CommandsKeepInv | virtual_coach_app_frontend/src/hooks/usePlayer.ts:79-154 | every command keeps the index on an item and remaining within that item's duration |
| UsePlayer.PauseResume | virtual_coach_app_frontend/src/hooks/usePlayer.ts:111-124 | pause and resume set only the two flags; resuming after a pause is the same as resuming |
| UsePlayer.TickIgnoredWhenInactive | virtual_coach_app_frontend/src/hooks/usePlayer.ts:79-82 | a tick while completed, stopped, paused, or on an empty plan changes nothing |
| UsePlayer.TickCountsDown | virtual_coach_app_frontend/src/hooks/usePlayer.ts:98-100 | with more than one second left, a tick moves one second from remaining to elapsed |
| UsePlayer.TickOnLastSecond | virtual_coach_app_frontend/src/hooks/usePlayer.ts:84-96 | on the last second a tick loads the next item, or completes on the last item; elapsed is unchanged |
| UsePlayer.NextMovesOrCompletes | virtual_coach_app_frontend/src/hooks/usePlayer.ts:126-135 | `next` credits the unplayed seconds and moves on, or completes on the last item |
| UsePlayer.PreviousStepsBack | virtual_coach_app_frontend/src/hooks/usePlayer.ts:137-145 | `previous` does nothing on item 0; otherwise it reloads the previous item and takes the duration of the item being left off elapsed (never below 0) |
| UsePlayer.DurationAt | virtual_coach_app_frontend/src/hooks/usePlayer.ts:141-149 | `exercises[i]?.exercise.duration_seconds \|\| 0`: the item's duration, 0 when there is no such item |
| UsePlayer.ResetRestarts | virtual_coach_app_frontend/src/hooks/usePlayer.ts:147-154 | `reset` goes to item 0 with its duration, playing, from any state: a fresh mount for a non-empty plan; for an empty plan it clears the completed flag the mount set, and ticks then change nothing |
| UsePlayer.ItemWithinTotal | virtual_coach_app_frontend/src/hooks/usePlayer.ts:51-54 | every item's duration is part of `totalSeconds` |
| UsePlayer.ProgressStartsAtZero | virtual_coach_app_frontend/tests/unit/usePlayer.test.ts:183 | progress is 0 after mounting |
| UsePlayer.ProgressCanExceedHundred | virtual_coach_app_frontend/src/hooks/usePlayer.ts:126-145 | `next`, `previous`, `next` on a 10 s + 1 s plan gives elapsed 20 of a total of 11, so progress is 182 |
| UsePlayer.TickUsesOneTick | virtual_coach_app_frontend/src/hooks/usePlayer.ts:79-101 | each tick of a running player uses exactly one of its remaining ticks |
| UsePlayer.StillRunning | virtual_coach_app_frontend/src/hooks/usePlayer.ts:79-101 | fewer ticks than are left keep the player running, with the invariant kept |
| UsePlayer.FinishesAfterTicksLeft | virtual_coach_app_frontend/src/hooks/usePlayer.ts:79-101 | exactly the ticks left complete the player, with the elapsed seconds predicted |
| UsePlayer.SuffixOfPositiveItems | virtual_coach_app_frontend/src/hooks/usePlayer.ts:51-54 | with no zero-length item, the ticks needed equal the total and elapsed loses one second per item |
| UsePlayer.PlanCompletesAfterTotalSeconds | virtual_coach_app_frontend/src/hooks/usePlayer.ts:79-101 | with no zero-length item, a plan is running after total−1 ticks and completed after total ticks, with elapsed = total − items |
| UsePlayer.TwoFortySecondItems | virtual_coach_app_frontend/tests/unit/usePlayer.test.ts:75-83 | two 40 s items: total 80, `0:40` shown first, running after 79 ticks, completed after 80, progress 98 |
| UsePlayer.Player.constructor | virtual_coach_app_frontend/src/hooks/usePlayer.ts:38-49 | mounting gives `Load(plan)` |
| UsePlayer.Player.Tick | virtual_coach_app_frontend/src/hooks/usePlayer.ts:79-101 | the interval callback updates the cells to `AfterTick` of the old state |
| UsePlayer.Player.Play | virtual_coach_app_frontend/src/hooks/usePlayer.ts:111-114 | `play` clears the pause and starts playing |
| UsePlayer.Player.Pause | virtual_coach_app_frontend/src/hooks/usePlayer.ts:116-119 | `pause` sets the two flags |
| UsePlayer.Player.Resume | virtual_coach_app_frontend/src/hooks/usePlayer.ts:121-124 | `resume` sets the two flags |
| UsePlayer.Player.Next | virtual_coach_app_frontend/src/hooks/usePlayer.ts:126-135 | `next` updates the cells to `AfterNext` |
| UsePlayer.Player.Previous | virtual_coach_app_frontend/src/hooks/usePlayer.ts:137-145 | `previous` updates the cells to `AfterPrevious` |
| UsePlayer.Player.Reset | virtual_coach_app_frontend/src/hooks/usePlayer.ts:147-154 | `reset` updates the cells to `AfterReset` |
| UsePlayer.Load | virtual_coach_app_frontend/src/hooks/usePlayer.ts:38-43 | reference state after mounting: item 0 at its full duration and playing, or completed for an empty plan |
| UsePlayer.AfterTick | virtual_coach_app_frontend/src/hooks/usePlayer.ts:79-101 | reference state after one interval firing: one second less, or on the last second the next item loaded or the player completed |
| UsePlayer.AfterPause | virtual_coach_app_frontend/src/hooks/usePlayer.ts:116-119 | reference state after `pause`: paused and not playing, nothing else changed |
| UsePlayer.AfterResume | virtual_coach_app_frontend/src/hooks/usePlayer.ts:121-124 | reference state after `resume` (and `play`): playing and not paused, nothing else changed |
| UsePlayer.AfterNext | virtual_coach_app_frontend/src/hooks/usePlayer.ts:126-135 | reference state after `next`: the next item loaded with the skipped seconds credited, or completion on the last item |
| UsePlayer.AfterPrevious | virtual_coach_app_frontend/src/hooks/usePlayer.ts:137-145 | reference state after `previous`: no move at item 0, otherwise the previous item loaded and the left item's duration taken off the elapsed time, floored at 0 |
| UsePlayer.AfterReset | virtual_coach_app_frontend/src/hooks/usePlayer.ts:147-154 | reference state after `reset`: index 0 at item 0's duration, nothing elapsed, playing, not paused, not completed, whatever the state before |
| UsePlayer.TotalSeconds | virtual_coach_app_frontend/src/hooks/usePlayer.ts:51-54 | reference sum of the item durations, a missing duration counting 0 |
| UsePlayer.FormattedTime | virtual_coach_app_frontend/src/hooks/usePlayer.ts:63 | reference rendering of the remaining seconds as M:SS |
| TrainingPlayer.SpaceTogglesPause | virtual_coach_app_frontend/src/components/player/TrainingPlayer.tsx:25-34 | Space and 'Spacebar' resume a paused player and pause any other |
| TrainingPlayer.ArrowsStepAndOtherKeysDoNothing | virtual_coach_app_frontend/src/components/player/TrainingPlayer.tsx:35-47 | the arrows call `next`/`previous`; an unlisted key changes nothing |
| TrainingPlayer.EscapeOnlyOpensDialog | virtual_coach_app_frontend/src/components/player/TrainingPlayer.tsx:43-46 | Escape opens the exit dialog and touches nothing else |
| TrainingPlayer.CanGoPreviousMeansPreviousMoves | virtual_coach_app_frontend/src/components/player/TrainingPlayer.tsx:158 | the previous button is enabled exactly when `previous` would change the player |
| TrainingPlayer.NextEnabledWhileControlsShown | virtual_coach_app_frontend/src/components/player/TrainingPlayer.tsx:159 | the next button is enabled whenever the controls are on screen |
| TrainingPlayer.RestartLeavesCompletionScreen | virtual_coach_app_frontend/src/components/player/TrainingPlayer.tsx:77-87 | restarting from the completion screen brings the controls back, in the state of a fresh mount |
| TrainingPlayer.Component.constructor | virtual_coach_app_frontend/src/components/player/TrainingPlayer.tsx:18-20 | a freshly loaded player, with the dialog closed |
| TrainingPlayer.Component.HandleKeyDown | virtual_coach_app_frontend/src/components/player/TrainingPlayer.tsx:23-52 | the keydown listener updates the view to `AfterKey` |
| TrainingPlayer.Component.HandlePlayPause | virtual_coach_app_frontend/src/components/player/TrainingPlayer.tsx:55-61 | resume when paused, pause otherwise |
| TrainingPlayer.Component.HandleExitClick | virtual_coach_app_frontend/src/components/player/TrainingPlayer.tsx:64-66 | opens the dialog only |
| TrainingPlayer.Component.HandleExitCancel | virtual_coach_app_frontend/src/components/player/TrainingPlayer.tsx:72-74 | closes the dialog only |
| TrainingPlayer.Component.HandleExitConfirm | virtual_coach_app_frontend/src/components/player/TrainingPlayer.tsx:68-70 | calls `onExit` once, with nothing else changed |
| TrainingPlayer.Component.Restart | virtual_coach_app_frontend/src/components/player/TrainingPlayer.tsx:83 | the restart button is `reset` |
| TrainingPlayer.KeyCommand | virtual_coach_app_frontend/src/components/player/TrainingPlayer.tsx:25-47 | reference mapping from a key to the command the keydown switch issues, with no command for keys it does not list |
| TrainingPlayer.AfterPlayPause | virtual_coach_app_frontend/src/components/player/TrainingPlayer.tsx:55-61 | reference state after `handlePlayPause`: resume when paused, otherwise pause |
| TrainingPlayer.AfterCommand | virtual_coach_app_frontend/src/components/player/TrainingPlayer.tsx:25-47 | reference view after a command: the hook's operation applied, or the exit dialog opened |
| TrainingPlayer.AfterKey | virtual_coach_app_frontend/src/components/player/TrainingPlayer.tsx:23-51 | reference view after a key press: the command of the key, applied |
| TrainingPlayer.CanGoPrevious | virtual_coach_app_frontend/src/components/player/TrainingPlayer.tsx:158 | the previous button is enabled exactly when the index is past 0 |
| TrainingPlayer.CanGoNext | virtual_coach_app_frontend/src/components/player/TrainingPlayer.tsx:159 | the next button is enabled before the last item or whenever the player is not completed |
| TrainingPlayer.Rendered | virtual_coach_app_frontend/src/components/player/TrainingPlayer.tsx:77-87 | which screen renders: the completion screen once completed, the controls otherwise |
| TrainingPlayer.InitialCells | virtual_coach_app_frontend/src/hooks/usePlayer.ts:40-45 | the hook's cells on the first render, before any effect: index 0, nothing remaining or elapsed, playing, not paused, not completed |
| TrainingPlayer.RenderThrows | virtual_coach_app_frontend/src/components/player/TrainingPlayer.tsx:107 | the controls branch reads the current exercise, which is missing exactly for an empty plan |
| TrainingPlayer.EmptyPlanRenderThrows | virtual_coach_app_frontend/src/components/player/TrainingPlayer.tsx:77-107 | an empty plan throws on its first render and after a restart; a non-empty plan never throws in the first-render, mounted or restarted state |
| PlayerScreen.Announcement | frontend/components/player/PlayerScreen.tsx:83-87 | exercises are announced as "準備，" + title; rests as "休息一下" |
| PlayerScreen.Speak | frontend/components/player/PlayerScreen.tsx:70-78 | `speak`: the text is announced when sound is on, and nothing is said otherwise |
| PlayerScreen.Entered | frontend/components/player/PlayerScreen.tsx:81-88 | entering item `i` keeps both flags, leaves the engine settled, and announces `i` first when sound is on |
| PlayerScreen.Settled | frontend/components/player/PlayerScreen.tsx:91-114 | the timer effect only moves forward, keeps the flags, leaves an armed timer (or a paused or finished engine), and leaves an already armed engine as it is |
| PlayerScreen.AfterTick | frontend/components/player/PlayerScreen.tsx:95-97 | a timeout firing never moves the index back |
| PlayerScreen.Progress | frontend/components/player/PlayerScreen.tsx:151 | 0 on the first item, and below 100 on any item |
| PlayerScreen.MountState | frontend/components/player/PlayerScreen.tsx:56-59 | a first item with time on it starts at index 0 with its duration, playing with sound on, and is announced |
| PlayerScreen.EnteringLoadsDuration | frontend/components/player/PlayerScreen.tsx:82 | entering an item with time on it loads exactly its duration |
| PlayerScreen.TickCountsDown | frontend/components/player/PlayerScreen.tsx:94-101 | while playing with more than one second left, a tick takes one second off; it short-beeps in the last three seconds |
| PlayerScreen.TickIgnoredWhilePaused | frontend/components/player/PlayerScreen.tsx:92 | while paused no timeout is armed, so nothing changes |
| PlayerScreen.TickOnLastSecond | frontend/components/player/PlayerScreen.tsx:102-108 | the last second long-beeps, then enters the next item or completes on the last |
| PlayerScreen.MutedIsSilent | frontend/components/player/PlayerScreen.tsx:70-71 | with sound off, nothing is spoken or beeped |
| PlayerScreen.MutedTickIsSilent | frontend/components/player/PlayerScreen.tsx:99-103 | a muted tick emits no cue |
| PlayerScreen.SkipItemMovesOn | frontend/components/player/PlayerScreen.tsx:121-128 | `skipItem` keeps the pause flag and enters the next item with its full duration, or completes on the last |
| PlayerScreen.SkipItemOnlyAnnounces | frontend/components/player/PlayerScreen.tsx:121-128 | skipping to an item of more than 3 s only announces it and never short-beeps |
| PlayerScreen.SkipToEndAndTogglePause | frontend/components/player/PlayerScreen.tsx:116-133 | `skipToEnd` completes; `togglePause` flips the flag, and pausing emits nothing |
| PlayerScreen.CommandsKeepOk | frontend/components/player/PlayerScreen.tsx:91-133 | every command leaves the engine settled |
| PlayerScreen.ItemEndSettles | frontend/components/player/PlayerScreen.tsx:102-109 | a used-up item before the last: long beep, announcement of the next item, then the next item settles; the same final engine |
| PlayerScreen.Run | frontend/components/player/PlayerScreen.tsx:95-97 | any number of timeouts keeps the index on an item |
| PlayerScreen.SettleKeepsTicks | frontend/components/player/PlayerScreen.tsx:102-109 | cascading through used-up and zero-length items loses no tick |
| PlayerScreen.TickUsesOneTick | frontend/components/player/PlayerScreen.tsx:95-97 | one tick uses up exactly one of the seconds left in the plan |
| PlayerScreen.RunningBeforeTicksLeft | frontend/components/player/PlayerScreen.tsx:91-114 | fewer ticks than the seconds left keep the engine running |
| PlayerScreen.FinishedAtTicksLeft | frontend/components/player/PlayerScreen.tsx:91-114 | exactly the seconds left finish it |
| PlayerScreen.CountdownWithinItem | frontend/components/player/PlayerScreen.tsx:94-97 | inside one item each tick takes one second off and nothing else |
| PlayerScreen.ItemEndsAfterItsSeconds | frontend/components/player/PlayerScreen.tsx:102-108 | after the `d` seconds an item has left, the engine has moved past it or finished (and before that it only counts down) |
| PlayerScreen.PlanCompletesAfterTotalSeconds | frontend/components/player/PlayerScreen.tsx:91-114 | a plan is running one tick before its total duration and finished after it; a zero-length plan finishes on mounting |
| PlayerScreen.AsWrittenSkipsEnteredItem | frontend/components/player/PlayerScreen.tsx:91-114 | with two 1 s items, the effects as written finish the plan after one tick; the corrected engine is then on the second item, with its second still to run |
| PlayerScreen.AsWrittenBeepsOnSkip | frontend/components/player/PlayerScreen.tsx:99-101 | skipping from 2 s left to a 10 s item: as written, a short beep sounds; the corrected engine only announces |
| PlayerScreen.Session.RunTimerEffect | frontend/components/player/PlayerScreen.tsx:91-114 | the loop over finished items ends in `Settled` of the old state, with its cues appended |
| PlayerScreen.Session.EnterItem | frontend/components/player/PlayerScreen.tsx:81-88 | the entry effect and then the timer effect give `Entered` |
| PlayerScreen.Session.constructor | frontend/components/player/PlayerScreen.tsx:56-60 | mounting gives `Mount(plan)`, with the dialog closed |
| PlayerScreen.Session.Tick | frontend/components/player/PlayerScreen.tsx:95-97 | the timeout firing gives `AfterTick` |
| PlayerScreen.Session.TogglePause | frontend/components/player/PlayerScreen.tsx:116-119 | gives `AfterTogglePause` |
| PlayerScreen.Session.ToggleSound | frontend/components/player/PlayerScreen.tsx:186 | gives `AfterToggleSound` |
| PlayerScreen.Session.SkipItem | frontend/components/player/PlayerScreen.tsx:121-128 | gives `AfterSkipItem` |
| PlayerScreen.Session.SkipToEnd | frontend/components/player/PlayerScreen.tsx:130-133 | finishes with no cue |
| PlayerScreen.Session.HandleExitClick | frontend/components/player/PlayerScreen.tsx:135-138 | opens the dialog; the engine is untouched |
| PlayerScreen.Session.CancelExit | frontend/components/player/PlayerScreen.tsx:157 | closes the dialog; the engine is untouched |
| PlayerScreen.Session.ConfirmExit | frontend/components/player/PlayerScreen.tsx:140-143 | closes the dialog and calls `onExit` once |
| PlayerScreen.Mount | frontend/components/player/PlayerScreen.tsx:56-59 | reference outcome of mounting: item 0 with its duration, playing with sound on, then the entry and timer effects |
| PlayerScreen.AfterTogglePause | frontend/components/player/PlayerScreen.tsx:116-119 | reference outcome of `togglePause`: the pause flag flipped, then the timer effect |
| PlayerScreen.AfterToggleSound | frontend/components/player/PlayerScreen.tsx:186 | reference outcome of the sound button: the sound flag flipped, then the timer effect |
| PlayerScreen.AfterSkipItem | frontend/components/player/PlayerScreen.tsx:121-128 | reference outcome of `skipItem`: the next item entered, or completion on the last item |
| PlayerScreen.AfterSkipToEnd | frontend/components/player/PlayerScreen.tsx:130-133 | reference outcome of `skipToEnd`: finished, with no cue |
| PlayerScreen.CommitAsWritten | frontend/components/player/PlayerScreen.tsx:81-114 | the two effects as React runs them: both read the committed render, so a timer effect in the commit that changes the index still sees the old `timeLeft` |
| PlayerScreen.MountAsWritten | frontend/components/player/PlayerScreen.tsx:56-114 | mounting under the as-written commit rule |
| PlayerScreen.TickAsWritten | frontend/components/player/PlayerScreen.tsx:95-97 | a timeout firing under the as-written commit rule |
| PlayerScreen.SkipItemAsWritten | frontend/components/player/PlayerScreen.tsx:121-128 | `skipItem` under the as-written commit rule |
| PlayerScreen.CommitAsWrittenNeverGoesBack | frontend/components/player/PlayerScreen.tsx:81-114 | as written, a cascade of commits never moves the index back and stays on an item |
| PlayerScreen.AsWrittenItemEndSkipsNext | frontend/components/player/PlayerScreen.tsx:91-114 | as written, the last second of any item before the second-to-last lands the engine two or more items on; the intended engine enters the next item at its full duration |
| Validators.ValidateTrainingGoal | virtual_coach_app_frontend/src/utils/validators.ts:65-67 | true exactly for the value of some training goal |
| Validators.ValidateTargetMuscle | virtual_coach_app_frontend/src/utils/validators.ts:72-74 | true exactly for the value of some muscle |
| Validators.ValidateDifficultyLevel | virtual_coach_app_frontend/src/utils/validators.ts:79-81 | true exactly for the value of some level |
| Validators.InvalidMuscles | virtual_coach_app_frontend/src/utils/validators.ts:32-34 | exactly the entries that are not muscles |
| Validators.Join | virtual_coach_app_frontend/src/utils/validators.ts:36 | `join(', ')` of no item is empty and of one item is that item; its partner lemmas below fix the separator and the order |
| Validators.ValidatePreferences | virtual_coach_app_frontend/src/utils/validators.ts:18-60 | the errors are each field's error in field order, and the result is valid iff there is none |
| Validators.ValidateAvailableMinutes | virtual_coach_app_frontend/src/utils/validators.ts:86-101 | NaN, under 15 and over 120 each give their own message; 15..120 passes |
| Validators.ValidateEquipment | virtual_coach_app_frontend/src/utils/validators.ts:106-118 | every array passes, even an empty one; anything else fails |
| Validators.NoErrorsIffAcceptable | virtual_coach_app_frontend/src/utils/validators.ts:18-60 | no error exactly when goal, muscles (non-empty, all valid), level and 15..120 minutes are all given and well formed |
| Validators.MusclesAllValid | virtual_coach_app_frontend/src/utils/validators.ts:32-35 | a list of muscle values has no invalid entry |
| Validators.ErrorsInFieldOrder | virtual_coach_app_frontend/src/utils/validators.ts:18-60 | at most four errors; the goal error comes first, the minutes error last |
| Validators.FieldMessages | virtual_coach_app_frontend/src/utils/validators.ts:22-54 | each missing or invalid field gets its own message, and a well-formed field gets none |
| Validators.InvalidMusclesOfConcat | virtual_coach_app_frontend/src/utils/validators.ts:32-34 | filtering keeps the input order |
| Validators.AllInvalidReportedInOrder | virtual_coach_app_frontend/src/utils/validators.ts:32-36 | a list of non-muscles is reported whole, in its own order |
| Validators.MusclesErrorExample | virtual_coach_app_frontend/src/utils/validators.ts:36 | `['chest','wings','tail']` gives "無效的目標肌群: wings, tail" |
| Validators.MinuteChecksAgree | virtual_coach_app_frontend/src/utils/validators.ts:48-54 | the form check and `validateAvailableMinutes` agree on every non-zero number; NaN and 0 count as missing in the form |
| Validators.GoalError | virtual_coach_app_frontend/src/utils/validators.ts:21-26 | reference error for the goal field: missing when falsy, invalid when not a goal value |
| Validators.MusclesError | virtual_coach_app_frontend/src/utils/validators.ts:28-38 | reference error for the muscles field: missing when absent or empty, otherwise the invalid entries joined after the prefix |
| Validators.LevelError | virtual_coach_app_frontend/src/utils/validators.ts:40-45 | reference error for the level field: missing when falsy, invalid when not a level value |
| Validators.MinutesError | virtual_coach_app_frontend/src/utils/validators.ts:47-54 | reference error for the minutes field: missing when falsy (0, NaN, absent), otherwise too short below 15 or too long above 120 |
| Validators.PreferenceErrors | virtual_coach_app_frontend/src/utils/validators.ts:18-59 | reference error list: the four fields' errors in field order |
| Validators.JoinOfConcat | virtual_coach_app_frontend/src/utils/validators.ts:36 | joining two non-empty lists is joining each with one ", " between them |
| Validators.JoinAppend | virtual_coach_app_frontend/src/utils/validators.ts:36 | every further item is added after a ", ", in list order |
| Validators.AllInvalidNamedInMessage | virtual_coach_app_frontend/src/utils/validators.ts:28-38 | a list of non-muscles is named whole in the message, exactly as `join(', ')` of the list |
| PreferenceForm.Without | virtual_coach_app_frontend/src/components/preferences/PreferenceForm.tsx:33 | `filter(m => m !== muscle)` keeps exactly the other muscles |
| PreferenceForm.Payload | virtual_coach_app_frontend/src/components/preferences/PreferenceForm.tsx:46-51 | an unselected goal or level becomes `undefined`; the muscles keep their order as strings |
| PreferenceForm.MuscleLabel | virtual_coach_app_frontend/src/components/preferences/PreferenceForm.tsx:231-241 | every muscle has a non-empty label |
| PreferenceForm.ToggleAbsentAppends | virtual_coach_app_frontend/src/components/preferences/PreferenceForm.tsx:30-36 | toggling an unselected muscle appends it |
| PreferenceForm.WithoutAbsent | virtual_coach_app_frontend/src/components/preferences/PreferenceForm.tsx:33 | removing an absent muscle changes nothing |
| PreferenceForm.TailNoDuplicates | virtual_coach_app_frontend/src/components/preferences/PreferenceForm.tsx:30-36 | the tail of a selection without duplicates has none and lacks the head |
| PreferenceForm.WithoutAt | virtual_coach_app_frontend/src/components/preferences/PreferenceForm.tsx:33 | in a selection without duplicates, removing the muscle at `i` deletes exactly that position |
| PreferenceForm.TogglePresentRemoves | virtual_coach_app_frontend/src/components/preferences/PreferenceForm.tsx:30-36 | toggling a selected muscle deletes it and keeps the others in order |
| PreferenceForm.ToggleKeepsNoDuplicates | virtual_coach_app_frontend/src/components/preferences/PreferenceForm.tsx:30-36 | toggling never creates a duplicate |
| PreferenceForm.ToggleTwiceRestores | virtual_coach_app_frontend/src/components/preferences/PreferenceForm.tsx:30-36 | toggling an unselected muscle twice restores the selection |
| PreferenceForm.ToggleSelectedTwiceMovesToEnd | virtual_coach_app_frontend/src/components/preferences/PreferenceForm.tsx:30-36 | toggling a selected muscle twice does not restore the selection: the muscle moves to the end and the others keep their order |
| PreferenceForm.PayloadErrors | virtual_coach_app_frontend/src/components/preferences/PreferenceForm.tsx:46-58 | the form is refused exactly when the goal, the level or every muscle is missing, or the minutes are outside 15..120 |
| PreferenceForm.CompleteFormIsAccepted | virtual_coach_app_frontend/src/components/preferences/PreferenceForm.tsx:21-62 | the default 30 minutes with a goal, a muscle and a level are submitted |
| PreferenceForm.EmptyFormErrors | virtual_coach_app_frontend/tests/unit/PreferenceForm.test.tsx:30-61 | an untouched form gives the goal, muscle and level errors, in that order |
| PreferenceForm.Form.constructor | virtual_coach_app_frontend/src/components/preferences/PreferenceForm.tsx:21-25 | nothing is selected, 30 minutes, no errors |
| PreferenceForm.Form.SelectGoal | virtual_coach_app_frontend/src/components/preferences/PreferenceForm.tsx:87 | sets the goal only |
| PreferenceForm.Form.SelectDifficulty | virtual_coach_app_frontend/src/components/preferences/PreferenceForm.tsx:155 | sets the level only |
| PreferenceForm.Form.SetAvailableMinutes | virtual_coach_app_frontend/src/components/preferences/PreferenceForm.tsx:205 | sets the minutes only |
| PreferenceForm.Form.HandleMuscleToggle | virtual_coach_app_frontend/src/components/preferences/PreferenceForm.tsx:30-36 | the selection becomes `Toggled` of the old one, with no duplicate |
| PreferenceForm.Form.HandleSubmit | virtual_coach_app_frontend/src/components/preferences/PreferenceForm.tsx:41-62 | the errors are the validator's; the payload is submitted iff there is none |
| PreferenceForm.Toggled | virtual_coach_app_frontend/src/components/preferences/PreferenceForm.tsx:30-36 | reference updater of `handleMuscleToggle`: the muscle filtered out when present, appended when absent |
| WorkoutLogService.ValidRating | frontend/services/workoutLogService.ts:148 | a finite rating is rounded and clamped to 1..5; NaN stays NaN |
| WorkoutLogService.EffectiveWeight | frontend/services/workoutLogService.ts:152 | a positive weight is used; anything else counts as 70 |
| WorkoutLogService.CaloriesBurned | frontend/services/workoutLogService.ts:131-155 | 0 for zero seconds; never negative for a non-negative duration |
| WorkoutLogService.CaloriesExamples | frontend/services/workoutLogService.ts:131-155 | 30 minutes at rating 3 for 70 kg is 175 kcal, which is also the result with the defaults |
| WorkoutLogService.RatingsAreClamped | frontend/services/workoutLogService.ts:148 | 99 counts as 5, −3 as 1, 2.4 as 2 |
| WorkoutLogService.SameRatingSameCalories | frontend/services/workoutLogService.ts:148-155 | the estimate depends on the rating only through its rounded and clamped value |
| WorkoutLogService.FallbackOnlyForNaN | frontend/services/workoutLogService.ts:139-149 | every finite rating finds its MET value in the table; only NaN reaches 5.0 |
| WorkoutLogService.NonPositiveWeightIsDefault | frontend/services/workoutLogService.ts:152 | a weight ≤ 0, or NaN, gives the same as 70 kg |
| WorkoutLogService.MetMonotone | frontend/services/workoutLogService.ts:139-149 | the MET value never falls as the rating rises |
| WorkoutLogService.ProductRoundMonotone | frontend/services/workoutLogService.ts:152-154 | the rounded product MET x weight x hours never falls as the MET value rises, for a weight and a duration that are not negative |
| WorkoutLogService.CaloriesMonotoneInRating | frontend/services/workoutLogService.ts:131-155 | a higher rating never gives fewer calories |
| WorkoutLogService.Met | frontend/services/workoutLogService.ts:139-149 | reference MET lookup: the table value for the rating, 5.0 when the lookup gives nothing |
| WorkoutLogService.OmittedArgumentsAreDefaults | frontend/services/workoutLogService.ts:131-135 | for every duration, an omitted rating gives what rating 3 gives, and an omitted weight what 70 kg gives |
| CompletedScreen.ExerciseCount | frontend/components/player/CompletedScreen.tsx:28 | at most the number of items |
| CompletedScreen.Screen.CurrentStats | frontend/components/player/CompletedScreen.tsx:27-41 | the memoised statistics are Stats of the current duration, plan, rating and weight |
| CompletedScreen.Stats | frontend/components/player/CompletedScreen.tsx:27-42 | the minutes and exercise count, with calories estimated at rating 3 until one is chosen |
| CompletedScreen.SaveRequest | frontend/components/player/CompletedScreen.tsx:44-68 | a record is built iff a user, a rating and a feeling are present, with each field as sent |
| CompletedScreen.CountsAddUp | frontend/components/player/CompletedScreen.tsx:28 | exercises plus rests are all the items; counts add over concatenation |
| CompletedScreen.SavedCaloriesMatchEstimate | frontend/components/player/CompletedScreen.tsx:27-58 | the saved calories equal the estimate on screen for the chosen rating |
| CompletedScreen.EnabledButtonSaves | frontend/components/player/CompletedScreen.tsx:169 | an enabled button, for a signed-in user, always saves |
| CompletedScreen.RefusalMeansDisabledOrGuest | frontend/components/player/CompletedScreen.tsx:45-48 | a refusal means a guest or a disabled button |
| CompletedScreen.Screen.constructor | frontend/components/player/CompletedScreen.tsx:21-24 | no rating, no feeling, not saving |
| CompletedScreen.Screen.SetRating | frontend/components/player/CompletedScreen.tsx:134 | sets the rating only |
| CompletedScreen.Screen.SetFeeling | frontend/components/player/CompletedScreen.tsx:154 | sets the feeling only |
| CompletedScreen.Screen.BeginSave | frontend/components/player/CompletedScreen.tsx:44-68 | refuses with an alert, or sets `saving` and returns `SaveRequest` |
| CompletedScreen.Screen.FinishSave | frontend/components/player/CompletedScreen.tsx:70-76 | `saved` only on success, an alert on failure, `saving` cleared either way |
| CompletedScreen.SaveDisabled | frontend/components/player/CompletedScreen.tsx:169 | the save button is disabled while saving, with no rating, or with no feeling |
| StatsService.Weekly | frontend/services/statsService.ts:57-64 | the number of logs; the average times the count is the rating sum; 0 for no logs |
| StatsService.SumsOfConcat | frontend/services/statsService.ts:59-62 | each total adds over concatenated log lists |
| StatsService.RatingSumBounds | frontend/services/statsService.ts:62 | with ratings in 1..5, the sum lies between 0 and 5 per log |
| StatsService.AverageRatingBounds | frontend/services/statsService.ts:61-63 | the average rating lies in 0..5 |
| StatsService.QuotientBounds | frontend/services/statsService.ts:61-63 | dividing a rating sum in 0..5n by the n logs gives a value in 0..5 |
| StatsService.UnratedLogCounts | frontend/services/statsService.ts:61-63 | an unrated log counts in the denominator: ratings 4 and none average 2 |
| StatsService.StrLessIrreflexive | frontend/services/statsService.ts:111-113 | no date key sorts before itself |
| StatsService.StrLessTotal | frontend/services/statsService.ts:111-113 | distinct keys are ordered one way or the other |
| StatsService.StrLessTransitive | frontend/services/statsService.ts:111-113 | the order is transitive |
| StatsService.DateKey | frontend/services/statsService.ts:96 | `split('T')[0]`: the longest prefix without 'T', which is followed by a 'T' when it is not the whole string |
| StatsService.LogDate | frontend/services/statsService.ts:96 | a log's date key is the key of its `workout_date` |
| StatsService.NothingOnAbsentDate | frontend/services/statsService.ts:95-108 | a date that no log has gets no minutes and no calories |
| StatsService.InsertByDateSorted | frontend/services/statsService.ts:111-113 | inserting a point with a new date into a date-sorted list keeps it sorted, and the new head is the point or the old head |
| StatsService.InsertByDatePermutes | frontend/services/statsService.ts:111-113 | inserting adds exactly that one point: the result is a permutation of the old list plus it |
| StatsService.PermutationAvoidsDate | frontend/services/statsService.ts:111-113 | reordering points keeps a date absent, so the point being inserted has the only copy of its date |
| StatsService.SortByDate | frontend/services/statsService.ts:111-113 | the sort gives a date-ordered permutation |
| StatsService.InsertByDate | frontend/services/statsService.ts:111-113 | reference insertion step of the date sort: the point placed before the first entry with a later date |
| StatsService.StrLess | frontend/services/statsService.ts:112 | reference order standing in for `localeCompare`: code-point order, a proper prefix coming first |
| StatsService.SortedHasDistinctDates | frontend/services/statsService.ts:111-113 | in a date-sorted list every earlier date is smaller, so no date repeats |
| StatsService.DatesOfSnoc | frontend/services/statsService.ts:95-96 | one more log adds its date key to the dates |
| StatsService.AddToDateSums | frontend/services/statsService.ts:98-107 | after adding one log, each entry still holds its date's minutes and calories, and the dates are exactly those of the logs |
| StatsService.AddToDateUpdates | frontend/services/statsService.ts:98-107 | the loop's lookup-or-create followed by the update of minutes and calories is exactly one step of the grouping |
| StatsService.GroupStep | frontend/services/statsService.ts:98-107 | one iteration keeps the dictionary equal to the per-date sums of the logs seen |
| StatsService.GroupByDate | frontend/services/statsService.ts:93-108 | the dictionary has one entry per date key, holding that date's minutes and calories |
| StatsService.WorkoutTrend | frontend/services/statsService.ts:93-113 | one point per date key, in strictly ascending order, each with that date's minutes (`seconds / 60`) and calories (`calories || 0`) |
| StatsService.TrendPointsOf | frontend/services/statsService.ts:111 | the sorted values are exactly the dictionary's points |
| StatsService.DateKeyOf | frontend/services/statsService.ts:96 | the key of `day + 'T' + time` is `day` |
| StatsService.StrLessAfterCommonPrefix | frontend/services/statsService.ts:112 | a common prefix does not change the order |
| StatsService.TrendExample | frontend/services/statsService.ts:95-108 | three logs on two days give two dates, with 15 and 20 minutes and 70 and 0 kcal |
| StatsService.DateKeysSortByDay | frontend/services/statsService.ts:112 | within a month, date keys sort by day |
| StatsService.Occurrences | frontend/services/statsService.ts:154 | a muscle's count is positive iff the muscle occurs |
| StatsService.FirstSeen | frontend/services/statsService.ts:162 | the dictionary's key order: each muscle once, every muscle seen |
| StatsService.Percentage | frontend/services/statsService.ts:166 | `count / total * 100`, or 0 when nothing was counted |
| StatsService.TallyStep | frontend/services/statsService.ts:154 | `(count || 0) + 1` keeps the counts and the key order in step with the muscles seen |
| StatsService.InsertByCountSorted | frontend/services/statsService.ts:171 | inserting into a list sorted by count, largest first, keeps it sorted, and the new head is the entry or the old head |
| StatsService.InsertByCountPermutes | frontend/services/statsService.ts:171 | inserting adds exactly that one entry: the result is a permutation of the old list plus it |
| StatsService.SortByCount | frontend/services/statsService.ts:171 | the sort gives a permutation sorted by count, largest first |
| StatsService.InsertByCount | frontend/services/statsService.ts:171 | reference insertion step of the count sort: the entry placed before the first entry with a smaller count |
| StatsService.AddItemTags | frontend/services/statsService.ts:150-156 | every `muscle:` tag of the item is counted under the name after the prefix |
| StatsService.TagMusclesOfPrefix | frontend/services/statsService.ts:150-156 | one more tag extends the muscle list by the name after `muscle:` when it carries that prefix, and leaves it alone otherwise |
| StatsService.ItemsOfPrefix | frontend/services/statsService.ts:146-158 | one more item adds its muscles to the stream, and one exercise when it is counted |
| StatsService.AddLogItems | frontend/services/statsService.ts:146-158 | only exercise items with an exercise are counted, and their tags tallied |
| StatsService.TotalExercises | frontend/services/statsService.ts:141-148 | reference count of the exercise items with an exercise, over all logs |
| StatsService.MuscleDistribution | frontend/services/statsService.ts:140-171 | the result is a permutation of the per-muscle entries, sorted by count, largest first |
| StatsService.DistributionEntries | frontend/services/statsService.ts:162-168 | each muscle seen appears once, with its tag count (at least 1) and its share of the counted exercises |
| StatsService.Entries | frontend/services/statsService.ts:162-168 | `Object.entries(muscleCount).map(...)`: one entry per key, in key order, with its count and its percentage of the total |
| StatsService.ExampleTags | frontend/services/statsService.ts:151-155 | only the `muscle:` tags are kept, stripped of the prefix |
| StatsService.ExampleStream | frontend/services/statsService.ts:143-158 | one item tagged `muscle:chest` twice gives the stream chest, chest, and one counted exercise |
| StatsService.ChestTwice | frontend/services/statsService.ts:154-162 | a stream naming chest twice gives one key, counted twice |
| StatsService.DistributionExample | frontend/services/statsService.ts:162-168 | that log gives chest with count 2 and 200 percent |
| StatsService.TotalDuration | frontend/services/statsService.ts:59 | reference sum of the logs' durations in seconds |
| StatsService.TotalCalories | frontend/services/statsService.ts:60 | reference sum of the logs' calories, a missing value counting 0 |
| StatsService.RatingSum | frontend/services/statsService.ts:62 | reference sum of the logs' ratings, a missing rating counting 0 |
| StatsService.AddToDate | frontend/services/statsService.ts:98-107 | reference grouping step: the log's minutes and calories added to its date's entry, created when the date is new |
| StatsService.TagMuscles | frontend/services/statsService.ts:150-156 | reference list of muscles named by `muscle:` tags, in tag order |
| StatsService.Distribution | frontend/services/statsService.ts:162-168 | reference unsorted distribution: one entry per muscle in first-seen order, with its tag count and share of the counted exercises |
| RegisterScreen.ValidatePassword | frontend/components/auth/RegisterScreen.tsx:26-31 | success iff at least 6 characters, a letter and a digit; otherwise the first broken rule, in the order length, letter, digit |
| RegisterScreen.HasLetter | frontend/components/auth/RegisterScreen.tsx:28 | `/[A-Za-z]/.test(pwd)`: some character is an ASCII letter |
| RegisterScreen.HasDigit | frontend/components/auth/RegisterScreen.tsx:29 | `/[0-9]/.test(pwd)`: some character is an ASCII digit |
| RegisterScreen.SubmitError | frontend/components/auth/RegisterScreen.tsx:38-47 | a password error takes precedence; a mismatch is reported only for a valid password |
| RegisterScreen.SignUpFor | frontend/components/auth/RegisterScreen.tsx:49-52 | `signUp` is called iff both checks pass, with the email and password as typed and an empty display name sent as `undefined` |
| RegisterScreen.FailureMessage | frontend/components/auth/RegisterScreen.tsx:55 | the error's message, or the fixed fallback when it is missing or empty |
| RegisterScreen.PasswordExamples | frontend/components/auth/RegisterScreen.tsx:26-31 | "ab1", "123456", "abcdef" each break one rule; "abc123" passes |
| RegisterScreen.PasswordRuleComesFirst | frontend/components/auth/RegisterScreen.tsx:38-47 | a letterless password is refused for the letter even when the confirmation differs |
| RegisterScreen.AppendKeepsStrong | frontend/components/auth/RegisterScreen.tsx:26-31 | appending a character never breaks the rule |
| RegisterScreen.Screen.constructor | frontend/components/auth/RegisterScreen.tsx:18-24 | empty fields, no error, not loading |
| RegisterScreen.Screen.SetEmail | frontend/components/auth/RegisterScreen.tsx:124 | sets the email only |
| RegisterScreen.Screen.SetPassword | frontend/components/auth/RegisterScreen.tsx:139 | sets the password only |
| RegisterScreen.Screen.SetConfirmPassword | frontend/components/auth/RegisterScreen.tsx:155 | sets the confirmation only |
| RegisterScreen.Screen.SetDisplayName | frontend/components/auth/RegisterScreen.tsx:110 | sets the display name only |
| RegisterScreen.Screen.BeginSubmit | frontend/components/auth/RegisterScreen.tsx:33-52 | the error is cleared and then set to the first failing check; otherwise `loading` is set and `SignUpFor` returned |
| RegisterScreen.Screen.FinishSubmit | frontend/components/auth/RegisterScreen.tsx:53-57 | success on resolution; otherwise the failure message; `loading` cleared |
| ErrorHandler.NormalizeError | virtual_coach_app_frontend/src/utils/errorHandler.ts:15-36 | an Error keeps its message (UNKNOWN_ERROR); a string is the message (STRING_ERROR) with no details; anything else is 'An unknown error occurred' (UNKNOWN_ERROR); every value that is not a string is kept as the details |
| ErrorHandler.HandleError | virtual_coach_app_frontend/src/utils/errorHandler.ts:53-68 | never empty |
| ErrorHandler.NormalizedCodes | virtual_coach_app_frontend/src/utils/errorHandler.ts:15-36 | only the two codes occur, never one the switch tests |
| ErrorHandler.HandleErrorTakesDefault | virtual_coach_app_frontend/src/utils/errorHandler.ts:58-66 | `handleError` always takes the default branch: the message, or the fallback when it is empty |
| ErrorHandler.HandleErrorMessages | virtual_coach_app_frontend/src/utils/errorHandler.ts:53-68 | what the user sees for an Error, a string and any other value |
| ExerciseCard.LabelOr | virtual_coach_app_frontend/src/components/workout/ExerciseCard.tsx:208 | `labels[key] \|\| key`: the label when non-empty, else the key |
| ExerciseCard.DifficultyLabel | virtual_coach_app_frontend/src/components/workout/ExerciseCard.tsx:202-209 | a known level gets its label, which differs from it; an unknown one is echoed |
| ExerciseCard.MuscleLabel | virtual_coach_app_frontend/src/components/workout/ExerciseCard.tsx:214-224 | a known muscle gets its label, which differs from it; an unknown one is echoed |
| ExerciseCard.DifficultyLabelsOfLevels | virtual_coach_app_frontend/src/components/workout/ExerciseCard.tsx:202-209 | the three levels are 初學者/中階/進階, and a string is echoed iff it is not a level |
| ExerciseCard.MuscleLabelsOfMuscles | virtual_coach_app_frontend/src/components/workout/ExerciseCard.tsx:214-224 | every muscle is labelled, distinct muscles by distinct labels; a string is echoed iff it is not a muscle |
| ExerciseCard.KeyDownTogglesOnlyOnEnterOrSpace | virtual_coach_app_frontend/src/components/workout/ExerciseCard.tsx:31-36 | for every key and state, a key press changes the card exactly when the key is Enter or Space; the same key twice restores the card; Enter and Space act as a click |
| ExerciseCard.Card.constructor | virtual_coach_app_frontend/src/components/workout/ExerciseCard.tsx:18-20 | starts at `defaultExpanded`, false when not given |
| ExerciseCard.Card.HandleClick | virtual_coach_app_frontend/src/components/workout/ExerciseCard.tsx:27 | the new state is AfterClick of the old: a click flips the card |
| ExerciseCard.Card.HandleKeyDown | virtual_coach_app_frontend/src/components/workout/ExerciseCard.tsx:31-36 | the new state is AfterKeyDown of the old |
| ExerciseCard.AfterClick | virtual_coach_app_frontend/src/components/workout/ExerciseCard.tsx:27 | reference state after a click: the card flipped |
| ExerciseCard.TogglesOnKey | virtual_coach_app_frontend/src/components/workout/ExerciseCard.tsx:32 | the two keys that flip the card: Enter and Space |
| ExerciseCard.AfterKeyDown | virtual_coach_app_frontend/src/components/workout/ExerciseCard.tsx:31-36 | reference state after a key press: flipped on Enter or Space, unchanged otherwise |
| WorkoutCard.DifficultyLabel | virtual_coach_app_frontend/src/components/workout/WorkoutCard.tsx:71-78 | a known level gets its label; an unknown one is echoed |
| WorkoutCard.MuscleLabel | virtual_coach_app_frontend/src/components/workout/WorkoutCard.tsx:83-93 | a known muscle gets its label; an unknown one is echoed |
| WorkoutCard.AgreesWithExerciseCard | virtual_coach_app_frontend/src/components/workout/WorkoutCard.tsx:71-93 | both cards label every string the same way |
| WorkoutCard.AgreesWithPreferenceForm | virtual_coach_app_frontend/src/components/preferences/PreferenceForm.tsx:231-241 | the preference form's muscle labels are the cards' |

## Left out

- Data fetching and persistence: Supabase queries, `saveWorkoutLog`, `signUp` and the date-range computations that choose which logs are fetched. The statistics functions take the fetched logs as a parameter. `signUp` and `saveWorkoutLog` are the request a `Begin…` method returns plus the outcome `Finish…` receives.
- Timers, the clock and `new Date().toISOString()`: a timer firing is a `Tick` command, and the current time is a parameter.
- Speech synthesis and audio: cues are recorded as values. Whether the browser has `speechSynthesis` is not modelled; speech is assumed available.
- The wake lock, the video player, rendering, CSS, and logging (`logError`, `console.error`).
- React scheduling beyond effect order: StrictMode double effects, and the batching of updates made outside handlers.
- Workout generation and the exercise service; these are not part of this model.
- The time a partially elapsed one-second timeout has already used when the player screen re-arms it: the model counts whole seconds.
- Strings are sequences of Unicode scalar values, so `length` differs from JavaScript's UTF-16 count for characters outside the Basic Multilingual Plane.
- Label records are looked up as maps: keys inherited from `Object.prototype` (such as `"constructor"`) are not modelled.
- Infinite numbers are not modelled; `Number` is NaN or a finite real.
- The browser's own form checks (`required`, `minLength`) before `handleSubmit` runs.
- `validateEquipment`'s caller and the `equipmentAvailable` field are not part of this model.
- StatsService.WorkoutTrend: date keys are taken from the stored `workout_date` text. The re-formatting through `new Date(...).toISOString()`, which moves other timezones to UTC, is not modelled.
- StatsService.WorkoutTrend: `localeCompare` is modelled as code-point order. This agrees on the digit-and-dash keys `YYYY-MM-DD`, but not on arbitrary text.
- StatsService.MuscleDistribution: the sort is stated as sorted by count and a permutation. It is not stated that equal counts keep their first-seen order, which a stable `Array.prototype.sort` also guarantees. Integer-like muscle names, which `Object.entries` lists first, are not modelled.
- PlayerScreen.Session.TogglePause: this command and the other Session commands require an unfinished engine. The host unmounts the screen once `onComplete` is called; the commands after that are not modelled.
- PreferenceForm.MuscleLabel: the `|| muscle` fallback is not modelled, because the argument is always one of the six muscles.
- Negative durations in logs and plans are not modelled (`nat`), except where a field is an `int` in the database type.
- TrainingPlayer.Component.constructor: for an empty plan the state is that after the mount effects, the completion state. The source never gets there: its first render takes the controls branch and throws a TypeError reading the missing current exercise (TrainingPlayer.tsx line 107). The throw is not modelled; `EmptyPlanRenderThrows` only states the condition under which it happens.
- TrainingPlayer.RestartLeavesCompletionScreen: for an empty plan the controls rendered after a restart throw in the same way. The model stops at which screen is chosen; `EmptyPlanRenderThrows` states the condition.
- Floating point: JavaScript numbers are IEEE-754 doubles, but the model computes with exact reals (calories, minutes, percentages, average rating) and unbounded integers. Rounding error in these results, and overflow, are not modelled.
- StatsService.WorkoutTrend: `new Date(workout_date).toISOString()` throws a RangeError on a date string it cannot parse. The model assumes every stored date parses.

## Findings

| source | as written | input that shows it | evidently intended | confidence | as-written member | corrected member |
|---|---|---|---|---|---|---|
| frontend/components/player/PlayerScreen.tsx:91-114 | The timer effect runs in the same commit as the item-entry effect. It reads the `timeLeft` of the render where the index changed, which is still 0, so it long-beeps and advances again. The entered item is skipped, and on the last item the plan completes at once. | Two items of 1 s each: after one tick the plan is finished, and the second item is never played. | Each entered item plays for its own duration: a plan finishes after exactly its total seconds. | not executed | PlayerScreen.AsWrittenSkipsEnteredItem | PlayerScreen.PlanCompletesAfterTotalSeconds |
| frontend/components/player/PlayerScreen.tsx:99-101 | On `skipItem`, the same stale `timeLeft` from the item being left is seen. When it is 3 or less, a countdown beep sounds on entering the new item. | Skip with 2 s left of a 5 s item to a 10 s item: a short beep follows the announcement. | Entering an item only announces it; beeps belong to the item's last three seconds. | not executed | PlayerScreen.AsWrittenBeepsOnSkip | PlayerScreen.SkipItemOnlyAnnounces |

The Session class and its lemmas use the corrected engine (`Entered`/`Settled`). `CommitAsWritten` models the commits as written.
