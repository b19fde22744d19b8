/**
 * The player component of the first frontend (`src/components/player/TrainingPlayer.tsx`):
 * it dispatches keys and buttons onto the `usePlayer` commands, keeps the exit-confirm
 * flag, and decides between the controls and the completion screen.
 */
module TrainingPlayer {
  import opened DataModel
  import opened UsePlayer

  /** The player command a key press issues. */
  datatype Command = TogglePause | GoNext | GoPrevious | AskToExit | NoCommand

  /** The keydown switch (lines 25-47). */
  function KeyCommand(key: string): Command {
    if key == " " || key == "Spacebar" then TogglePause
    else if key == "ArrowRight" then GoNext
    else if key == "ArrowLeft" then GoPrevious
    else if key == "Escape" then AskToExit
    else NoCommand
  }

  /** The whole component: the hook's state, the dialog flag, and how often `onExit` was called. */
  datatype View = View(player: PlayerState, showExitConfirm: bool, exitCalls: nat)

  /** `handlePlayPause` (lines 55-61): resume when paused, pause otherwise. */
  function AfterPlayPause(s: PlayerState): PlayerState {
    if s.isPaused then AfterResume(s) else AfterPause(s)
  }

  function AfterCommand(plan: seq<WorkoutPlanItem>, v: View, c: Command): View {
    match c
    case TogglePause => v.(player := AfterPlayPause(v.player))
    case GoNext => v.(player := AfterNext(plan, v.player))
    case GoPrevious => v.(player := AfterPrevious(plan, v.player))
    case AskToExit => v.(showExitConfirm := true)
    case NoCommand => v
  }

  function AfterKey(plan: seq<WorkoutPlanItem>, v: View, key: string): View {
    AfterCommand(plan, v, KeyCommand(key))
  }

  /** `canGoPrevious` (line 158). */
  function CanGoPrevious(s: PlayerState): bool {
    s.index > 0
  }

  /** `canGoNext` (line 159). */
  function CanGoNext(plan: seq<WorkoutPlanItem>, s: PlayerState): bool {
    s.index < |plan| - 1 || !s.isCompleted
  }

  datatype Screen = Controls | CompletionScreen

  /** The completion branch (lines 77-87) replaces the controls once the player is completed. */
  function Rendered(s: PlayerState): Screen {
    if s.isCompleted then CompletionScreen else Controls
  }

  /** The hook's cells on the first render, before any effect has run (`useState`, usePlayer.ts lines 40-45). */
  function InitialCells(): PlayerState {
    PlayerState(0, 0, 0, true, false, false)
  }

  /**
   * The controls branch reads `player.currentExercise.exercise` (line 107). `currentExercise` is
   * `exercises[index] || exercises[0]`, which is undefined only for an empty plan, so that read throws
   * exactly when the controls render for an empty plan.
   */
  predicate RenderThrows(plan: seq<WorkoutPlanItem>, s: PlayerState) {
    Rendered(s) == Controls && |plan| == 0
  }

  /**
   * An empty plan throws on its first render, before the effects that would complete it, and again
   * after a restart; a non-empty plan never throws in these states.
   */
  lemma EmptyPlanRenderThrows(plan: seq<WorkoutPlanItem>)
    ensures RenderThrows(plan, InitialCells()) <==> |plan| == 0
    ensures RenderThrows(plan, AfterReset(plan)) <==> |plan| == 0
    ensures !RenderThrows(plan, Load(plan))
  {
  }

  /** Space, 'Spacebar' and the play/pause button all resume a paused player and pause any other. */
  lemma SpaceTogglesPause(plan: seq<WorkoutPlanItem>, v: View, key: string)
    requires key == " " || key == "Spacebar"
    ensures AfterKey(plan, v, key) == v.(player := AfterPlayPause(v.player))
    ensures v.player.isPaused ==>
      AfterKey(plan, v, key).player == AfterResume(v.player)
      && !AfterKey(plan, v, key).player.isPaused && AfterKey(plan, v, key).player.isPlaying
    ensures !v.player.isPaused ==>
      AfterKey(plan, v, key).player == AfterPause(v.player)
      && AfterKey(plan, v, key).player.isPaused && !AfterKey(plan, v, key).player.isPlaying
  {
  }

  /** The arrow keys issue `next` and `previous`; no other unlisted key changes anything. */
  lemma ArrowsStepAndOtherKeysDoNothing(plan: seq<WorkoutPlanItem>, v: View, key: string)
    ensures key == "ArrowRight" ==> AfterKey(plan, v, key) == v.(player := AfterNext(plan, v.player))
    ensures key == "ArrowLeft" ==> AfterKey(plan, v, key) == v.(player := AfterPrevious(plan, v.player))
    ensures key !in [" ", "Spacebar", "ArrowRight", "ArrowLeft", "Escape"] ==> AfterKey(plan, v, key) == v
  {
  }

  /** Escape only opens the dialog: the player is untouched and `onExit` is not called. */
  lemma EscapeOnlyOpensDialog(plan: seq<WorkoutPlanItem>, v: View)
    ensures AfterKey(plan, v, "Escape") == v.(showExitConfirm := true)
  {
  }

  /** `canGoPrevious` holds exactly when `previous` would change the player. */
  lemma CanGoPreviousMeansPreviousMoves(plan: seq<WorkoutPlanItem>, s: PlayerState)
    requires Inv(plan, s)
    ensures CanGoPrevious(s) <==> AfterPrevious(plan, s) != s
  {
  }

  /** Whenever the controls are on screen, the next button is enabled. */
  lemma NextEnabledWhileControlsShown(plan: seq<WorkoutPlanItem>, s: PlayerState)
    requires Rendered(s) == Controls
    ensures CanGoNext(plan, s)
  {
  }

  /** Restarting from the completion screen brings the controls back for a non-empty plan. */
  lemma RestartLeavesCompletionScreen(plan: seq<WorkoutPlanItem>, s: PlayerState)
    requires Rendered(s) == CompletionScreen
    ensures Rendered(AfterReset(plan)) == Controls
    ensures |plan| > 0 ==> AfterReset(plan) == Load(plan)
  {
  }

  class Component {
    const player: Player
    var showExitConfirm: bool
    var exitCalls: nat

    function State(): View
      reads this, player
    {
      View(player.State(), showExitConfirm, exitCalls)
    }

    ghost predicate Valid()
      reads this, player
    {
      player.Valid()
    }

    constructor (plan: seq<WorkoutPlanItem>)
      ensures Valid() && fresh(player) && player.plan == plan
      ensures State() == View(Load(plan), false, 0)
    {
      player := new Player(plan);
      showExitConfirm := false;
      exitCalls := 0;
    }

    method HandleKeyDown(key: string)
      requires Valid()
      modifies this, player
      ensures Valid() && State() == AfterKey(player.plan, old(State()), key)
    {
      var command := KeyCommand(key);
      match command {
        case TogglePause =>
          if player.isPaused {
            player.Resume();
          } else {
            player.Pause();
          }
        case GoNext => player.Next();
        case GoPrevious => player.Previous();
        case AskToExit => showExitConfirm := true;
        case NoCommand =>
      }
    }

    method HandlePlayPause()
      requires Valid()
      modifies player
      ensures Valid() && State() == old(State()).(player := AfterPlayPause(old(player.State())))
    {
      if player.isPaused {
        player.Resume();
      } else {
        player.Pause();
      }
    }

    method HandleExitClick()
      modifies this
      ensures State() == old(State()).(showExitConfirm := true)
    {
      showExitConfirm := true;
    }

    method HandleExitCancel()
      modifies this
      ensures State() == old(State()).(showExitConfirm := false)
    {
      showExitConfirm := false;
    }

    /** Confirming calls `onExit` once; the dialog flag and the player are left as they are. */
    method HandleExitConfirm()
      modifies this
      ensures State() == old(State()).(exitCalls := old(exitCalls) + 1)
    {
      exitCalls := exitCalls + 1;
    }

    /** The completion screen's restart button is the hook's `reset`. */
    method Restart()
      requires Valid()
      modifies player
      ensures Valid() && State() == old(State()).(player := AfterReset(player.plan))
    {
      player.Reset();
    }
  }
}
