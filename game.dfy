/** The bookkeeping of the `Game` scene: five hidden stags to click before a
    countdown runs out, a pause flag, mouse dragging, wheel and pinch zoom, and the
    list of touching pointers. Each engine or DOM callback of the scene is a method
    of class `Game`; rendering, tweens, the DOM and the camera's scrolling are not. */
module GameScene {
  import opened Wrappers
  import opened Text
  import opened TimerDisplay
  import opened Zoom
  import opened Pointers

  /** Number of stags the scene places (and therefore `stages.length` once built). */
  const StageCount: nat := 5
  /** Seconds on the countdown when the scene is constructed. */
  const InitialTime: int := 45
  /** The camera zoom the scene asks for at start-up and keeps as the pinch baseline. */
  const StartZoom: real := 0.5
  /** Phaser's zoom for a camera nobody has zoomed yet. */
  const DefaultCameraZoom: real := 1.0

  datatype Position = Position(x: real, y: real)

  /** `this.timer`: `null`, a looping one-second event, or an event already removed. */
  datatype Timer = NoTimer | Running | Removed

  /** What `endGame` has put into the game-over modal. */
  datatype Modal = Hidden | WinMessage | LossMessage

  /** How a callback ends: normally, or with the `TypeError` that `this.timer.remove()`
      throws while `this.timer` is `null`. */
  datatype Outcome = Completed | NullTimerError

  /** The click guard's test: the stage's texture key contains "found" somewhere. */
  function IsFound(key: string): (found: bool)
    ensures found <==> exists k :: OccursAt(key, "found", k)
  {
    Includes(key, "found")
  }

  /** The texture key the scene gives to stag `n` (numbered from 1): "stag" and then
      the decimal digits of `n`. It never passes the click guard's test. */
  function StageKey(n: nat): (key: string)
    ensures |key| > 4 && key[..4] == "stag" && IsDigits(key[4..])
    ensures !IsFound(key)
  {
    var digits := NatToString(n);
    var key := "stag" + digits;
    assert key[4..] == digits;
    assert forall k :: 0 <= k < |digits| ==> digits[k] != 'f';
    assert 'f' !in key;
    ExcludesWithoutFirst(key, "found");
    key
  }

  /** The texture key the scene asks for when the stag at `index` (from 0) has been
      found: that stag's own key followed by "_found", which passes the click
      guard's test. */
  function FoundKey(index: nat): (key: string)
    ensures key == StageKey(index + 1) + "_found"
    ensures IsFound(key)
  {
    var front := "stag" + NatToString(index + 1) + "_";
    var key := front + "found";
    IncludesSuffix(front, "found");
    key
  }

  /** The keys of the stages after `addStages`, in the order they were pushed. */
  function InitialStageKeys(): (keys: seq<string>)
    ensures |keys| == StageCount
    ensures forall k :: 0 <= k < StageCount ==> keys[k] == StageKey(k + 1)
  {
    seq(StageCount, k requires 0 <= k => StageKey(k + 1))
  }

  /** Every stag has its own texture key. */
  lemma StageKeyInjective(a: nat, b: nat)
    requires StageKey(a) == StageKey(b)
    ensures a == b
  {
    assert NatToString(a) == StageKey(a)[4..];
    assert NatToString(b) == StageKey(b)[4..];
  }

  class Game {
    var score: int
    var timeLeft: int
    var gameOver: bool
    var isPaused: bool
    var isDragging: bool
    var lastPointerPosition: Position
    var pointers: seq<Pointer>
    /** The two pointers whose distance `initialPinchDistance` was measured from; `None`
        while it still holds the constructor's 0. */
    var pinchBaseline: Option<(Pointer, Pointer)>
    var initialZoom: real
    /** `this.cameras.main.zoom`. */
    var zoom: real
    /** `stage.texture.key` of each stage in `this.stages`. */
    var stageKeys: seq<string>
    var timer: Timer
    var modal: Modal
    /** The text the scene last wrote into the countdown element, if any. */
    var timeText: Option<string>

    /** What holds between callbacks and also in the middle of one. */
    ghost predicate Consistent()
      reads this`stageKeys, this`score, this`timeLeft, this`zoom, this`initialZoom
    {
      && (|stageKeys| == 0 || |stageKeys| == StageCount)
      && 0 <= score <= |stageKeys|
      && 0 <= timeLeft
      && MinZoom <= zoom <= MaxZoom
      && MinZoom <= initialZoom <= MaxZoom
    }

    /** Between callbacks, additionally: all stags found, or the clock at zero,
        means the game is over. */
    ghost predicate Valid()
      reads this`stageKeys, this`score, this`timeLeft, this`zoom, this`initialZoom, this`gameOver
    {
      && Consistent()
      && (score == StageCount ==> gameOver)
      && (timeLeft == 0 ==> gameOver)
    }

    /** What `endGame(won)` leaves behind, given the timer, modal and pause flag it
        started from: `gameOver` is set; without a timer the call throws right after
        that, and with one the timer is removed, the modal shows the outcome and the
        game is paused. */
    ghost predicate EndedGame(won: bool, outcome: Outcome, timer0: Timer, modal0: Modal, paused0: bool)
      reads this`gameOver, this`timer, this`modal, this`isPaused
    {
      && gameOver
      && (timer0 == NoTimer ==>
            outcome == NullTimerError && timer == NoTimer && modal == modal0 && isPaused == paused0)
      && (timer0 != NoTimer ==>
            outcome == Completed && timer == Removed
            && modal == (if won then WinMessage else LossMessage) && isPaused)
    }

    constructor ()
      ensures Valid()
      ensures score == 0 && timeLeft == InitialTime && !gameOver && !isPaused
      ensures !isDragging && lastPointerPosition == Position(0.0, 0.0)
      ensures pointers == [] && pinchBaseline == None && initialZoom == StartZoom
      ensures zoom == DefaultCameraZoom && stageKeys == [] && timer == NoTimer
      ensures modal == Hidden && timeText == None
    {
      score := 0;
      timeLeft := InitialTime;
      gameOver := false;
      isPaused := false;
      isDragging := false;
      lastPointerPosition := Position(0.0, 0.0);
      pointers := [];
      pinchBaseline := None;
      initialZoom := StartZoom;
      zoom := DefaultCameraZoom;
      stageKeys := [];
      timer := NoTimer;
      modal := Hidden;
      timeText := None;
    }

    /** `create`: the camera takes the initial zoom and the five stages are added;
        the timer is not set up. */
    method Create()
      requires Valid() && stageKeys == []
      modifies this`zoom, this`stageKeys
      ensures Valid()
      ensures zoom == initialZoom && stageKeys == InitialStageKeys()
    {
      SetupCamera();
      AddStages();
    }

    /** `setupCamera`: only its zoom is modelled. */
    method SetupCamera()
      requires Valid()
      modifies this`zoom
      ensures Valid() && zoom == initialZoom
    {
      zoom := initialZoom;
    }

    /** `addStages`: pushes one stage per stag, keyed `stag1` … `stag5`. */
    method AddStages()
      requires Valid() && stageKeys == []
      modifies this`stageKeys
      ensures Valid() && stageKeys == InitialStageKeys()
    {
      for i := 1 to StageCount + 1
        invariant |stageKeys| == i - 1
        invariant forall k :: 0 <= k < i - 1 ==> stageKeys[k] == StageKey(k + 1)
        invariant score == 0
      {
        stageKeys := stageKeys + [StageKey(i)];
      }
    }

    /** `onStageClick(stage, index)`. Ignored once the game is over or when the stage's
        key already says "found"; otherwise one more stag is found, and the last one
        ends the game as a win. */
    method OnStageClick(index: nat) returns (outcome: Outcome)
      requires Valid() && index < |stageKeys|
      modifies this`score, this`gameOver, this`timer, this`modal, this`isPaused
      ensures Valid()
      ensures old(gameOver) || IsFound(stageKeys[index]) ==>
                unchanged(this) && outcome == Completed
      ensures !old(gameOver) && !IsFound(stageKeys[index]) ==>
                score == old(score) + 1
      ensures !old(gameOver) && !IsFound(stageKeys[index]) && score < StageCount ==>
                unchanged(this`gameOver, this`timer, this`modal, this`isPaused)
                && outcome == Completed
      ensures !old(gameOver) && !IsFound(stageKeys[index]) && score == StageCount ==>
                EndedGame(true, outcome, old(timer), old(modal), old(isPaused))
    {
      outcome := Completed;
      if gameOver || IsFound(stageKeys[index]) {
        return;
      }
      score := score + 1;
      if score == |stageKeys| {
        outcome := EndGame(true);
      }
    }

    /** The tween's `onComplete`: the stage at `index` is asked to show the texture
        `FoundKey(index)`, and afterwards carries the key `key` the engine reports for
        it. That is `FoundKey(index)` when a texture of that name was loaded and the
        engine's placeholder key otherwise; which of the two happens is left open. */
    method OnTweenComplete(index: nat, key: string)
      requires Valid() && index < |stageKeys|
      modifies this`stageKeys
      ensures Valid()
      ensures stageKeys == old(stageKeys)[index := key]
    {
      stageKeys := stageKeys[index := key];
    }

    /** `setupTimer`, which the scene never calls: a looping one-second timer and a
        first countdown text. */
    method SetupTimer()
      requires Valid()
      modifies this`timer, this`timeText
      ensures Valid()
      ensures timer == Running && timeText == Some(TimerText(timeLeft))
    {
      timer := Running;
      UpdateTimerDisplay();
    }

    /** `updateTimer`, the timer's callback: does nothing when the game is over or
        paused; otherwise one second less on the clock, and at zero the game ends
        as a loss. */
    method UpdateTimer() returns (outcome: Outcome)
      requires Valid()
      modifies this`timeLeft, this`timeText, this`gameOver, this`timer, this`modal, this`isPaused
      ensures Valid()
      ensures old(gameOver) || old(isPaused) ==> unchanged(this) && outcome == Completed
      ensures !old(gameOver) && !old(isPaused) ==>
                timeLeft == old(timeLeft) - 1 && timeText == Some(TimerText(timeLeft))
      ensures !old(gameOver) && !old(isPaused) && timeLeft > 0 ==>
                unchanged(this`gameOver, this`timer, this`modal, this`isPaused)
                && outcome == Completed
      ensures !old(gameOver) && !old(isPaused) && timeLeft == 0 ==>
                EndedGame(false, outcome, old(timer), old(modal), old(isPaused))
    {
      outcome := Completed;
      if gameOver || isPaused {
        return;
      }
      timeLeft := timeLeft - 1;
      UpdateTimerDisplay();
      if timeLeft <= 0 {
        outcome := EndGame(false);
      }
    }

    /** `updateTimerDisplay`: the countdown element shows `timeLeft` as mm:ss. */
    method UpdateTimerDisplay()
      requires 0 <= timeLeft
      modifies this`timeText
      ensures timeText == Some(TimerText(timeLeft))
    {
      timeText := Some(TimerText(timeLeft));
    }

    /** `endGame(userWon)`. */
    method EndGame(won: bool) returns (outcome: Outcome)
      requires Consistent()
      modifies this`gameOver, this`timer, this`modal, this`isPaused
      ensures Valid() && EndedGame(won, outcome, old(timer), old(modal), old(isPaused))
    {
      gameOver := true;
      if timer == NoTimer {
        return NullTimerError;
      }
      timer := Removed;
      modal := if won then WinMessage else LossMessage;
      var _ := PauseGame();
      outcome := Completed;
    }

    /** `pauseGame`: asks the engine to pause the scene only if it is not paused yet;
        `requested` tells whether it did. */
    method PauseGame() returns (requested: bool)
      requires Valid()
      modifies this`isPaused
      ensures Valid() && isPaused
      ensures requested == !old(isPaused)
    {
      requested := !isPaused;
      if requested {
        isPaused := true;
      }
    }

    /** `resumeGame`: asks the engine to resume the scene only if it is paused. */
    method ResumeGame() returns (requested: bool)
      requires Valid()
      modifies this`isPaused
      ensures Valid() && !isPaused
      ensures requested == old(isPaused)
    {
      requested := isPaused;
      if requested {
        isPaused := false;
      }
    }

    /** The scene's `pause` event. */
    method OnPause()
      requires Valid()
      modifies this`isPaused
      ensures Valid() && isPaused
    {
      isPaused := true;
    }

    /** The scene's `resume` event. */
    method OnResume()
      requires Valid()
      modifies this`isPaused
      ensures Valid() && !isPaused
    {
      isPaused := false;
    }

    /** `startDrag`: unless paused, dragging starts at the pointer. */
    method StartDrag(pointer: Position)
      requires Valid()
      modifies this`isDragging, this`lastPointerPosition
      ensures Valid()
      ensures isPaused ==> unchanged(this)
      ensures !isPaused ==> isDragging && lastPointerPosition == pointer
    {
      if isPaused {
        return;
      }
      isDragging := true;
      lastPointerPosition := pointer;
    }

    /** `stopDrag`. */
    method StopDrag()
      requires Valid()
      modifies this`isDragging
      ensures Valid() && !isDragging
    {
      isDragging := false;
    }

    /** `onDrag`: while dragging and not paused the camera follows the pointer (the
        scrolling itself is not modelled) and the pointer becomes the new reference. */
    method OnDrag(pointer: Position)
      requires Valid()
      modifies this`lastPointerPosition
      ensures Valid()
      ensures lastPointerPosition ==
                if isDragging && !isPaused then pointer else old(lastPointerPosition)
    {
      if !isDragging || isPaused {
        return;
      }
      lastPointerPosition := pointer;
    }

    /** `handleZoom`, the wheel callback: unless paused, one clamped zoom step. */
    method HandleZoom(deltaY: real)
      requires Valid()
      modifies this`zoom
      ensures Valid()
      ensures zoom == if isPaused then old(zoom) else WheelZoom(old(zoom), deltaY)
    {
      if isPaused {
        return;
      }
      zoom := WheelZoom(zoom, deltaY);
    }

    /** `onPointerDown`: the pointer joins the list; when it is the second one the
        pinch baseline (the two pointers and the current zoom) is captured. */
    method OnPointerDown(pointer: Pointer)
      requires Valid()
      modifies this`pointers, this`pinchBaseline, this`initialZoom
      ensures Valid()
      ensures pointers == old(pointers) + [pointer]
      ensures |pointers| == 2 ==>
                pinchBaseline == Some((pointers[0], pointers[1])) && initialZoom == zoom
      ensures |pointers| != 2 ==> unchanged(this`pinchBaseline, this`initialZoom)
    {
      pointers := pointers + [pointer];
      if |pointers| == 2 {
        pinchBaseline := Some((pointers[0], pointers[1]));
        initialZoom := zoom;
      }
    }

    /** `onPointerUp`: every entry with the released pointer's id leaves the list. */
    method OnPointerUp(pointer: Pointer)
      requires Valid()
      modifies this`pointers
      ensures Valid()
      ensures pointers == WithoutId(old(pointers), pointer.id)
    {
      pointers := WithoutId(pointers, pointer.id);
    }

    /** `onPointerMove`: with exactly two pointers down, the zoom follows the pinch.
        `distanceRatio` is the current distance between the two pointers divided by
        `initialPinchDistance`, which the engine computes. */
    method OnPointerMove(distanceRatio: real)
      requires Valid()
      modifies this`zoom
      ensures Valid()
      ensures zoom == if |pointers| == 2 then PinchZoom(initialZoom, distanceRatio) else old(zoom)
    {
      if |pointers| == 2 {
        zoom := PinchZoom(initialZoom, distanceRatio);
      }
    }
  }

  /** Clicking one stag `clicks` times before its tween completes counts every click
      until the count reaches the number of stags, which ends the game. `endGame`
      throws at the missing timer before its own modal step and before pausing, so
      the scene is left unpaused and `endGame` has put no message into the modal
      (the page's own game-over poll, outside this model, shows the modal anyway). */
  method ClickOneStageRepeatedly(clicks: nat) returns (score: int, over: bool, paused: bool, modal: Modal)
    ensures score == if clicks < StageCount then clicks else StageCount
    ensures over <==> clicks >= StageCount
    ensures !paused && modal == Hidden
  {
    var game := new Game();
    game.Create();
    var n := 0;
    while n < clicks
      invariant 0 <= n <= clicks
      invariant game.Valid() && game.stageKeys == InitialStageKeys()
      invariant game.score == if n < StageCount then n else StageCount
      invariant game.gameOver <==> n >= StageCount
      invariant game.timer == NoTimer && !game.isPaused && game.modal == Hidden
    {
      var _ := game.OnStageClick(0);
      n := n + 1;
    }
    score, over, paused, modal := game.score, game.gameOver, game.isPaused, game.modal;
  }

  /** A stag is clicked, its tween completes leaving it with the texture key `key`, and
      it is clicked again. The second click is ignored exactly when `key` contains
      "found", as `FoundKey(0)` does; with a key that lacks it (the engine's
      placeholder for a texture that was never loaded) the same stag counts twice. */
  method ClickAfterTween(key: string) returns (score: int)
    ensures IsFound(key) ==> score == 1
    ensures !IsFound(key) ==> score == 2
  {
    var game := new Game();
    game.Create();
    var first := game.OnStageClick(0);
    game.OnTweenComplete(0, key);
    var second := game.OnStageClick(0);
    score := game.score;
  }

  /** Finding every stag once ends the game with all of them counted, and the click on
      the last one throws because no timer was ever set up. */
  method FindEveryStage() returns (score: int, over: bool, last: Outcome)
    ensures score == StageCount && over && last == NullTimerError
  {
    var game := new Game();
    game.Create();
    last := Completed;
    for i := 0 to StageCount
      invariant game.Valid() && game.timer == NoTimer
      invariant game.score == i && (game.gameOver <==> i == StageCount)
      invariant i < StageCount ==> last == Completed
      invariant i == StageCount ==> last == NullTimerError
      invariant game.stageKeys == InitialStageKeys()
    {
      last := game.OnStageClick(i);
    }
    score, over := game.score, game.gameOver;
  }

  /** Had `create` set up the timer, 45 unpaused ticks would run the clock down to
      "00:00", end the game as a loss, show the loss message and pause the scene. */
  method RunOutTheClock() returns (ticks: nat, over: bool, paused: bool, modal: Modal, text: Option<string>)
    ensures ticks == InitialTime && over && paused && modal == LossMessage
    ensures text == Some("00:00")
  {
    var game := new Game();
    game.Create();
    game.SetupTimer();
    ticks := 0;
    while !game.gameOver
      invariant game.Valid() && 0 <= ticks <= InitialTime
      invariant game.timeLeft == InitialTime - ticks
      invariant !game.gameOver ==> game.timer == Running && !game.isPaused && game.modal == Hidden
      invariant game.gameOver ==> ticks == InitialTime && game.isPaused && game.modal == LossMessage
      invariant game.gameOver ==> game.timeText == Some(TimerText(0))
      decreases game.timeLeft
    {
      var _ := game.UpdateTimer();
      ticks := ticks + 1;
    }
    FinalText();
    over, paused, modal, text := game.gameOver, game.isPaused, game.modal, game.timeText;
  }

  /** Pausing twice asks the engine once; resuming afterwards asks it once again. */
  method PauseTwiceThenResume() returns (first: bool, second: bool, resumed: bool, paused: bool)
    ensures first && !second && resumed && !paused
  {
    var game := new Game();
    first := game.PauseGame();
    second := game.PauseGame();
    resumed := game.ResumeGame();
    paused := game.isPaused;
  }

  /** The pinch baseline is taken when the second finger lands and kept through a
      third: after the first finger lifts, two fingers are down again and the pinch
      scales the zoom captured from the first pair. */
  method StalePinchBaseline() returns (baseline: Option<(Pointer, Pointer)>, down: seq<Pointer>, zoom: real)
    ensures baseline == Some((Pointer(1, 0.0, 0.0), Pointer(2, 1.0, 0.0)))
    ensures down == [Pointer(2, 1.0, 0.0), Pointer(3, 2.0, 0.0)]
    ensures zoom == 1.0
  {
    var a, b, c := Pointer(1, 0.0, 0.0), Pointer(2, 1.0, 0.0), Pointer(3, 2.0, 0.0);
    var game := new Game();
    game.Create();
    game.OnPointerDown(a);
    game.OnPointerDown(b);
    game.HandleZoom(-1.0);
    game.OnPointerDown(c);
    game.OnPointerUp(a);
    game.OnPointerMove(2.0);
    baseline, down, zoom := game.pinchBaseline, game.pointers, game.zoom;
  }
}
