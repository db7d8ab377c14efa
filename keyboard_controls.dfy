/**
 * The keyboard dispatcher (hooks/useKeyboardControls.ts): arrow keys move
 * the player one lane, the space bar toggles pause, and a second space
 * press within 300 ms asks for the score history instead. The time of the
 * last space press is the handler's own state.
 */
module KeyboardControls {
  import opened GameLogic

  /** Two space presses closer than this (milliseconds) are a double press. */
  const DOUBLE_PRESS_WINDOW: real := 300.0

  /** The ArrowLeft updater: one lane left, never below lane 0. */
  function MoveLeft(gs: GameState): (r: GameState)
    ensures r == gs.(playerPosition := r.playerPosition)
    ensures gs.playerPosition >= 1 ==> r.playerPosition == gs.playerPosition - 1
    ensures gs.playerPosition < 1 ==> r.playerPosition == 0
    ensures 0 <= gs.playerPosition < LANE_COUNT ==> 0 <= r.playerPosition < LANE_COUNT
  {
    gs.(playerPosition := if 0 >= gs.playerPosition - 1 then 0 else gs.playerPosition - 1)
  }

  /** The ArrowRight updater: one lane right, never above lane 4. */
  function MoveRight(gs: GameState): (r: GameState)
    ensures r == gs.(playerPosition := r.playerPosition)
    ensures gs.playerPosition < LANE_COUNT - 1 ==> r.playerPosition == gs.playerPosition + 1
    ensures gs.playerPosition >= LANE_COUNT - 1 ==> r.playerPosition == LANE_COUNT - 1
    ensures 0 <= gs.playerPosition < LANE_COUNT ==> 0 <= r.playerPosition < LANE_COUNT
  {
    gs.(playerPosition := if 4 <= gs.playerPosition + 1 then 4 else gs.playerPosition + 1)
  }

  /** The single-press space updater: flips isPaused and nothing else. */
  function TogglePause(gs: GameState): (r: GameState)
    ensures r.isPaused == !gs.isPaused
    ensures r == gs.(isPaused := r.isPaused)
    ensures Valid(gs) ==> Valid(r)
  {
    gs.(isPaused := !gs.isPaused)
  }

  predicate IsDoublePress(currentTime: real, lastKeyPressTime: real) {
    currentTime - lastKeyPressTime < DOUBLE_PRESS_WINDOW
  }

  /** The keydown listener with the time of the previous space press. */
  class KeyHandler {
    var lastKeyPressTime: real

    constructor ()
      ensures lastKeyPressTime == 0.0
    {
      lastKeyPressTime := 0.0;
    }

    /**
     * Handles one key press at clock reading `currentTime`. Returns the game
     * state after the press and whether the score history was asked for.
     */
    method HandleKeyDown(key: string, currentTime: real, gs: GameState) returns (next: GameState, showHistory: bool)
      modifies this
      ensures key == "ArrowLeft" ==>
        next == MoveLeft(gs) && !showHistory && lastKeyPressTime == old(lastKeyPressTime)
      ensures key == "ArrowRight" ==>
        next == MoveRight(gs) && !showHistory && lastKeyPressTime == old(lastKeyPressTime)
      ensures key == " " ==> lastKeyPressTime == currentTime
      ensures key == " " && IsDoublePress(currentTime, old(lastKeyPressTime)) ==> next == gs && showHistory
      ensures key == " " && !IsDoublePress(currentTime, old(lastKeyPressTime)) ==>
        next == TogglePause(gs) && !showHistory
      ensures key != "ArrowLeft" && key != "ArrowRight" && key != " " ==>
        next == gs && !showHistory && lastKeyPressTime == old(lastKeyPressTime)
      ensures Valid(gs) ==> Valid(next)
    {
      next, showHistory := gs, false;
      if key == "ArrowLeft" {
        next := MoveLeft(gs);
      } else if key == "ArrowRight" {
        next := MoveRight(gs);
      } else if key == " " {
        if currentTime - lastKeyPressTime < DOUBLE_PRESS_WINDOW {
          showHistory := true;
        } else {
          next := TogglePause(gs);
        }
        lastKeyPressTime := currentTime;
      }
    }
  }

  /** Lane moves keep the player within the first and last lane. */
  lemma MovesPreserveValid(gs: GameState)
    requires Valid(gs)
    ensures Valid(MoveLeft(gs)) && Valid(MoveRight(gs))
  {
  }

  /** The space bar's single press is its own inverse. */
  lemma TogglePauseTwice(gs: GameState)
    ensures TogglePause(TogglePause(gs)) == gs
  {
  }

  /** Moving right from any lane but the last and then left returns to the same lane. */
  lemma MoveRightThenLeft(gs: GameState)
    requires 0 <= gs.playerPosition < LANE_COUNT - 1
    ensures MoveLeft(MoveRight(gs)) == gs
  {
  }
}
