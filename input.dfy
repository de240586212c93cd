/**
 * Keyboard and touch dispatch of the modular game
 * (js/modules/input/InputManager.js): a key together with the game's flags
 * selects at most one callback, and a touch gesture is classified as a tap
 * or a swipe.
 *
 * The callback a key or gesture triggers is the result (`None` when nothing
 * is called); key names are the strings of `KeyboardEvent.key`, and touch
 * coordinates are `real`.
 */
module Input {
  import opened Common

  /** The callbacks a key or a gesture can trigger. */
  datatype Action = MoveLeft | MoveRight | MoveDown | Rotate | HardDrop | TogglePause
                  | ToggleGrid | TakeControl | Start

  /** The flags the key handler receives with its callbacks. */
  datatype Flags = Flags(isGameOver: bool, hasCurrentPiece: bool, isPaused: bool, isAiVsAiMode: bool)

  const Space: string := " "

  /** The keys that are ignored while there is no current piece. */
  predicate MovementKey(key: string)
  {
    key == "ArrowLeft" || key == "ArrowRight" || key == "ArrowDown" || key == "ArrowUp" || key == Space
  }

  /**
   * `handleKeydown`: the guards in order (game over, no piece, paused), then
   * the switch over the key. The contract lists, for every callback, the
   * only situations in which it is triggered.
   */
  function KeydownAction(key: string, f: Flags): (a: Option<Action>)
    ensures f.isGameOver ==> (a.Some? <==> key == "Enter" || key == Space)
    ensures f.isGameOver && a.Some? ==> a == Some(Start)
    ensures !f.isGameOver && !f.hasCurrentPiece && MovementKey(key) ==> a.None?
    ensures !f.isGameOver && f.isPaused ==> (a.Some? <==> key == "p" || key == "P")
    ensures a == Some(MoveLeft) <==> key == "ArrowLeft" && !f.isGameOver && f.hasCurrentPiece && !f.isPaused
    ensures a == Some(HardDrop) <==> key == Space && !f.isGameOver && f.hasCurrentPiece && !f.isPaused
    ensures a == Some(TakeControl) <==> (key == "t" || key == "T") && f.isAiVsAiMode && !f.isGameOver && !f.isPaused
    ensures a == Some(Start) && !f.isGameOver ==>
              (key == "Enter" || key == "s" || key == "S") && !f.hasCurrentPiece && !f.isPaused
  {
    if f.isGameOver && (key == "Enter" || key == Space) then Some(Start)
    else if f.isGameOver then None
    else if !f.hasCurrentPiece && !f.isGameOver && MovementKey(key) then None
    else if f.isPaused && key != "p" && key != "P" then None
    else if key == "ArrowLeft" then Some(MoveLeft)
    else if key == "ArrowRight" then Some(MoveRight)
    else if key == "ArrowDown" then Some(MoveDown)
    else if key == "ArrowUp" then Some(Rotate)
    else if key == Space then Some(HardDrop)
    else if key == "p" || key == "P" then Some(TogglePause)
    else if key == "g" || key == "G" then Some(ToggleGrid)
    else if key == "t" || key == "T" then (if f.isAiVsAiMode then Some(TakeControl) else None)
    else if key == "Enter" || key == "s" || key == "S" then
      (if !f.hasCurrentPiece && !f.isGameOver then Some(Start) else None)
    else None
  }

  /** Whether `handleKeydown` calls `preventDefault`: Enter or Space after a game over, and Space as hard drop. */
  function KeydownPrevents(key: string, f: Flags): (prevented: bool)
    ensures prevented ==> key == "Enter" || key == Space
    ensures prevented <==> KeydownAction(key, f) == Some(HardDrop) ||
                           (f.isGameOver && KeydownAction(key, f) == Some(Start))
  {
    if f.isGameOver then key == "Enter" || key == Space
    else if !f.hasCurrentPiece && MovementKey(key) then false
    else if f.isPaused && key != "p" && key != "P" then false
    else key == Space
  }

  /** `minSwipeDistance`. */
  const MinSwipeDistance: real := 30.0

  function Abs(v: real): (r: real)
    ensures r >= 0.0 && (r == v || r == -v)
  {
    if v < 0.0 then -v else v
  }

  /**
   * The gesture classification of `handleTouchEnd` on the touch delta: a
   * movement of at most 30 on both axes is a tap (rotate); otherwise the
   * larger axis decides, a horizontal swipe moving the piece and a downward
   * swipe dropping it, while an upward swipe does nothing.
   */
  function SwipeAction(dx: real, dy: real): (a: Option<Action>)
    ensures Abs(dx) <= MinSwipeDistance && Abs(dy) <= MinSwipeDistance <==> a == Some(Rotate)
    ensures a == Some(MoveRight) <==> Abs(dx) > MinSwipeDistance && Abs(dx) > Abs(dy) && dx > 0.0
    ensures a == Some(MoveLeft) <==> Abs(dx) > MinSwipeDistance && Abs(dx) > Abs(dy) && dx < 0.0
    ensures a == Some(HardDrop) <==> Abs(dy) > MinSwipeDistance && Abs(dy) >= Abs(dx) && dy > 0.0
    ensures a.None? <==> Abs(dy) > MinSwipeDistance && Abs(dy) >= Abs(dx) && dy < 0.0
    ensures a.Some? ==> a.value in {Rotate, MoveRight, MoveLeft, HardDrop}
  {
    var absDx, absDy := Abs(dx), Abs(dy);
    if absDx > MinSwipeDistance || absDy > MinSwipeDistance then
      if absDx > absDy then
        if dx > 0.0 then Some(MoveRight) else Some(MoveLeft)
      else
        if dy > 0.0 then Some(HardDrop) else None
    else
      Some(Rotate)
  }

  /** The touch handlers and the module-level start point of the current touch. */
  class TouchInput {
    var touchStartX: real
    var touchStartY: real

    constructor ()
      ensures touchStartX == 0.0 && touchStartY == 0.0
    {
      touchStartX, touchStartY := 0.0, 0.0;
    }

    /** `handleTouchStart`: an active game remembers where the touch began; an inactive one ignores it. */
    method HandleTouchStart(isActive: bool, x: real, y: real)
      modifies this
      ensures isActive ==> touchStartX == x && touchStartY == y
      ensures !isActive ==> touchStartX == old(touchStartX) && touchStartY == old(touchStartY)
    {
      if !isActive {
        return;
      }
      touchStartX := x;
      touchStartY := y;
    }

    /** `handleTouchEnd`: nothing for an inactive game, otherwise the gesture from the start point to (x, y). */
    function HandleTouchEnd(isActive: bool, x: real, y: real): (a: Option<Action>)
      reads this
      ensures !isActive ==> a.None?
      ensures isActive ==> a == SwipeAction(x - touchStartX, y - touchStartY)
      ensures isActive && x == touchStartX && y == touchStartY ==> a == Some(Rotate)
    {
      if !isActive then None
      else SwipeAction(x - touchStartX, y - touchStartY)
    }
  }
}
