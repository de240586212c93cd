/**
 * The frame loop of the modular game (js/modules/core/GameLoopManager.js):
 * the module-level `lastTime`, `dropCounter` and animation-frame handle, and
 * the drop-counter step taken on every frame.
 *
 * The configuration callbacks the loop reads (`isGameOver`, `isPaused`,
 * `isAiVsAiMode`, `isPlayerControl`, `getDropInterval`) arrive as a `Config`
 * value; the callback it triggers (`movePieceDown`) is reported as a result.
 * Timestamps are integers passed in, and the handle a call of
 * `requestAnimationFrame` returns is a parameter. The browser's side of
 * `cancelAnimationFrame` is recorded as the list of handles cancelled.
 */
module GameLoop {
  import opened Common

  /** The answers of the configuration callbacks at one frame. */
  datatype Config = Config(isGameOver: bool, isPaused: bool, isAiVsAiMode: bool,
                           isPlayerControl: bool, dropInterval: int)

  /** Whether the frame advances the drop counter: always outside AI-vs-AI mode, and in it only under player control. */
  predicate AutoDrop(c: Config)
  {
    !c.isAiVsAiMode || c.isPlayerControl
  }

  /** The outcome of one frame: the new clock, the new counter, and whether `movePieceDown` was called. */
  datatype Tick = Tick(lastTime: int, dropCounter: int, dropped: bool)

  /** `deltaTime`: no time has passed on the first frame (`lastTime` 0), otherwise the time since the last one. */
  function Delta(lastTime: int, time: int): (d: int)
    ensures lastTime == 0 ==> d == 0
    ensures lastTime != 0 ==> d == time - lastTime
  {
    if lastTime == 0 then 0 else time - lastTime
  }

  /**
   * One frame of a running, unpaused game: the clock moves to `time`; when the
   * frame drops automatically the counter grows by the elapsed time, and once
   * it exceeds the interval the piece moves down exactly once and the counter
   * restarts at 0.
   */
  function Advance(lastTime: int, dropCounter: int, time: int, c: Config): (t: Tick)
    ensures t.lastTime == time
    ensures !AutoDrop(c) ==> !t.dropped && t.dropCounter == dropCounter
    ensures AutoDrop(c) ==> (t.dropped <==> dropCounter + Delta(lastTime, time) > c.dropInterval)
    ensures t.dropped ==> t.dropCounter == 0
    ensures !t.dropped ==> t.dropCounter == dropCounter + (if AutoDrop(c) then Delta(lastTime, time) else 0)
  {
    if AutoDrop(c) then
      var counter := dropCounter + Delta(lastTime, time);
      if counter > c.dropInterval then Tick(time, 0, true) else Tick(time, counter, false)
    else
      Tick(time, dropCounter, false)
  }

  /**
   * Resuming restarts the counter at 0 with the clock at `now`, so the first
   * frame after a resume drops only when more than a whole interval has passed
   * since the resume: time spent paused never forces a drop.
   */
  lemma ResumedFrameNeedsFullInterval(now: int, time: int, c: Config)
    requires c.dropInterval >= 0
    requires Advance(now, 0, time, c).dropped
    ensures AutoDrop(c) && now != 0 && time - now > c.dropInterval
  {
  }

  /**
   * Between two resets the counter is the time elapsed since the first frame
   * after the reset: two frames that do not drop add their deltas, which
   * telescope.
   */
  lemma {:induction false} CounterTracksElapsed(last: int, counter: int, t1: int, t2: int, c1: Config, c2: Config)
    requires AutoDrop(c1) && AutoDrop(c2) && last != 0 && t1 != 0
    requires !Advance(last, counter, t1, c1).dropped
    requires !Advance(t1, Advance(last, counter, t1, c1).dropCounter, t2, c2).dropped
    ensures Advance(t1, Advance(last, counter, t1, c1).dropCounter, t2, c2).dropCounter == counter + (t2 - last)
  {
    var first := Advance(last, counter, t1, c1);
    assert first.dropCounter == counter + (t1 - last);
  }

  /** The loop manager's module-level state. */
  class LoopManager {
    var lastTime: int
    var dropCounter: int
    /** `gameLoopHandle`: `None` is `null`; a handle is truthy when it is not 0. */
    var handle: Option<int>
    /** The handles passed to `cancelAnimationFrame`, oldest first. */
    var cancelled: seq<int>

    /** Whether `if (gameLoopHandle)` holds. */
    predicate HandleSet()
      reads this
    {
      handle.Some? && handle.value != 0
    }

    /** The module's initial values. */
    constructor ()
      ensures lastTime == 0 && dropCounter == 0 && handle == None && cancelled == []
    {
      lastTime, dropCounter, handle, cancelled := 0, 0, None, [];
    }

    /** `reset`: the clock and the counter go back to 0 (the game's own reset callback is not part of this model). */
    method Reset()
      modifies this
      ensures lastTime == 0 && dropCounter == 0
      ensures handle == old(handle) && cancelled == old(cancelled)
    {
      lastTime := 0;
      dropCounter := 0;
    }

    /**
     * `update(time)`: nothing at all while the game is over or paused;
     * otherwise one `Advance` step, and the next frame is requested (its
     * handle is `frame`). `dropped` says whether `movePieceDown` was called.
     */
    method Update(time: int, c: Config, frame: int) returns (dropped: bool)
      modifies this
      ensures c.isGameOver || c.isPaused ==>
        !dropped && lastTime == old(lastTime) && dropCounter == old(dropCounter) && handle == old(handle)
      ensures !c.isGameOver && !c.isPaused ==>
        Tick(lastTime, dropCounter, dropped) == Advance(old(lastTime), old(dropCounter), time, c) &&
        handle == Some(frame)
      ensures cancelled == old(cancelled)
    {
      if c.isGameOver || c.isPaused {
        return false;
      }
      var deltaTime := if lastTime == 0 then 0 else time - lastTime;
      lastTime := time;
      dropped := false;
      if !c.isAiVsAiMode || c.isPlayerControl {
        dropCounter := dropCounter + deltaTime;
        if dropCounter > c.dropInterval {
          dropped := true;
          dropCounter := 0;
        }
      }
      handle := Some(frame);
    }

    /** Cancels the pending frame when there is one; the handle itself is kept. */
    method CancelPending()
      modifies this
      ensures cancelled == if old(HandleSet()) then old(cancelled) + [old(handle).value] else old(cancelled)
      ensures lastTime == old(lastTime) && dropCounter == old(dropCounter) && handle == old(handle)
    {
      if handle.Some? && handle.value != 0 {
        cancelled := cancelled + [handle.value];
      }
    }

    /**
     * `start`: any pending frame is cancelled, the clock restarts at `now`
     * with the counter at 0, and a new frame is requested (the start and
     * reset callbacks are not part of this model).
     */
    method Start(now: int, frame: int)
      modifies this
      ensures lastTime == now && dropCounter == 0 && handle == Some(frame)
      ensures cancelled == if old(HandleSet()) then old(cancelled) + [old(handle).value] else old(cancelled)
    {
      CancelPending();
      lastTime := now;
      dropCounter := 0;
      handle := Some(frame);
    }

    /**
     * `pause(shouldPause)`: pausing cancels the pending frame and keeps the
     * counters; resuming restarts the clock at `now` with the counter at 0
     * and requests a new frame.
     */
    method Pause(shouldPause: bool, now: int, frame: int)
      modifies this
      ensures shouldPause ==>
        lastTime == old(lastTime) && dropCounter == old(dropCounter) && handle == old(handle) &&
        cancelled == if old(HandleSet()) then old(cancelled) + [old(handle).value] else old(cancelled)
      ensures !shouldPause ==>
        lastTime == now && dropCounter == 0 && handle == Some(frame) && cancelled == old(cancelled)
    {
      if shouldPause {
        CancelPending();
      } else {
        lastTime := now;
        dropCounter := 0;
        handle := Some(frame);
      }
    }

    /** `stop`: a pending frame is cancelled and the handle cleared; otherwise nothing changes. */
    method Stop()
      modifies this
      ensures old(HandleSet()) ==> handle == None && cancelled == old(cancelled) + [old(handle).value]
      ensures !old(HandleSet()) ==> handle == old(handle) && cancelled == old(cancelled)
      ensures lastTime == old(lastTime) && dropCounter == old(dropCounter)
    {
      if handle.Some? && handle.value != 0 {
        cancelled := cancelled + [handle.value];
        handle := None;
      }
    }

    /** `resetDropCounter`: used when the player takes control; the counter restarts at 0 and the clock at `now`. */
    method ResetDropCounter(now: int)
      modifies this
      ensures dropCounter == 0 && lastTime == now
      ensures handle == old(handle) && cancelled == old(cancelled)
    {
      dropCounter := 0;
      lastTime := now;
    }
  }
}
