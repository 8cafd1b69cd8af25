/** The component's mutable cells (the `useRef` values of src/App.jsx that
    the tick, the pointer handlers and the scheduler update) as one object.
    Each method performs the source's steps in place and states the new
    state through the functions of Motion and Scheduler. */
module TapeEngine {
  import opened Helpers
  import opened TapeConfig
  import opened Motion
  import opened Scheduler

  class Engine {
    /** Whether the device is a phone (lighter lookahead, step and wobble). */
    const mobile: bool

    /** Audio context, tone chain and both buffers exist. */
    var ready: bool
    /** Length of the clip in seconds as the UI knows it (0 until loaded). */
    var duration: real
    /** Length of the decoded buffers in seconds. */
    var bufDuration: real

    var velocity: real
    var tapeSpeed: real
    var playhead: real
    var lastDir: int
    var nextGrainTime: real

    var lastAngle: real
    var knobAngle: real
    /** Whether the knob holds the pointer capture. */
    var captured: bool

    ghost predicate Valid()
      reads this
    {
      && 0.0 <= duration && 0.0 <= bufDuration
      && 0.0 <= playhead <= duration
      && -MAX_V <= velocity <= MAX_V
      && Abs(tapeSpeed) <= MAX_V
      && -1 <= lastDir <= 1
      && (!ready ==> duration == 0.0 && bufDuration == 0.0)
    }

    function State(): Motion
      reads this
    {
      Motion(velocity, tapeSpeed, playhead)
    }

    /** Every cell starts at zero and nothing is loaded. */
    constructor (mobile: bool)
      ensures Valid()
      ensures this.mobile == mobile && !ready && !captured
      ensures duration == 0.0 && bufDuration == 0.0
      ensures State() == Motion(0.0, 0.0, 0.0) && lastDir == 0 && nextGrainTime == 0.0
      ensures lastAngle == 0.0 && knobAngle == 0.0
    {
      this.mobile := mobile;
      ready, duration, bufDuration := false, 0.0, 0.0;
      velocity, tapeSpeed, playhead := 0.0, 0.0, 0.0;
      lastDir, nextGrainTime := 0, 0.0;
      lastAngle, knobAngle, captured := 0.0, 0.0, false;
    }

    /** The end of audio initialisation: the decoded clip and its reverse are
        in place, the UI learns the duration and the cursor starts at the
        clock. Initialisation runs once; a second call changes nothing. */
    method AttachClip(clipDuration: real, now: real)
      requires Valid() && clipDuration >= 0.0
      modifies this`ready, this`duration, this`bufDuration, this`nextGrainTime
      ensures Valid()
      ensures old(ready) ==> ready && duration == old(duration) && bufDuration == old(bufDuration)
                             && nextGrainTime == old(nextGrainTime)
      ensures !old(ready) ==> ready && duration == clipDuration && bufDuration == clipDuration
                              && nextGrainTime == now
    {
      if !ready {
        ready, duration, bufDuration := true, clipDuration, clipDuration;
        nextGrainTime := now;
      }
    }

    /** Pointer down on the knob, once audio is available: remember the angle,
        take the capture and restart the grain cursor at the clock. */
    method PointerDown(angle: real, now: real)
      requires Valid()
      modifies this`lastAngle, this`captured, this`nextGrainTime
      ensures Valid()
      ensures ready ==> lastAngle == angle && captured && nextGrainTime == now
      ensures !ready ==> lastAngle == old(lastAngle) && captured == old(captured)
                         && nextGrainTime == old(nextGrainTime)
    {
      if ready {
        lastAngle := angle;
        captured := true;
        nextGrainTime := now;
      }
    }

    /** Pointer move: while the knob holds the capture, the turn since the
        last angle nudges the velocity, which stays within one bound for both
        directions. */
    method PointerMove(angle: real)
      requires Valid()
      modifies this`velocity, this`lastAngle, this`knobAngle
      ensures Valid()
      ensures !captured ==> velocity == old(velocity) && lastAngle == old(lastAngle)
                            && knobAngle == old(knobAngle)
      ensures captured ==>
                && velocity == DragVelocity(old(velocity), Normalize(angle - old(lastAngle)))
                && lastAngle == angle
                && knobAngle == old(knobAngle) + Normalize(angle - old(lastAngle))
    {
      if !captured {
        return;
      }
      var delta := Normalize(angle - lastAngle);
      lastAngle := angle;
      velocity := velocity + delta * DRAG_SENSITIVITY;
      velocity := Clamp(velocity, -MAX_V, MAX_V);
      knobAngle := knobAngle + delta;
    }

    /** Pointer up or cancel releases the capture. */
    method PointerUp()
      requires Valid()
      modifies this`captured
      ensures Valid()
      ensures !captured
    {
      captured := false;
    }

    /** One animation frame at audio-clock time `now`. With a loaded clip the
        physics advances one step and the scheduler runs; otherwise nothing
        happens. */
    method Tick(now: real, wobble: real -> Wobble) returns (grains: seq<Grain>, click: bool, levels: Option<Ambient>)
      requires Valid()
      modifies this`velocity, this`tapeSpeed, this`playhead, this`lastDir, this`nextGrainTime
      ensures Valid()
      ensures !(ready && duration != 0.0) ==>
                && State() == old(State()) && lastDir == old(lastDir)
                && nextGrainTime == old(nextGrainTime)
                && grains == [] && !click && levels == None
      ensures ready && duration != 0.0 ==>
                && State() == Advance(old(State()), duration)
                && click == ClickFires(Direction(tapeSpeed), old(lastDir))
                && lastDir == Remember(Direction(tapeSpeed), old(lastDir))
                && levels == Some(AmbientTargets(tapeSpeed))
                && IsPass(grains, old(nextGrainTime), nextGrainTime, now, tapeSpeed, playhead,
                          duration, bufDuration, mobile, wobble)
    {
      if !(ready && duration != 0.0) {
        return [], false, None;
      }
      ghost var before := State();
      tapeSpeed := tapeSpeed * (1.0 - SPEED_SMOOTHING) + velocity * SPEED_SMOOTHING;
      playhead := Clamp(playhead + tapeSpeed, 0.0, duration);
      velocity := velocity * FRICTION;
      if playhead <= EDGE || playhead >= duration - EDGE {
        velocity := velocity * EDGE_VELOCITY_DAMPING;
        tapeSpeed := tapeSpeed * EDGE_SPEED_DAMPING;
      }
      assert State() == Advance(before, duration);
      grains, click, levels := ScheduleGrains(now, wobble);
    }

    /** One scheduling pass at audio-clock time `now`: classify the direction,
        click on a reversal, choose the ambient targets and, above the
        deadzone, fill the lookahead window with grains. `wobble` gives the
        sine values and random draw used for a grain starting at a time. */
    method ScheduleGrains(now: real, wobble: real -> Wobble) returns (grains: seq<Grain>, click: bool, levels: Option<Ambient>)
      requires Valid()
      modifies this`lastDir, this`nextGrainTime
      ensures Valid()
      ensures !ready ==> lastDir == old(lastDir) && nextGrainTime == old(nextGrainTime)
                         && grains == [] && !click && levels == None
      ensures ready ==>
                && click == ClickFires(Direction(tapeSpeed), old(lastDir))
                && lastDir == Remember(Direction(tapeSpeed), old(lastDir))
                && levels == Some(AmbientTargets(tapeSpeed))
                && IsPass(grains, old(nextGrainTime), nextGrainTime, now, tapeSpeed, playhead,
                          duration, bufDuration, mobile, wobble)
    {
      if !ready {
        return [], false, None;
      }
      var v := tapeSpeed;
      var dir := Direction(v);
      click := ClickFires(dir, lastDir);
      if dir != 0 {
        lastDir := dir;
      }
      levels := Some(AmbientTargets(v));
      grains := Pass(now, wobble);
    }

    /** The grain part of a pass at clock time `now`: nothing inside the
        deadzone; otherwise the cursor catches up with the clock and the
        lookahead window is filled. */
    method Pass(now: real, wobble: real -> Wobble) returns (grains: seq<Grain>)
      modifies this`nextGrainTime
      ensures IsPass(grains, old(nextGrainTime), nextGrainTime, now, tapeSpeed, playhead,
                     duration, bufDuration, mobile, wobble)
    {
      var v := tapeSpeed;
      if Abs(v) <= DEADZONE {
        return [];
      }
      var step := GrainStep(v, mobile);
      if nextGrainTime < now {
        nextGrainTime := now;
      }
      ghost var t0 := nextGrainTime;
      assert t0 == StartCursor(old(nextGrainTime), now);
      grains := FillLookahead(now + Lookahead(mobile), step, v, wobble);
    }

    /** The lookahead loop of a pass: from the cursor, one grain per step
        until the cursor reaches `horizon`. The grains form the train that
        starts at the old cursor, the last one starts before the horizon and
        the cursor ends one step after it. */
    method FillLookahead(horizon: real, step: real, v: real, wobble: real -> Wobble) returns (grains: seq<Grain>)
      requires step > 0.0
      modifies this`nextGrainTime
      ensures grains == Train(|grains|, old(nextGrainTime), step, v, playhead, duration, bufDuration, mobile, wobble)
      ensures nextGrainTime == Cursor(old(nextGrainTime), step, |grains|)
      ensures nextGrainTime >= horizon
      ensures |grains| > 0 ==> Cursor(old(nextGrainTime), step, |grains| - 1) < horizon
    {
      grains := [];
      ghost var t0 := nextGrainTime;
      while nextGrainTime < horizon
        invariant nextGrainTime == Cursor(t0, step, |grains|)
        invariant grains == Train(|grains|, t0, step, v, playhead, duration, bufDuration, mobile, wobble)
        invariant |grains| > 0 ==> Cursor(t0, step, |grains| - 1) < horizon
        decreases ((horizon - nextGrainTime) / step).Floor
      {
        var t := nextGrainTime;
        grains := grains + [MakeGrain(t, v, playhead, duration, bufDuration, wobble(t), mobile)];
        nextGrainTime := t + step;
        FloorDropsByOne(horizon - t, step);
      }
    }
  }
}
