/** The motion integrator of src/App.jsx as functions on values: the knob
    gesture (normalize and the velocity update of onPointerMove) and the
    per-frame physics of the tick (smoothing, playhead, friction, end damping).
    The Engine class runs these steps in place; the lemmas here say what
    repeated ticks do. */
module Motion {
  import opened Helpers
  import opened TapeConfig

  /** Brings an angle difference back into one turn around zero (`normalize`). */
  function Normalize(d: real): (r: real)
    ensures r == d || r == d - 360.0 || r == d + 360.0
    ensures -540.0 <= d <= 540.0 ==> -180.0 <= r <= 180.0
    ensures -180.0 <= d <= 180.0 ==> r == d
  {
    if d > 180.0 then d - 360.0
    else if d < -180.0 then d + 360.0
    else d
  }

  /** The angle the knob turned between two pointer positions, both read
      from atan2 in degrees. */
  function TurnDelta(angle: real, lastAngle: real): (delta: real)
    requires -180.0 <= angle <= 180.0 && -180.0 <= lastAngle <= 180.0
    ensures -180.0 <= delta <= 180.0
    ensures delta == angle - lastAngle || delta == angle - lastAngle - 360.0 || delta == angle - lastAngle + 360.0
  {
    Normalize(angle - lastAngle)
  }

  /** The velocity after one pointer move of `delta` degrees: the drag is
      added and the result clamped to a single bound for both directions. */
  function DragVelocity(velocity: real, delta: real): (r: real)
    ensures -MAX_V <= r <= MAX_V
    ensures -MAX_V <= velocity <= MAX_V && delta >= 0.0 ==> r >= velocity
    ensures -MAX_V <= velocity <= MAX_V && delta <= 0.0 ==> r <= velocity
    ensures Abs(velocity + delta * DRAG_SENSITIVITY) <= MAX_V ==> r == velocity + delta * DRAG_SENSITIVITY
  {
    Clamp(velocity + delta * DRAG_SENSITIVITY, -MAX_V, MAX_V)
  }

  /** The three cells the tick updates. */
  datatype Motion = Motion(velocity: real, tapeSpeed: real, playhead: real)

  /** Exponential smoothing of the raw velocity into the tape speed: the
      result lies between the two, and a tape already at the velocity keeps
      it. */
  function Smoothed(m: Motion): (s: real)
    ensures Min(m.velocity, m.tapeSpeed) <= s <= Max(m.velocity, m.tapeSpeed)
    ensures m.velocity == m.tapeSpeed ==> s == m.velocity
  {
    m.tapeSpeed * (1.0 - SPEED_SMOOTHING) + m.velocity * SPEED_SMOOTHING
  }

  /** Whether the playhead is within EDGE of either end of the clip. A
      playhead pinned to either end by the clamp is always near an edge; one
      strictly inside the margins is not. */
  function NearEdge(playhead: real, duration: real): (r: bool)
    ensures playhead <= 0.0 || playhead >= duration ==> r
    ensures EDGE < playhead < duration - EDGE ==> !r
  {
    playhead <= EDGE || playhead >= duration - EDGE
  }

  /** One animation frame of physics, for a loaded clip of `duration` seconds. */
  function Advance(m: Motion, duration: real): (r: Motion)
    requires duration > 0.0
    ensures 0.0 <= r.playhead <= duration
    ensures Abs(r.velocity) <= FRICTION * Abs(m.velocity)
    ensures NearEdge(r.playhead, duration) ==>
              Abs(r.velocity) == FRICTION * EDGE_VELOCITY_DAMPING * Abs(m.velocity)
    ensures Abs(m.velocity) <= MAX_V && Abs(m.tapeSpeed) <= MAX_V ==> Abs(r.tapeSpeed) <= MAX_V
    ensures 0.0 <= m.playhead <= duration && Smoothed(m) >= 0.0 ==> m.playhead <= r.playhead
    ensures 0.0 <= m.playhead <= duration && Smoothed(m) <= 0.0 ==> r.playhead <= m.playhead
  {
    var tapeSpeed := Smoothed(m);
    var playhead := Clamp(m.playhead + tapeSpeed, 0.0, duration);
    var velocity := m.velocity * FRICTION;
    if NearEdge(playhead, duration) then
      Motion(velocity * EDGE_VELOCITY_DAMPING, tapeSpeed * EDGE_SPEED_DAMPING, playhead)
    else
      Motion(velocity, tapeSpeed, playhead)
  }

  /** `n` frames with no pointer input. */
  function Idle(m: Motion, duration: real, n: nat): (r: Motion)
    requires duration > 0.0
  {
    if n == 0 then m else Advance(Idle(m, duration, n - 1), duration)
  }

  /** `x` scaled down `n` times by `ratio`, that is ratio^n * x. */
  function Shrunk(x: real, ratio: real, n: nat): (r: real)
    ensures x >= 0.0 && ratio >= 0.0 ==> r >= 0.0
    ensures x >= 0.0 && 0.0 <= ratio <= 1.0 ==> r <= x
  {
    if n == 0 then x
    else
      var prev := Shrunk(x, ratio, n - 1);
      ScaleDown(ratio, prev);
      ratio * prev
  }

  /** Without input the raw velocity decays at least geometrically, with
      ratio FRICTION per frame. */
  lemma {:induction false} IdleVelocityDecays(m: Motion, duration: real, n: nat)
    requires duration > 0.0
    ensures Abs(Idle(m, duration, n).velocity) <= Shrunk(Abs(m.velocity), FRICTION, n)
  {
    if n > 0 {
      IdleVelocityDecays(m, duration, n - 1);
    }
  }

  /** Without input the tape speed decays too. Smoothing can first pull it
      toward the velocity, so the bound has ratio 0.94 per frame and a factor
      1.6 over the larger of the two starting magnitudes. */
  lemma {:induction false} IdleSpeedDecays(m: Motion, duration: real, n: nat)
    requires duration > 0.0
    ensures Abs(Idle(m, duration, n).velocity) <= Shrunk(Max(Abs(m.velocity), Abs(m.tapeSpeed)), 0.94, n)
    ensures Abs(Idle(m, duration, n).tapeSpeed) <= 1.6 * Shrunk(Max(Abs(m.velocity), Abs(m.tapeSpeed)), 0.94, n)
  {
    if n > 0 {
      IdleSpeedDecays(m, duration, n - 1);
      var bound := Shrunk(Max(Abs(m.velocity), Abs(m.tapeSpeed)), 0.94, n - 1);
      FrameShrinks(Idle(m, duration, n - 1), duration, bound);
    }
  }

  /** One frame without input maps the bounds |velocity| <= b and
      |tapeSpeed| <= 1.6 b to the same bounds with b scaled by 0.94. */
  lemma FrameShrinks(m: Motion, duration: real, b: real)
    requires duration > 0.0
    requires Abs(m.velocity) <= b && Abs(m.tapeSpeed) <= 1.6 * b
    ensures Abs(Advance(m, duration).velocity) <= 0.94 * b
    ensures Abs(Advance(m, duration).tapeSpeed) <= 1.6 * (0.94 * b)
  {
    var s := Smoothed(m);
    assert Abs(s) <= 0.84 * Abs(m.tapeSpeed) + 0.16 * Abs(m.velocity);
  }

  /** A tape at rest inside the clip stays exactly where it is. */
  lemma {:induction false} RestIsStable(playhead: real, duration: real, n: nat)
    requires duration > 0.0 && 0.0 <= playhead <= duration
    ensures Idle(Motion(0.0, 0.0, playhead), duration, n) == Motion(0.0, 0.0, playhead)
  {
    if n > 0 {
      RestIsStable(playhead, duration, n - 1);
    }
  }
}
