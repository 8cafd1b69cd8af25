/** What `scheduleGrains` in src/App.jsx decides on each tick, as functions
    on values: the direction against the deadzone, the direction-change
    click, the hiss and squeal targets, and the grains of one lookahead pass.
    Web Audio nodes become records: a grain is the data handed to
    `src.start` and to the gain ramps, a click is a boolean. */
module Scheduler {
  import opened Helpers
  import opened TapeConfig

  /** The direction of the tape against the deadzone: 1 forward, -1 rewind,
      0 held. */
  function Direction(v: real): (d: int)
    ensures -1 <= d <= 1
    ensures d == 1 <==> v > DEADZONE
    ensures d == -1 <==> v < -DEADZONE
    ensures d == 0 <==> Abs(v) <= DEADZONE
  {
    if v > DEADZONE then 1 else if v < -DEADZONE then -1 else 0
  }

  /** A click sounds when both the current and the remembered direction are
      non-zero and they differ: for directions in {-1, 0, 1}, exactly when
      they are opposite. A click always replaces the remembered direction. */
  function ClickFires(dir: int, lastDir: int): (c: bool)
    ensures -1 <= dir <= 1 && -1 <= lastDir <= 1 ==> (c <==> dir * lastDir == -1)
    ensures c ==> Remember(dir, lastDir) != lastDir
  {
    dir != 0 && lastDir != 0 && dir != lastDir
  }

  /** The remembered direction is overwritten only by a non-zero direction,
      so once a direction is remembered it is never forgotten. */
  function Remember(dir: int, lastDir: int): (r: int)
    ensures r == dir || r == lastDir
    ensures lastDir != 0 ==> r != 0
    ensures dir != 0 ==> r == dir
    ensures -1 <= dir <= 1 && -1 <= lastDir <= 1 ==> -1 <= r <= 1
  {
    if dir != 0 then dir else lastDir
  }

  /** A gain target with the time constant of its exponential approach
      (`setTargetAtTime`). */
  datatype Ramp = Ramp(target: real, timeConstant: real)

  datatype Ambient = Ambient(hiss: Ramp, squeal: Ramp)

  /** Hiss is loudest forward, softer in rewind and quietest when held. */
  function HissRamp(v: real): (r: Ramp)
    ensures r.timeConstant > 0.0
    ensures Direction(v) == 1 ==> r.target == HISS_FORWARD
    ensures Direction(v) == -1 ==> r.target == HISS_REVERSE
    ensures Direction(v) == 0 ==> r.target == HISS_IDLE
    ensures HISS_IDLE <= r.target <= HISS_FORWARD
  {
    if v > DEADZONE then Ramp(HISS_FORWARD, HISS_ACTIVE_TAU)
    else if v < -DEADZONE then Ramp(HISS_REVERSE, HISS_ACTIVE_TAU)
    else Ramp(HISS_IDLE, HISS_IDLE_TAU)
  }

  /** The rewind squeal grows with rewind speed up to SQUEAL_MAX and is
      silent otherwise. */
  function SquealRamp(v: real): (r: Ramp)
    ensures r.timeConstant > 0.0
    ensures 0.0 <= r.target <= SQUEAL_MAX
    ensures r.target > 0.0 <==> v < -DEADZONE
    ensures v <= -MAX_V ==> r.target == SQUEAL_MAX
  {
    if v < -DEADZONE then Ramp(Min(SQUEAL_MAX, Abs(v) / MAX_V * SQUEAL_MAX), SQUEAL_ON_TAU)
    else Ramp(0.0, SQUEAL_OFF_TAU)
  }

  /** Both noise targets of one tick. The squeal only ever sounds together
      with the rewind hiss. */
  function AmbientTargets(v: real): (a: Ambient)
    ensures a.squeal.target > 0.0 ==> a.hiss.target == HISS_REVERSE
    ensures a.hiss.target != HISS_REVERSE ==> a.squeal.target == 0.0
    ensures a.hiss.timeConstant > 0.0 && a.squeal.timeConstant > 0.0
  {
    Ambient(HissRamp(v), SquealRamp(v))
  }

  /** Rewinding faster never makes the squeal quieter. */
  lemma SquealGrowsWithRewindSpeed(v1: real, v2: real)
    requires v2 <= v1
    ensures SquealRamp(v1).target <= SquealRamp(v2).target
  {
    if v1 < -DEADZONE {
      assert Abs(v2) / MAX_V * SQUEAL_MAX >= Abs(v1) / MAX_V * SQUEAL_MAX;
    }
  }

  /** The spacing between grain starts: from STEP_MAX at rest down to the
      minimum step at full speed. */
  function GrainStep(v: real, mobile: bool): (step: real)
    ensures 0.0 < StepMin(mobile) <= step <= STEP_MAX
    ensures Abs(v) >= MAX_V ==> step == StepMin(mobile)
    ensures v == 0.0 ==> step == STEP_MAX
  {
    var speedNorm := Min(1.0, Abs(v) / MAX_V);
    Lerp(STEP_MAX, StepMin(mobile), speedNorm)
  }

  /** A faster tape gives denser grains. */
  lemma {:induction false} StepShrinksWithSpeed(v1: real, v2: real, mobile: bool)
    requires Abs(v1) <= Abs(v2)
    ensures GrainStep(v2, mobile) <= GrainStep(v1, mobile)
  {
    var n1, n2 := Min(1.0, Abs(v1) / MAX_V), Min(1.0, Abs(v2) / MAX_V);
    assert n1 <= n2;
    var span := STEP_MAX - StepMin(mobile);
    assert GrainStep(v1, mobile) == STEP_MAX - span * n1;
    assert GrainStep(v2, mobile) == STEP_MAX - span * n2;
    assert span * (n2 - n1) >= 0.0;
  }

  /** The per-grain inputs of the pitch modulation: the sines of the wow and
      flutter phases at the grain start t (the source takes
      sin(2 pi WOW_HZ t) and sin(2 pi FLUTTER_HZ t)) and the value of
      `Math.random()`. */
  datatype Wobble = Wobble(wowSine: real, flutterSine: real, random: real)

  predicate InRange(w: Wobble) {
    -1.0 <= w.wowSine <= 1.0 && -1.0 <= w.flutterSine <= 1.0 && 0.0 <= w.random < 1.0
  }

  /** Unity rate plus wow, flutter and a small random drift. */
  function PlaybackRate(w: Wobble, mobile: bool): (rate: real)
    ensures InRange(w) ==>
              1.0 - (WowDepth(mobile) + FlutterDepth(mobile) + DRIFT_SPAN / 2.0) <= rate
              < 1.0 + (WowDepth(mobile) + FlutterDepth(mobile) + DRIFT_SPAN / 2.0)
    ensures InRange(w) ==> rate > 0.0
  {
    var wow := w.wowSine * WowDepth(mobile);
    var flutter := w.flutterSine * FlutterDepth(mobile);
    var drift := (w.random - 0.5) * DRIFT_SPAN;
    SineScaled(w.wowSine, WowDepth(mobile));
    SineScaled(w.flutterSine, FlutterDepth(mobile));
    1.0 + wow + flutter + drift
  }

  /** A sine value scaled by a depth stays within that depth. */
  lemma SineScaled(sine: real, depth: real)
    ensures -1.0 <= sine <= 1.0 && depth >= 0.0 ==> -depth <= sine * depth <= depth
  {
    if -1.0 <= sine <= 1.0 && depth >= 0.0 {
      if sine >= 0.0 {
        ScaleDown(sine, depth);
      } else {
        ScaleDown(-sine, depth);
        assert (-sine) * depth == -(sine * depth);
      }
    }
  }

  /** Which of the two decoded buffers a grain plays. */
  datatype Source = Forward | Reverse

  /** One point of a gain automation: a value reached at a time. */
  datatype Breakpoint = Breakpoint(time: real, gain: real)

  /** A scheduled grain: when it starts, which buffer, where in it, how long,
      at what rate, and its gain envelope. */
  datatype Grain = Grain(start: real, source: Source, offset: real, length: real,
                         rate: real, envelope: seq<Breakpoint>)

  /** The read position of a grain. Forward grains read the forward buffer at
      the playhead; rewind grains read the reversed buffer at the mirrored
      position. Either way the grain is kept inside the buffer. */
  function GrainOffset(source: Source, playhead: real, duration: real, bufDuration: real): (r: real)
    ensures 0.0 <= r <= Max(0.0, bufDuration - GRAIN_SIZE)
    ensures bufDuration >= GRAIN_SIZE ==> r + GRAIN_SIZE <= bufDuration
    ensures source == Forward && 0.0 <= playhead <= bufDuration - GRAIN_SIZE ==> r == playhead
    ensures source == Reverse && 0.0 <= duration - playhead <= bufDuration - GRAIN_SIZE ==> r == duration - playhead
  {
    var raw := if source == Forward then playhead else Max(0.0, duration - playhead);
    Clamp(raw, 0.0, Max(0.0, bufDuration - GRAIN_SIZE))
  }

  /** Attack, sustain and release of a grain starting at t0. */
  function Envelope(t0: real): (e: seq<Breakpoint>)
    ensures |e| == 4
    ensures e[0] == Breakpoint(t0, 0.0)
    ensures e[3] == Breakpoint(t0 + GRAIN_SIZE, 0.0)
    ensures e[1].gain == e[2].gain == PEAK
    ensures e[1].time - e[0].time == ATTACK && e[3].time - e[2].time == RELEASE
    ensures e[0].time <= e[1].time <= e[2].time <= e[3].time
  {
    var sustain := Max(0.0, GRAIN_SIZE - (ATTACK + RELEASE));
    [Breakpoint(t0, 0.0),
     Breakpoint(t0 + ATTACK, PEAK),
     Breakpoint(t0 + ATTACK + sustain, PEAK),
     Breakpoint(t0 + ATTACK + sustain + RELEASE, 0.0)]
  }

  /** A grain that starts and ends silent, lasts a positive time, holds PEAK
      between its attack and its release, and reads inside its buffer
      whenever the buffer is at least one grain long. */
  predicate WellFormed(g: Grain, bufDuration: real) {
    && g.length > 0.0
    && 0.0 <= g.offset
    && (bufDuration >= GRAIN_SIZE ==> g.offset + g.length <= bufDuration)
    && |g.envelope| == 4
    && g.envelope[0] == Breakpoint(g.start, 0.0)
    && g.envelope[3] == Breakpoint(g.start + g.length, 0.0)
    && g.envelope[0].time <= g.envelope[1].time <= g.envelope[2].time <= g.envelope[3].time
    && g.envelope[1].gain == g.envelope[2].gain == PEAK
  }

  /** The grain emitted at cursor time t for tape speed v. */
  function MakeGrain(t: real, v: real, playhead: real, duration: real, bufDuration: real,
                     w: Wobble, mobile: bool): (g: Grain)
    ensures WellFormed(g, bufDuration)
    ensures g.start == t && g.length == GRAIN_SIZE
    ensures g.source == Forward <==> v > 0.0
    ensures g.offset == GrainOffset(g.source, playhead, duration, bufDuration)
    ensures g.envelope == Envelope(t)
    ensures g.rate == PlaybackRate(w, mobile)
  {
    var source := if v > 0.0 then Forward else Reverse;
    Grain(t, source, GrainOffset(source, playhead, duration, bufDuration), GRAIN_SIZE,
          PlaybackRate(w, mobile), Envelope(t))
  }

  /** The cursor the lookahead loop starts from: a cursor that fell behind
      the clock is brought up to it. */
  function StartCursor(cursor: real, now: real): (c: real)
    ensures c >= now && c >= cursor
    ensures c == cursor || c == now
  {
    if cursor < now then now else cursor
  }

  /** The cursor after n steps from t0, advanced one step at a time as the
      lookahead loop does; it never falls below t0 and grows with each step. */
  function Cursor(t0: real, step: real, n: nat): (c: real)
    ensures step >= 0.0 ==> c >= t0
    ensures step > 0.0 && n > 0 ==> c > t0
  {
    if n == 0 then t0 else Cursor(t0, step, n - 1) + step
  }

  /** Stepping n times adds n steps. */
  lemma {:induction false} CursorIsLinear(t0: real, step: real, n: nat)
    ensures Cursor(t0, step, n) == t0 + n as real * step
  {
    if n > 0 {
      CursorIsLinear(t0, step, n - 1);
      assert (n - 1) as real * step + step == n as real * step;
    }
  }

  /** The first n grains of a train starting at t0 with the given spacing. */
  function Train(n: nat, t0: real, step: real, v: real, playhead: real, duration: real,
                 bufDuration: real, mobile: bool, wobble: real -> Wobble): (gs: seq<Grain>)
    ensures |gs| == n
  {
    if n == 0 then []
    else
      var t := Cursor(t0, step, n - 1);
      Train(n - 1, t0, step, v, playhead, duration, bufDuration, mobile, wobble)
      + [MakeGrain(t, v, playhead, duration, bufDuration, wobble(t), mobile)]
  }

  /** The i-th grain of a train is the one made at the cursor after i steps. */
  lemma {:induction false} TrainAt(n: nat, t0: real, step: real, v: real, playhead: real, duration: real,
                                   bufDuration: real, mobile: bool, wobble: real -> Wobble, i: nat)
    requires i < n
    ensures Train(n, t0, step, v, playhead, duration, bufDuration, mobile, wobble)[i]
            == MakeGrain(Cursor(t0, step, i), v, playhead, duration, bufDuration,
                         wobble(Cursor(t0, step, i)), mobile)
  {
    if i < n - 1 {
      TrainAt(n - 1, t0, step, v, playhead, duration, bufDuration, mobile, wobble, i);
    }
  }

  /** What one scheduling pass produces from cursor `cursor` at clock time
      `now`: inside the deadzone nothing; otherwise the train of grains from
      the start cursor whose last grain starts before the lookahead horizon,
      and a cursor left one step after it, at or past the horizon. */
  predicate IsPass(grains: seq<Grain>, cursor: real, cursor': real, now: real, v: real,
                   playhead: real, duration: real, bufDuration: real, mobile: bool,
                   wobble: real -> Wobble)
  {
    if Abs(v) <= DEADZONE then
      grains == [] && cursor' == cursor
    else
      var t0, step := StartCursor(cursor, now), GrainStep(v, mobile);
      && grains == Train(|grains|, t0, step, v, playhead, duration, bufDuration, mobile, wobble)
      && cursor' == Cursor(t0, step, |grains|)
      && cursor' >= now + Lookahead(mobile)
      && (|grains| > 0 ==> Cursor(t0, step, |grains| - 1) < now + Lookahead(mobile))
  }

  /** The timing promises of a pass: the cursor never moves back and ends
      past the horizon, and every grain starts at or after the clock, before
      the horizon, exactly one step after the previous one. */
  lemma {:induction false} PassTiming(grains: seq<Grain>, cursor: real, cursor': real, now: real, v: real,
                                      playhead: real, duration: real, bufDuration: real, mobile: bool,
                                      wobble: real -> Wobble)
    requires IsPass(grains, cursor, cursor', now, v, playhead, duration, bufDuration, mobile, wobble)
    ensures cursor' >= cursor
    ensures Abs(v) > DEADZONE ==> cursor' >= now + Lookahead(mobile)
    ensures forall i :: 0 <= i < |grains| ==> now <= grains[i].start < now + Lookahead(mobile)
    ensures forall i :: 0 < i < |grains| ==> grains[i].start == grains[i - 1].start + GrainStep(v, mobile)
    ensures forall i, j :: 0 <= i < j < |grains| ==> grains[i].start < grains[j].start
  {
    if Abs(v) > DEADZONE {
      PassStarts(grains, cursor, cursor', now, v, playhead, duration, bufDuration, mobile, wobble);
      EvenlySpaced(grains, StartCursor(cursor, now), GrainStep(v, mobile), now, now + Lookahead(mobile));
    }
  }

  /** Every grain of a pass is well formed, plays the buffer of the tape's
      direction at the read position of that buffer, and carries the
      attack-sustain-release envelope from its own start. */
  lemma PassGrainsWellFormed(grains: seq<Grain>, cursor: real, cursor': real, now: real, v: real,
                             playhead: real, duration: real, bufDuration: real, mobile: bool,
                             wobble: real -> Wobble)
    requires IsPass(grains, cursor, cursor', now, v, playhead, duration, bufDuration, mobile, wobble)
    ensures forall i :: 0 <= i < |grains| ==>
              && WellFormed(grains[i], bufDuration)
              && (grains[i].source == Forward <==> v > 0.0)
              && grains[i].offset == GrainOffset(grains[i].source, playhead, duration, bufDuration)
              && grains[i].envelope == Envelope(grains[i].start)
  {
    if Abs(v) > DEADZONE {
      var t0, step := StartCursor(cursor, now), GrainStep(v, mobile);
      forall i | 0 <= i < |grains|
        ensures && WellFormed(grains[i], bufDuration)
                && (grains[i].source == Forward <==> v > 0.0)
                && grains[i].offset == GrainOffset(grains[i].source, playhead, duration, bufDuration)
                && grains[i].envelope == Envelope(grains[i].start)
      {
        TrainAt(|grains|, t0, step, v, playhead, duration, bufDuration, mobile, wobble, i);
      }
    }
  }

  /** Grain i of a pass above the deadzone starts at the cursor after i
      steps, and the last one before the horizon. */
  lemma PassStarts(grains: seq<Grain>, cursor: real, cursor': real, now: real, v: real,
                   playhead: real, duration: real, bufDuration: real, mobile: bool,
                   wobble: real -> Wobble)
    requires IsPass(grains, cursor, cursor', now, v, playhead, duration, bufDuration, mobile, wobble)
    requires Abs(v) > DEADZONE
    ensures forall i :: 0 <= i < |grains| ==> grains[i].start == Cursor(StartCursor(cursor, now), GrainStep(v, mobile), i)
    ensures |grains| > 0 ==> grains[|grains| - 1].start < now + Lookahead(mobile)
  {
    var t0, step := StartCursor(cursor, now), GrainStep(v, mobile);
    forall i | 0 <= i < |grains|
      ensures grains[i].start == Cursor(t0, step, i)
    {
      TrainAt(|grains|, t0, step, v, playhead, duration, bufDuration, mobile, wobble, i);
    }
  }

  /** A cursor stepped further is strictly later. */
  lemma {:induction false} CursorMonotone(t0: real, step: real, i: nat, j: nat)
    requires step > 0.0 && i < j
    ensures Cursor(t0, step, i) < Cursor(t0, step, j)
    decreases j
  {
    if i < j - 1 {
      CursorMonotone(t0, step, i, j - 1);
    }
  }

  /** Grains started at successive cursor positions from a start at or
      after `now`, the last before `horizon`, all start in [now, horizon),
      strictly increasing and one step apart. */
  lemma EvenlySpaced(grains: seq<Grain>, t0: real, step: real, now: real, horizon: real)
    requires step > 0.0 && t0 >= now
    requires forall i :: 0 <= i < |grains| ==> grains[i].start == Cursor(t0, step, i)
    requires |grains| > 0 ==> grains[|grains| - 1].start < horizon
    ensures forall i :: 0 <= i < |grains| ==> now <= grains[i].start < horizon
    ensures forall i :: 0 < i < |grains| ==> grains[i].start == grains[i - 1].start + step
    ensures forall i, j :: 0 <= i < j < |grains| ==> grains[i].start < grains[j].start
  {
    forall i | 0 <= i < |grains|
      ensures now <= grains[i].start < horizon
    {
      if i < |grains| - 1 {
        CursorMonotone(t0, step, i, |grains| - 1);
      }
    }
    forall i, j | 0 <= i < j < |grains|
      ensures grains[i].start < grains[j].start
    {
      CursorMonotone(t0, step, i, j);
    }
  }

  /** Advancing the cursor by one step brings it one step nearer the
      horizon, which bounds the lookahead loop. */
  lemma FloorDropsByOne(gap: real, step: real)
    requires step > 0.0 && gap > 0.0
    ensures (gap / step).Floor >= 0
    ensures ((gap - step) / step).Floor == (gap / step).Floor - 1
  {
    var q, r := gap / step, (gap - step) / step;
    assert q * step == gap;
    assert r * step == gap - step;
    var d := q - 1.0 - r;
    assert d * step == 0.0;
    assert d == 0.0;
  }

  /** Inside the deadzone a pass schedules nothing and leaves the cursor. */
  lemma DeadzoneIsSilent(grains: seq<Grain>, cursor: real, cursor': real, now: real, v: real,
                         playhead: real, duration: real, bufDuration: real, mobile: bool,
                         wobble: real -> Wobble)
    requires IsPass(grains, cursor, cursor', now, v, playhead, duration, bufDuration, mobile, wobble)
    requires Abs(v) <= DEADZONE
    ensures grains == [] && cursor' == cursor
  {
  }

  /** A desktop pass at tape speed 0.02 over a 10-second clip, with the cursor
      not ahead of the clock, schedules six forward grains 0.18/7 seconds
      apart (the step interpolated at speed 0.02/0.028). */
  lemma {:induction false} DesktopPassAtSpeed002(grains: seq<Grain>, cursor: real, cursor': real, now: real,
                                                 wobble: real -> Wobble)
    requires cursor <= now
    requires IsPass(grains, cursor, cursor', now, 0.02, 0.0, 10.0, 10.0, false, wobble)
    ensures |grains| == 6
    ensures forall i :: 0 <= i < 6 ==> grains[i].source == Forward && grains[i].offset == 0.0
    ensures forall i :: 0 <= i < 6 ==> grains[i].start == now + i as real * (0.18 / 7.0)
  {
    var step := GrainStep(0.02, false);
    assert step == 0.18 / 7.0;
    var n := |grains|;
    CursorIsLinear(now, step, n);
    assert n as real * step >= 0.14;
    assert n > 0;
    CursorIsLinear(now, step, n - 1);
    assert (n - 1) as real * step < 0.14;
    forall i | 0 <= i < 6
      ensures grains[i].source == Forward && grains[i].offset == 0.0
      ensures grains[i].start == now + i as real * step
    {
      TrainAt(n, now, step, 0.02, 0.0, 10.0, 10.0, false, wobble, i);
      CursorIsLinear(now, step, i);
    }
  }
}
