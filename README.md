# Tape memory: the motion-to-sound core in Dafny

This project models the motion-to-sound engine of the tape-recorder instrument
in `src/App.jsx`. Turning the knob nudges a raw velocity. On every animation
frame the tick smooths that velocity into a tape speed, moves the playhead
through the clip and lets friction slow the tape, with extra damping at either
end of the clip. It then runs the grain scheduler. The scheduler:

- classifies the tape direction against a deadzone;
- clicks once on each reversal;
- picks the hiss and squeal targets;
- fills a short lookahead window with enveloped, pitch-wobbled grains read
  from the forward buffer or from its reversed copy.

The model also covers:

- building the reversed buffer;
- the `m:ss` time labels;
- the mapping from spectrum-analyser bins to the 40 bars of the graph.

The project has these modules:

- `Helpers` (`helpers.dfy`): `clamp` and `lerp` over exact reals, plus small
  arithmetic lemmas.
- `TapeConfig` (`tape_config.dfy`): the tuning constants. The ones that differ
  on a phone are functions of a `mobile` flag.
- `Motion` (`motion.dfy`): `normalize`, the drag update and one frame of
  physics (`Advance`), as functions on values. Lemmas say what repeated frames
  without input do.
- `Scheduler` (`scheduler.dfy`): what one scheduling pass decides, as
  functions on values. A grain is a record: start time, buffer, offset,
  length, rate and gain envelope. `IsPass` states what a pass produces. The
  lemmas give its timing and the shape of its grains.
- `ClickTrace` (`click_trace.dfy`): the direction-change click folded over
  many ticks.
- `TapeEngine` (`engine.dfy`): the component's mutable refs as one class,
  `Engine`. Its methods are the pointer handlers, the tick and the scheduler,
  performing the source's steps in place. Each method's postcondition ties
  the new state to the functions of `Motion` and `Scheduler`. The lookahead
  loop is a `while` loop that advances the cursor field.
- `AudioBuffers` (`audio_buffer.dfy`): an AudioBuffer as a class over
  per-channel arrays. `reverseBuffer` is its nested loop, proved against a
  recursive reference reversal.
- `Graph` (`graph.dfy`): the bin index and the height of each bar, and the
  loop that fills the bar values.
- `Clock` (`clock.dfy`): `format`, with JavaScript's truncating `%`, and a
  reader for its output that proves the labels round-trip.

Two facts about the code shape what is proved:

- **The velocity bound is symmetric.** `onPointerMove` adds
  `delta * DRAG_SENSITIVITY` in both directions and clamps to the single
  interval `[-MAX_V, MAX_V]` (src/App.jsx:401-402). There is no rewind
  multiplier.
- **The tape speed does not decay monotonically without input.** Smoothing
  pulls the tape speed toward the raw velocity, which can raise it for a few
  frames. The model proves that the raw velocity decays at least
  geometrically with ratio `FRICTION`. For the tape speed it proves a
  geometric bound with ratio 0.94.

Values the source reads from the browser are parameters:

- the audio clock `now`;
- the decoded clip duration;
- the knob angle;
- the phone flag;
- per grain, the sines of the wow and flutter phases and the `Math.random()`
  draw (`wobble`).

## Model

| member | source | states |
|---|---|---|
| Helpers.Clamp | src/App.jsx:796-798 | the result lies in [a, b] when a <= b; it is x when x is inside, a below, b above; the lower bound wins for an empty interval |
| Helpers.Lerp | src/App.jsx:799-801 | t = 0 gives a, t = 1 gives b, and t in [0, 1] gives a value between a and b |
| Motion.Normalize | src/App.jsx:337-341 | the result differs from d by 0 or ±360; a difference of two atan2 angles lands in [-180, 180]; values already there are unchanged |
| Motion.TurnDelta | src/App.jsx:396-397 | the turn between two pointer angles in [-180, 180] is the shortest one, within [-180, 180] |
| Motion.DragVelocity | src/App.jsx:401-402 | the new velocity stays in [-MAX_V, MAX_V]; turning one way never moves it the other way; without clamping it is the old velocity plus delta * DRAG_SENSITIVITY |
| Motion.Smoothed | src/App.jsx:652-654 | the smoothed speed lies between the old tape speed and the raw velocity, and a tape already at the velocity keeps it |
| Motion.NearEdge | src/App.jsx:664 | a playhead pinned to either end of the clip always counts as near an edge; one strictly inside the EDGE margins never does |
| Motion.Advance | src/App.jsx:652-667 | after a frame the playhead is in [0, duration]; \|velocity\| shrinks by at least FRICTION, and by exactly FRICTION·0.6 near an end; \|tapeSpeed\| <= MAX_V is preserved; the playhead moves in the direction of the smoothed speed |
| Motion.IdleVelocityDecays | src/App.jsx:661-667 | after n frames without input \|velocity\| is at most FRICTION^n times its start value |
| Motion.IdleSpeedDecays | src/App.jsx:652-667 | after n frames without input both velocity and tape speed are bounded by a geometric sequence with ratio 0.94 |
| Motion.FrameShrinks | src/App.jsx:652-667 | one frame without input turns the bounds \|velocity\| <= b, \|tapeSpeed\| <= 1.6 b into the same bounds with b scaled by 0.94 |
| Motion.RestIsStable | src/App.jsx:652-667 | a tape at rest inside the clip stays exactly where it is, frame after frame |
| Scheduler.Direction | src/App.jsx:566 | the direction is 1 exactly above the deadzone, -1 exactly below minus the deadzone, 0 exactly inside it |
| Scheduler.ClickFires | src/App.jsx:567 | for directions in {-1, 0, 1} a click fires exactly when the current and remembered directions are opposite; a click always replaces the remembered direction |
| Scheduler.Remember | src/App.jsx:568 | the memory becomes the current direction when it is non-zero and is kept otherwise, so a remembered direction is never forgotten, and it stays in {-1, 0, 1} |
| Scheduler.HissRamp | src/App.jsx:571-575 | the hiss target is 0.028 forward, 0.016 in rewind and 0.010 when held, always between the idle and forward levels |
| Scheduler.SquealRamp | src/App.jsx:578-585 | the squeal target is in [0, 0.20], positive exactly when rewinding past the deadzone, and 0.20 at full rewind speed |
| Scheduler.AmbientTargets | src/App.jsx:571-585 | the squeal sounds only together with the rewind hiss, and both targets are approached with positive time constants |
| Scheduler.SquealGrowsWithRewindSpeed | src/App.jsx:579-581 | a faster rewind never gives a quieter squeal target |
| Scheduler.GrainStep | src/App.jsx:589-590 | the step lies in [STEP_MIN, STEP_MAX]; full speed gives STEP_MIN and rest gives STEP_MAX |
| Scheduler.StepShrinksWithSpeed | src/App.jsx:589-590 | a faster tape never gets a larger step between grains |
| Scheduler.PlaybackRate | src/App.jsx:607-613 | with sines in [-1, 1] and a random draw in [0, 1) the rate is within wow + flutter + 0.0008 of 1, and positive |
| Scheduler.GrainOffset | src/App.jsx:595-602 | the offset lies in [0, max(0, buffer duration - GRAIN_SIZE)], so the grain fits in a buffer at least a grain long; in range it is the playhead (forward) or the mirrored position (rewind) |
| Scheduler.Envelope | src/App.jsx:621-630 | four breakpoints: 0 at the start, PEAK after the attack, PEAK until the release, 0 at start + GRAIN_SIZE; attack and release last ATTACK and RELEASE and the times never go back |
| Scheduler.MakeGrain | src/App.jsx:595-632 | a grain starts at the cursor, lasts GRAIN_SIZE, reads the forward buffer exactly when the speed is positive, reads at GrainOffset of that buffer (the playhead forward, the mirrored position in rewind, clamped), carries the envelope 0 → PEAK → PEAK → 0 from its start, and plays at PlaybackRate |
| Scheduler.StartCursor | src/App.jsx:592 | the loop starts at the later of the stored cursor and the clock |
| Scheduler.Cursor | src/App.jsx:641 | stepping a positive step never goes back, and moves forward after at least one step |
| Scheduler.CursorIsLinear | src/App.jsx:641 | n steps from t0 land at t0 + n·step |
| Scheduler.CursorMonotone | src/App.jsx:641 | more steps give a strictly later cursor |
| Scheduler.Train | src/App.jsx:594-642 | the first n grains of a pass, one per cursor position; TrainAt gives each grain |
| Scheduler.TrainAt | src/App.jsx:594-642 | grain i of a pass is the grain made at the cursor after i steps |
| Scheduler.IsPass | src/App.jsx:587-642 | what one pass produces: nothing inside the deadzone; otherwise the train of grains from the caught-up cursor whose last grain starts before now + LOOKAHEAD, and a cursor one step past it; PassTiming, PassGrainsWellFormed and DeadzoneIsSilent state its consequences |
| Scheduler.PassTiming | src/App.jsx:592-642 | a pass never moves the cursor back and leaves it at or past now + LOOKAHEAD; every grain starts in [now, now + LOOKAHEAD); consecutive grains are exactly one step apart; starts strictly increase |
| Scheduler.PassGrainsWellFormed | src/App.jsx:595-632 | every grain of a pass is well formed, plays the buffer of the tape's direction, reads at GrainOffset of that buffer (the playhead forward, the mirrored position in rewind) and carries the envelope 0 → PEAK → PEAK → 0 from its own start |
| Scheduler.DeadzoneIsSilent | src/App.jsx:587 | inside the deadzone a pass schedules nothing and leaves the cursor |
| Scheduler.DesktopPassAtSpeed002 | src/App.jsx:587-642 | on a desktop at speed 0.02 with the cursor behind the clock a pass schedules six forward grains at offset 0, 0.18/7 s apart from now |
| ClickTrace.ClicksAreReversals | src/App.jsx:566-568 | over any run of ticks the clicks are exactly the changes in the sequence of non-zero directions, the remembered one included |
| ClickTrace.HeldDirectionIsSilent | src/App.jsx:566-568 | holding one direction, with pauses in the deadzone, never clicks |
| ClickTrace.ReversalClicksOnce | src/App.jsx:566-568 | one reversal after a held run clicks exactly once, however many ticks follow |
| ClickTrace.RememberedHeld | src/App.jsx:568 | a run of one direction and pauses leaves that direction remembered |
| ClickTrace.ClicksFromPrefix | src/App.jsx:566-568 | clicks over two runs add up, the second starting from what the first left remembered |
| TapeEngine.Engine.constructor | src/App.jsx:24-57 | every ref starts at zero, nothing is loaded and the knob is not captured |
| TapeEngine.Engine.AttachClip | src/App.jsx:316-321 | the first initialisation sets ready, the duration and the cursor to the clock; a later call changes nothing |
| TapeEngine.Engine.PointerDown | src/App.jsx:385-389 | with audio ready the angle is remembered, the knob captured and the cursor reset to the clock |
| TapeEngine.Engine.PointerMove | src/App.jsx:392-405 | while captured the velocity becomes DragVelocity of the normalized turn, and the angle and knob rotation follow; otherwise nothing changes |
| TapeEngine.Engine.PointerUp | src/App.jsx:407-411 | the capture is released |
| TapeEngine.Engine.Tick | src/App.jsx:648-670 | with a loaded clip the motion becomes Advance of the old motion and the scheduler pass follows; otherwise nothing changes; the engine invariant (playhead in range, speeds bounded) is kept |
| TapeEngine.Engine.ScheduleGrains | src/App.jsx:556-643 | when ready: click on a reversal, remember the non-zero direction, choose the ambient targets and make a pass (IsPass) from the stored cursor; when not ready nothing changes |
| TapeEngine.Engine.Pass | src/App.jsx:587-642 | the grains and the new cursor form a pass (IsPass) from the stored cursor at the tape speed |
| TapeEngine.Engine.FillLookahead | src/App.jsx:594-642 | the loop emits the train of grains from the cursor, the last before the horizon, and leaves the cursor one step past it, at or beyond the horizon |
| AudioBuffers.ReversedAt | src/App.jsx:861-863 | element i of the reversal is element len - 1 - i of the original |
| AudioBuffers.ReversedIff | src/App.jsx:861-863 | a sequence is the reversal exactly when it mirrors the original index by index |
| AudioBuffers.ReversedTwice | src/App.jsx:856-866 | reversing twice gives back the original samples |
| AudioBuffers.AudioBuffer.constructor | src/App.jsx:857 | a new buffer has the requested channel count, length and rate, with separate silent channels |
| AudioBuffers.ReverseBuffer | src/App.jsx:856-866 | the result has the same channel count, length and rate, and every channel is the reversal of the source channel: dst[i] = src[len - 1 - i] |
| Graph.BandStart | src/App.jsx:529 | the band starts inside the data |
| Graph.BandEnd | src/App.jsx:530 | the band ends inside the data, not before its start |
| Graph.BandSpan | src/App.jsx:531 | the band is at least one bin wide, and spans start to end when that is not empty |
| Graph.BarOffset | src/App.jsx:534 | bar i lands in [0, span) bins past the band start, bar 0 at the start |
| Graph.BarIndex | src/App.jsx:529-534 | every bar reads a bin inside the band and inside the data; the first bar reads the band start |
| Graph.BarIndexMonotone | src/App.jsx:529-534 | bars further right read bins no further left, and different bins when the band has at least as many bins as bars |
| Graph.AnalyserBars | src/App.jsx:529-534 | with 512 bins the band is bins 20-178 and the 40 bars read 40 different bins, from 20 to 175 |
| Graph.Intensity | src/App.jsx:519 | the intensity is in [0, 1], 1 at full speed, 0 at rest |
| Graph.BarLevel | src/App.jsx:535 | a bar height is in [0, 1], 0 for a silent bin, and 1 for a full bin at full speed |
| Graph.BarLevelMonotone | src/App.jsx:535 | a louder bin never gives a lower bar |
| Graph.BarValues | src/App.jsx:524-537 | forty heights in [0, 1]: all 0 without analyser data, otherwise bar i is the level of the bin it reads |
| Clock.Digits | src/App.jsx:806 | decimal digits, one for n < 10 and two for 10 <= n < 100 |
| Clock.IntToString | src/App.jsx:806 | a non-negative n gives decimal digits that read back as n; a negative n gives a minus sign followed by digits that read back as -n |
| Clock.PadStart | src/App.jsx:806 | the string ends with s and is preceded by pad characters up to the width; a long enough s is unchanged |
| Clock.Format | src/App.jsx:802-807 | a non-negative time gives digits, a colon and exactly two digits; a negative time starts with a minus sign; FormatRoundTrip gives the value the label carries |
| Clock.JsRem60 | src/App.jsx:805 | the remainder has the sign of the dividend, is smaller than 60 in magnitude, and differs from it by a multiple of 60 |
| Clock.DigitsRoundTrip | src/App.jsx:806 | reading the digits of n back gives n |
| Clock.PaddedValue | src/App.jsx:806 | padding one or two digits to two keeps their value |
| Clock.FormatRoundTrip | src/App.jsx:802-807 | the label of a non-negative time reads back as its whole seconds |
| Clock.FormatSameSecond | src/App.jsx:802-807 | two non-negative times get the same label exactly when they fall in the same second |
| Clock.FormatMinutesAndSeconds | src/App.jsx:802-807 | 95 s reads 1:35 |
| Clock.FormatRoundsDown | src/App.jsx:802-807 | 59.99 s reads 0:59 |
| Clock.FormatPadsSeconds | src/App.jsx:802-807 | 7 s reads 0:07 |
| Clock.FormatNegative | src/App.jsx:802-807 | -1 s reads -1:-1, because of floor division and the sign-keeping remainder |

## Left out

- The Web Audio graph (`ensureAudio`, `playClick`, and the source, gain and `onended` plumbing in `scheduleGrains`) is foreign API. A grain is a record and a click is a boolean.
- The ramps of `setTargetAtTime` and `linearRampToValueAtTime` are not modelled. Only the chosen targets, time constants and breakpoints are.
- `Math.sin` and `Math.random` in the playback rate are inputs. `Tick` takes a fresh `wobble` on every call, a function from a grain's start time to its sine values and random draw. Within one pass the starts strictly increase, so every grain gets its own draw. The frequencies `WOW_HZ` and `FLUTTER_HZ` are kept only as constants, since the sines arrive as inputs.
- IEEE-754 rounding is not modelled. Times, speeds and samples are exact reals, including the Float32 samples of an AudioBuffer.
- The pointer angle from `atan2` (`getAngle`) is an input.
- The user-agent test behind the phone flag is an input.
- The saturation curve (`makeSoftSatCurve`) and the noise sources (`makeNoise`) are left out, as floating-point signal generation.
- Canvas drawing, the photo strip, React state and hooks, `setTime`, and the `requestAnimationFrame`/`performance.now` throttling are left out. `Tick` takes the clock as a parameter.
- `fetch`/`decodeAudioData` are external I/O. `AttachClip` takes the decoded duration, and the forward and reversed buffers have that same duration.
- The null checks on the context, tone input and buffers at the head of `scheduleGrains` are folded into the `ready` flag, since initialisation sets them all together.
- `onPointerDown` first awaits audio initialisation. The model is the state after it resolves. When initialisation failed, the handler stops, which `PointerDown` models as no change while not ready.
- `format` treats `NaN` and `undefined` as 0. Reals have neither.
- AudioBuffers.ReverseBuffer: does not state that the returned buffer is newly allocated. The method modifies nothing, so the source buffer is unchanged.
- Graph.BarValues: requires a non-empty analyser array. The analyser is created with `fftSize` 1024 and always yields 512 bins.
- Scheduler.GrainOffset: the grain fits in its buffer only when the buffer is at least GRAIN_SIZE long. For shorter buffers the code clamps the offset to 0 and the grain runs past the end.
