/** The tuning constants of src/App.jsx (lines 64-80 and the literals inside
    the tick and the scheduler). The few that differ on a phone are functions
    of a `mobile` flag, which the source derives from the user agent. */
module TapeConfig {

  // Motion integrator
  const DRAG_SENSITIVITY := 0.00038
  const MAX_V := 0.028
  const FRICTION := 0.935
  const DEADZONE := 0.00006
  const SPEED_SMOOTHING := 0.16

  /** Within this distance of either end of the clip the tape is damped. */
  const EDGE := 0.0005
  const EDGE_VELOCITY_DAMPING := 0.6
  const EDGE_SPEED_DAMPING := 0.75

  // Granular scrub
  const GRAIN_SIZE := 0.06
  const STEP_MAX := 0.05

  function Lookahead(mobile: bool): real { if mobile then 0.08 else 0.14 }

  function StepMin(mobile: bool): real { if mobile then 0.024 else 0.016 }

  // Grain envelope
  const ATTACK := 0.012
  const RELEASE := 0.022
  const PEAK := 0.78

  // Wow and flutter
  const WOW_HZ := 0.38
  const FLUTTER_HZ := 5.2
  const DRIFT_SPAN := 0.0016

  function WowDepth(mobile: bool): real { if mobile then 0.0012 else 0.0022 }

  function FlutterDepth(mobile: bool): real { if mobile then 0.0006 else 0.0010 }

  // Ambient layers: hiss targets and time constants, squeal ceiling
  const HISS_FORWARD := 0.028
  const HISS_REVERSE := 0.016
  const HISS_IDLE := 0.010
  const HISS_ACTIVE_TAU := 0.05
  const HISS_IDLE_TAU := 0.08
  const SQUEAL_MAX := 0.20
  const SQUEAL_ON_TAU := 0.03
  const SQUEAL_OFF_TAU := 0.04
}
