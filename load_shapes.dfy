/**
 * Locust load shapes: each `tick` maps the seconds elapsed since the test
 * started to the user count Locust should reach and the rate at which it
 * spawns them, or to `None`, which ends the test.
 *
 * The classes of `locust_file/load_shapes.py` and the `CustomLoadShape`
 * classes of the five files under `locust_file/loadshapes/` carry the same constants and the
 * same branches, shape by shape, and the `CustomLoadShape` of
 * `locust_file/SoyMonoShorterIfLogin_x1.py` is the cyclical shape again, so
 * each shape is defined once here.  Python's `int()` is `PyNum.Int`
 * (truncation toward zero) and `%` is `PyNum.FloatMod`.
 */
module LoadShapes {
  import opened Wrappers
  import opened PyNum

  /** The pair a tick returns: target users and spawn rate (users per second). */
  datatype Target = Target(users: int, spawnRate: real)

  // ---------------------------------------------------------------- cyclical

  const CycMaxUsers: int := 100
  const CycRamp: real := 60.0
  const CycConstant: real := 60.0
  const CycPause: real := 240.0
  const CycCycle: real := CycRamp + CycConstant + CycPause
  const CycMaxDuration: real := CycCycle * 4.0

  /** Position of `runTime` inside the current cycle. */
  function CycleTime(runTime: real): (ct: real)
    ensures 0.0 <= ct < 360.0
  {
    FloatMod(runTime, CycCycle)
  }

  /**
   * Ramp up for 60 s, hold 100 users for 60 s, idle at one user for 240 s;
   * four cycles, then stop.
   */
  function CyclicalTick(runTime: real): (r: Option<Target>)
    ensures r.None? <==> runTime > 1440.0
    ensures r.Some? ==> 0 <= r.value.users <= 100
  {
    if runTime > CycMaxDuration then None
    else
      var ct := CycleTime(runTime);
      if ct < CycRamp then
        Some(Target(RampUsers(ct), CycMaxUsers as real / CycRamp))
      else if ct < CycRamp + CycConstant then
        Some(Target(CycMaxUsers, 1.0))
      else
        Some(Target(1, 1.0))
  }

  /** Users during the ramp phase, `int(ct / 60 * 100)`. */
  function RampUsers(ct: real): (u: int)
    requires 0.0 <= ct < CycRamp
    ensures 0 <= u <= 99
    ensures u as real <= ct / 60.0 * 100.0 < u as real + 1.0
  {
    Int(ct / CycRamp * CycMaxUsers as real)
  }

  /** The three phases of a cycle, read off the position in the cycle. */
  lemma CyclicalPhases(runTime: real)
    requires runTime <= 1440.0
    ensures var ct := CycleTime(runTime);
      && (ct < 60.0 ==> CyclicalTick(runTime) == Some(Target((ct / 60.0 * 100.0).Floor, 100.0 / 60.0)))
      && (60.0 <= ct < 120.0 ==> CyclicalTick(runTime) == Some(Target(100, 1.0)))
      && (120.0 <= ct ==> CyclicalTick(runTime) == Some(Target(1, 1.0)))
  {
  }

  /**
   * The schedule repeats every 360 s: the pause phase keeps one user rather
   * than none, so nothing distinguishes one cycle from the next.
   */
  lemma CyclicalPeriodic(runTime: real)
    requires runTime + 360.0 <= 1440.0
    ensures CyclicalTick(runTime + 360.0) == CyclicalTick(runTime)
  {
    FloatModShift(runTime, CycCycle);
  }

  // -------------------------------------------------------------------- step

  const StepDuration: real := 60.0
  const StepUsers: int := 20
  const StepMaxUsers: int := 100
  const StepsUp: int := 5
  const StepsDown: int := 5
  const StepTotalDuration: real := (StepsUp + StepsDown) as real * StepDuration

  /** Which 60-second step `runTime` falls in. */
  function CurrentStep(runTime: real): (k: int)
    ensures 0.0 <= runTime ==> 0 <= k && k as real * StepDuration <= runTime < (k + 1) as real * StepDuration
  {
    Int(runTime / StepDuration)
  }

  /** Users for a step: 20 more per step up to 100, then 20 fewer per step, never below 1. */
  function StepLevel(k: int): (u: int)
    ensures 0 <= k ==> 1 <= u <= 100
  {
    if k < StepsUp then Min(StepMaxUsers, (k + 1) * StepUsers)
    else Max(1, StepMaxUsers - (k - StepsUp) * StepUsers)
  }

  /** Five steps up and five steps down of 60 s each, then stop. */
  function StepTick(runTime: real): (r: Option<Target>)
    ensures r.None? <==> runTime > 600.0
    ensures r.Some? ==> r.value.spawnRate == 20.0
    ensures r.Some? && 0.0 <= runTime ==> 1 <= r.value.users <= 100
  {
    if runTime > StepTotalDuration then None
    else Some(Target(StepLevel(CurrentStep(runTime)), StepUsers as real))
  }

  /** The two phases of the step shape, by step number `k = int(runTime / 60)`. */
  lemma StepPhases(runTime: real)
    requires 0.0 <= runTime <= 600.0
    ensures var k := (runTime / 60.0).Floor;
      && (k < 5 ==> StepTick(runTime) == Some(Target(Min(100, 20 * (k + 1)), 20.0)))
      && (5 <= k ==> StepTick(runTime) == Some(Target(Max(1, 100 - 20 * (k - 5)), 20.0)))
  {
  }

  /** Users never decrease during the first five minutes. */
  lemma StepRising(r1: real, r2: real)
    requires 0.0 <= r1 <= r2 < 300.0
    ensures StepTick(r1).value.users <= StepTick(r2).value.users
  {
    FloorMonotone(r1 / 60.0, r2 / 60.0);
  }

  /** Users never increase from the fifth minute to the end. */
  lemma StepFalling(r1: real, r2: real)
    requires 300.0 <= r1 <= r2 <= 600.0
    ensures StepTick(r1).value.users >= StepTick(r2).value.users
  {
    FloorMonotone(r1 / 60.0, r2 / 60.0);
  }

  /** The last tick before the test stops still asks for one user. */
  lemma StepLastTick()
    ensures StepTick(600.0) == Some(Target(1, 20.0))
  {
    assert CurrentStep(600.0) == 10;
  }

  // ---------------------------------------------------------------- constant

  const ConstUsers: int := 50
  const ConstDuration: real := 300.0

  /** 50 users, spawned at 10 per second, for 300 s. */
  function ConstantTick(runTime: real): (r: Option<Target>)
    ensures r.None? <==> runTime > 300.0
    ensures r.Some? ==> r.value == Target(50, 10.0)
  {
    if runTime > ConstDuration then None else Some(Target(ConstUsers, 10.0))
  }

  // ------------------------------------------------------------------ ramp-up

  const RampUpMaxUsers: int := 100
  const RampUpDuration: real := 300.0

  /** A straight ramp from 0 to 100 users over 300 s, then stop. */
  function RampUpTick(runTime: real): (r: Option<Target>)
    ensures r.None? <==> runTime > 300.0
    ensures r.Some? ==> r.value.spawnRate == 100.0 / 300.0
    ensures r.Some? && 0.0 <= runTime ==> 0 <= r.value.users <= 100
  {
    if runTime > RampUpDuration then None
    else
      Some(Target(Int(runTime / RampUpDuration * RampUpMaxUsers as real),
                  RampUpMaxUsers as real / RampUpDuration))
  }

  /** The ramp is monotone: a later tick never asks for fewer users. */
  lemma RampUpMonotone(r1: real, r2: real)
    requires 0.0 <= r1 <= r2 <= 300.0
    ensures RampUpTick(r1).value.users <= RampUpTick(r2).value.users
  {
    FloorMonotone(r1 / 300.0 * 100.0, r2 / 300.0 * 100.0);
  }

  /** Inside the window the ramp is `floor(runTime / 300 * 100)` users at 100/300 per second. */
  lemma RampUpFormula(runTime: real)
    requires 0.0 <= runTime <= 300.0
    ensures RampUpTick(runTime) == Some(Target((runTime / 300.0 * 100.0).Floor, 100.0 / 300.0))
  {
  }

  /** Unlike the peak shape there is no floor of one user: the ramp starts at zero. */
  lemma RampUpStartsEmpty()
    ensures RampUpTick(0.0) == Some(Target(0, 100.0 / 300.0))
    ensures RampUpTick(300.0) == Some(Target(100, 100.0 / 300.0))
  {
  }

  // -------------------------------------------------------------------- peak

  const PeakMaxUsers: int := 100
  const PeakRampUp: real := 120.0
  const PeakHold: real := 60.0
  const PeakRampDown: real := 120.0
  const PeakTotalDuration: real := PeakRampUp + PeakHold + PeakRampDown

  /** Ramp up over 120 s, hold 100 users for 60 s, ramp down over 120 s; at least one user throughout. */
  function PeakTick(runTime: real): (r: Option<Target>)
    ensures r.None? <==> runTime > 300.0
    ensures r.Some? ==> 1 <= r.value.users
    ensures r.Some? && 0.0 <= runTime ==> r.value.users <= 100
  {
    if runTime > PeakTotalDuration then None
    else if runTime < PeakRampUp then
      Some(Target(Max(1, Int(runTime / PeakRampUp * PeakMaxUsers as real)),
                  PeakMaxUsers as real / PeakRampUp))
    else if runTime < PeakRampUp + PeakHold then
      Some(Target(Max(1, PeakMaxUsers), 1.0))
    else
      var rampDownTime := runTime - PeakRampUp - PeakHold;
      Some(Target(Max(1, Int(PeakMaxUsers as real * (1.0 - rampDownTime / PeakRampDown))),
                  PeakMaxUsers as real / PeakRampDown))
  }

  /**
   * The two ramps of the peak shape: `max(1, floor(runTime / 120 * 100))`
   * users on the way up, `max(1, floor(100 * (1 - (runTime - 180) / 120)))`
   * on the way down, each spawned at 100/120 per second.
   */
  lemma PeakRamps(runTime: real)
    requires 0.0 <= runTime <= 300.0
    ensures runTime < 120.0 ==>
      PeakTick(runTime) == Some(Target(Max(1, (runTime / 120.0 * 100.0).Floor), 100.0 / 120.0))
    ensures 180.0 <= runTime ==>
      PeakTick(runTime) == Some(Target(Max(1, (100.0 * (1.0 - (runTime - 180.0) / 120.0)).Floor), 100.0 / 120.0))
  {
  }

  /** The hold phase asks for the full 100 users at one spawn per second. */
  lemma PeakHoldPhase(runTime: real)
    requires 120.0 <= runTime < 180.0
    ensures PeakTick(runTime) == Some(Target(100, 1.0))
  {
  }

  /** Users never decrease while ramping up to the peak. */
  lemma PeakRising(r1: real, r2: real)
    requires 0.0 <= r1 <= r2 < 180.0
    ensures PeakTick(r1).value.users <= PeakTick(r2).value.users
  {
    if r2 < 120.0 {
      FloorMonotone(r1 / 120.0 * 100.0, r2 / 120.0 * 100.0);
    }
  }

  /** Users never increase from the peak to the end of the test. */
  lemma PeakFalling(r1: real, r2: real)
    requires 120.0 <= r1 <= r2 <= 300.0
    ensures PeakTick(r1).value.users >= PeakTick(r2).value.users
  {
    if 180.0 <= r1 {
      FloorMonotone(100.0 * (1.0 - (r2 - 180.0) / 120.0), 100.0 * (1.0 - (r1 - 180.0) / 120.0));
    }
  }

  // ------------------------------------------------------------ shape lookup

  /** The five entries of the `shape_classes` dictionary. */
  datatype Shape = Cyclical | Step | Constant | RampUp | Peak

  /** The dictionary key of each shape. */
  function ShapeName(s: Shape): string
  {
    match s
    case Cyclical => "cyclical"
    case Step => "step"
    case Constant => "constant"
    case RampUp => "rampup"
    case Peak => "peak"
  }

  /** `get_shape_class`: the shape registered under `name`, or the `ValueError` it raises. */
  function GetShapeClass(name: string): (r: Result<Shape, string>)
    ensures r.Ok? <==> name in {"cyclical", "step", "constant", "rampup", "peak"}
    ensures r.Ok? ==> ShapeName(r.value) == name
    ensures r.Err? ==> r.error == name
  {
    if name == "cyclical" then Ok(Cyclical)
    else if name == "step" then Ok(Step)
    else if name == "constant" then Ok(Constant)
    else if name == "rampup" then Ok(RampUp)
    else if name == "peak" then Ok(Peak)
    else Err(name)
  }

  /** Every shape is found again under its own name. */
  lemma ShapeNameRoundTrip(s: Shape)
    ensures GetShapeClass(ShapeName(s)) == Ok(s)
  {
  }

  /** The `tick` of the class a shape names. */
  function TickOf(s: Shape, runTime: real): Option<Target>
  {
    match s
    case Cyclical => CyclicalTick(runTime)
    case Step => StepTick(runTime)
    case Constant => ConstantTick(runTime)
    case RampUp => RampUpTick(runTime)
    case Peak => PeakTick(runTime)
  }

  /** Every registered shape ends the test once 1440 s have passed. */
  lemma EveryShapeStops(s: Shape, runTime: real)
    requires runTime > 1440.0
    ensures TickOf(s, runTime).None?
  {
  }
}
