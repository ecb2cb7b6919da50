/** The force-balance model and its single Euler step. Every quantity is a
    real number: the service computes in IEEE doubles, whose rounding is not
    modelled. */
module Physics {
  import opened Settings
  import opened Arith

  /** Tractive force at the wheel, in newtons: proportional to the setpoint,
      so it pushes forwards exactly for a positive setpoint. */
  function TractiveForce(setpoint: real): (f: real)
    ensures f > 0.0 <==> setpoint > 0.0
    ensures f == 0.0 <==> setpoint == 0.0
  {
    setpoint * SetpointScaler
  }

  /** Rolling resistance, in newtons: constant while the vehicle moves and
      forced to zero at standstill, so that it cannot push a stopped vehicle
      backwards. It does not depend on the direction of travel. */
  function RollingResistance(velocity: real): (f: real)
    ensures f >= 0.0
    ensures f == 0.0 <==> velocity == 0.0
  {
    if velocity == 0.0 then 0.0 else Mass * Gravity * Crr
  }

  /** Aerodynamic drag, in newtons: half of frontal area times drag
      coefficient times air density times the square of velocity. */
  function AeroDrag(velocity: real): (f: real)
    ensures f >= 0.0
  {
    0.5 * FrontalArea * Cd * AirDensity * Square(velocity)
  }

  /** Drag vanishes only at standstill and is the same in both directions of
      travel. */
  lemma DragEvenZeroOnlyAtRest(velocity: real)
    ensures AeroDrag(velocity) == 0.0 <==> velocity == 0.0
    ensures AeroDrag(-velocity) == AeroDrag(velocity)
  {
    SquarePositive(velocity);
  }

  /** Net force along the direction of travel: the tractive force less the
      resistances, which never help and take something whenever the vehicle
      moves. */
  function NetForce(setpoint: real, velocity: real): (f: real)
    ensures f <= TractiveForce(setpoint)
    ensures f == TractiveForce(setpoint) <==> velocity == 0.0
  {
    TractiveForce(setpoint) - (RollingResistance(velocity) + AeroDrag(velocity))
  }

  /** The velocity after one tick: acceleration `NetForce / Mass` applied for
      `1 / MarkerHertz` seconds. The result is not clamped. It never exceeds
      what the tractive force alone would give, and equals it exactly at
      standstill. */
  function NewVelocity(setpoint: real, velocity: real): (v: real)
    ensures v <= velocity + setpoint * (29.0 / 310.0)
    ensures v == velocity + setpoint * (29.0 / 310.0) <==> velocity == 0.0
  {
    var acceleration := NetForce(setpoint, velocity) / Mass;
    velocity + acceleration * (1.0 / MarkerHertz as real)
  }

  /** Velocity after `n` ticks at a constant setpoint. */
  function Iterate(setpoint: real, velocity: real, n: nat): real
    decreases n
  {
    if n == 0 then velocity else Iterate(setpoint, NewVelocity(setpoint, velocity), n - 1)
  }

  /** The last of `n + 1` ticks is one step from the velocity after `n`. */
  lemma {:induction false} IterateLast(setpoint: real, velocity: real, n: nat)
    decreases n
    ensures Iterate(setpoint, velocity, n + 1) == NewVelocity(setpoint, Iterate(setpoint, velocity, n))
  {
    if n > 0 {
      IterateLast(setpoint, NewVelocity(setpoint, velocity), n - 1);
    }
  }

  /** The step with every constant multiplied out: tractive term 29/310 per
      unit of setpoint, a rolling-resistance term of 0.00098 while moving and
      a drag term quadratic in velocity. */
  lemma ClosedForm(setpoint: real, velocity: real)
    ensures NewVelocity(setpoint, velocity)
         == velocity + setpoint * (29.0 / 310.0)
            - (if velocity == 0.0 then 0.0 else 0.00098)
            - 0.065212875 / 3100.0 * velocity * velocity
  {
  }

  /** A stationary vehicle with zero setpoint stays stationary. */
  lemma RestStaysAtRest()
    ensures RollingResistance(0.0) == 0.0
    ensures NewVelocity(0.0, 0.0) == 0.0
  {
    DragEvenZeroOnlyAtRest(0.0);
  }

  /** From standstill only the tractive force acts. */
  lemma FirstStepFromRest(setpoint: real)
    ensures NewVelocity(setpoint, 0.0) == setpoint * SetpointScaler / Mass / MarkerHertz as real
    ensures NewVelocity(0.5, 0.0) == 29.0 / 620.0
  {
  }

  /** For a fixed velocity the step is affine in the setpoint with slope
      29/310, hence strictly increasing in it. */
  lemma SetpointSensitivity(setpoint1: real, setpoint2: real, velocity: real)
    ensures NewVelocity(setpoint2, velocity) - NewVelocity(setpoint1, velocity)
         == (setpoint2 - setpoint1) * (29.0 / 310.0)
    ensures setpoint1 < setpoint2 ==> NewVelocity(setpoint1, velocity) < NewVelocity(setpoint2, velocity)
  {
  }

  /** Without tractive force any moving vehicle loses forward velocity; since
      resistance and drag ignore the direction of travel, a vehicle already
      rolling backwards speeds up backwards. */
  lemma CoastingLosesVelocity(velocity: real)
    requires velocity != 0.0
    ensures NewVelocity(0.0, velocity) < velocity
  {
    DragEvenZeroOnlyAtRest(velocity);
  }

  /** Nothing clamps the result: a negative setpoint drives velocity below zero. */
  lemma VelocityCanBeNegative()
    ensures NewVelocity(-1.0, 0.0) < 0.0
  {
  }

  /** Under full setpoint, at speeds up to 60 m/s the tractive force beats
      resistance and drag, and one tick adds less than 0.1 m/s. */
  lemma FullSetpointStep(velocity: real)
    requires 0.0 <= velocity <= 60.0
    ensures velocity < NewVelocity(1.0, velocity) <= velocity + 0.1
  {
    assert Square(velocity) <= 3600.0 by { SquareBound(velocity, 60.0); }
  }

  /** Starting from rest under full setpoint, velocity rises strictly on each
      of the first 600 ticks and stays within 0.1 m/s per tick. */
  lemma {:induction false} AcceleratesFromRest(n: nat)
    requires n <= 600
    ensures 0.0 <= Iterate(1.0, 0.0, n) <= n as real / 10.0
    ensures Iterate(1.0, 0.0, n) < Iterate(1.0, 0.0, n + 1)
  {
    if n > 0 {
      AcceleratesFromRest(n - 1);
      IterateLast(1.0, 0.0, n - 1);
    }
    IterateLast(1.0, 0.0, n);
    FullSetpointStep(Iterate(1.0, 0.0, n));
  }
}
