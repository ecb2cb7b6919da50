/** What one packet does to the simulator state, and what a run of packets does. */
module SimulatorProperties {
  import opened Settings
  import opened JavaArith
  import opened RateScheduler
  import opened CruiseSimulator
  import Arith
  import Physics
  import Perturbation

  /** Only a setpoint packet moves the setpoint; velocity is the physics step
      (setpoint packets only), perturbed when the variation gate fired. */
  lemma SetpointAndVelocityUpdate(s: State, p: Packet, draw: int)
    requires -100 <= draw <= 100
    ensures var o := Step(s, p, draw);
      var stepped := if p.id == SetpointId then Physics.NewVelocity(p.segTwoFloat, s.velocity) else s.velocity;
      && o.state.setpoint == (if p.id == SetpointId then p.segTwoFloat else s.setpoint)
      && o.state.velocity
         == if o.result.Success? && o.result.value.perturbed
            then Perturbation.Perturb(stepped, s.variationPercent, draw)
            else stepped
  {
  }

  /** The variation gate is evaluated on every packet, with the clock after
      the setpoint branch: it fires on the multiples of `10 / |variationHertz|`. */
  lemma PerturbationSchedule(s: State, p: Packet, draw: int)
    requires -100 <= draw <= 100
    ensures var o := Step(s, p, draw);
      o.result.Success? ==>
        (o.result.value.perturbed
         <==> s.variationHertz != 0 && o.state.clock % (MarkerHertz / Abs(s.variationHertz)) == 0)
  {
  }

  /** Telemetry goes out on even clocks and carries the velocity as it stands
      after any perturbation of the same packet. */
  lemma TelemetrySchedule(s: State, p: Packet, draw: int)
    requires -100 <= draw <= 100
    ensures var o := Step(s, p, draw);
      o.result.Success? ==>
        && (o.result.value.telemetry.Some? <==> o.state.clock % 2 == 0)
        && (o.result.value.telemetry.Some? ==>
              o.result.value.telemetry.value
              == Telemetry(TelemetryId, o.state.velocity, o.state.velocity * 3.6))
  {
    HalfRateFiresOnEvenTicks(Step(s, p, draw).state.clock);
  }

  /** With the log rate equal to the base rate, every packet that completes
      logs a line. The line shows the setpoint and perturbed velocity of this
      packet but the diagnostic values from before it, because diagnostics are
      stored after the gates. */
  lemma LogEveryPacket(s: State, p: Packet, draw: int)
    requires -100 <= draw <= 100
    ensures var o := Step(s, p, draw);
      o.result.Success? ==>
        && o.result.value.log.Some?
        && o.result.value.log.value.setpoint == o.state.setpoint
        && o.result.value.log.value.velocity == o.state.velocity
        && o.result.value.log.value.cruiseTargetRpm == s.debug.cruiseTargetRpm
        && o.result.value.log.value.proportionalFactor == s.debug.proportionalFactor
        && o.result.value.log.value.integralFactor == s.debug.integralFactor
        && o.result.value.log.value.combinedError == s.debug.combinedError
        && o.result.value.log.value.cruiseStatus == s.debug.cruiseStatus
  {
    FullRateFiresEveryTick(MarkerHertz, Step(s, p, draw).state.clock);
  }

  /** A packet with an unrecognised id stores nothing; only a perturbation
      fired by the gates can change the velocity. */
  lemma UnrecognisedPacket(s: State, p: Packet, draw: int)
    requires -100 <= draw <= 100
    requires p.id != SetpointId && p.id != CruiseDebugId && p.id != CruiseStatusId
    ensures var o := Step(s, p, draw);
      && o.state == s.(velocity := o.state.velocity)
      && (o.result.Failure? || !o.result.value.perturbed ==> o.state == s)
  {
  }

  /** 0x507 stores the proportional factor from segment two and the integral
      factor from segment one, and no other diagnostic. */
  lemma CruiseDebugPacket(s: State, p: Packet, draw: int)
    requires -100 <= draw <= 100 && p.id == CruiseDebugId
    ensures var o := Step(s, p, draw);
      && o.state.setpoint == s.setpoint
      && o.state.clock == s.clock
      && o.state.debug
         == if o.result.Success?
            then s.debug.(proportionalFactor := p.segTwoInt as real, integralFactor := p.segOneInt as real)
            else s.debug
  {
  }

  /** 0x508 stores the combined error, target RPM and status, and no other diagnostic. */
  lemma CruiseStatusPacket(s: State, p: Packet, draw: int)
    requires -100 <= draw <= 100 && p.id == CruiseStatusId
    ensures var o := Step(s, p, draw);
      && o.state.setpoint == s.setpoint
      && o.state.clock == s.clock
      && o.state.debug
         == if o.result.Success?
            then s.debug.(combinedError := p.segOneInt as real,
                          cruiseTargetRpm := p.segTwoShort as real,
                          cruiseStatus := p.segTwoByteSeven as real)
            else s.debug
  {
  }

  /** Repeating a diagnostic packet leaves the stored diagnostics as they were. */
  lemma DiagnosticIdempotent(s: State, p: Packet, draw1: int, draw2: int)
    requires -100 <= draw1 <= 100 && -100 <= draw2 <= 100
    requires p.id == CruiseDebugId || p.id == CruiseStatusId
    ensures var once := Step(s, p, draw1).state;
      Step(once, p, draw2).state.debug == once.debug
  {
    var once := Step(s, p, draw1).state;
    if p.id == CruiseDebugId {
      CruiseDebugPacket(s, p, draw1);
      CruiseDebugPacket(once, p, draw2);
    } else {
      CruiseStatusPacket(s, p, draw1);
      CruiseStatusPacket(once, p, draw2);
    }
  }

  /** Because the gates run on every packet, a diagnostic packet arriving on
      an even clock perturbs the velocity once more. */
  lemma DiagnosticPacketPerturbs(s: State, p: Packet, draw: int)
    requires p.id == CruiseDebugId && s.clock % 2 == 0
    requires s.variationHertz == 5 && s.variationPercent > 0.0
    requires s.velocity > 0.0 && 0 < draw <= 100
    ensures Step(s, p, draw).state.velocity > s.velocity
  {
    HalfRateFiresOnEvenTicks(s.clock);
    var f := draw as real / 100.0;
    assert s.variationPercent * f > 0.0;
    calc {
      Step(s, p, draw).state.velocity - s.velocity;
    ==
      s.velocity * (s.variationPercent * f);
    > { Arith.PositiveProduct(s.velocity, s.variationPercent * f); }
      0.0;
    }
  }

  /** A variation rate faster than the base rate aborts every packet: the
      setpoint branch has already run, nothing is perturbed, emitted or stored. */
  lemma OverfastVariationAborts(s: State, p: Packet, draw: int)
    requires -100 <= draw <= 100 && Abs(s.variationHertz) > MarkerHertz
    ensures var o := Step(s, p, draw);
      && o.result == Failure(DivideByZero)
      && o.state == Tick(s, p)
  {
  }

  /** Feeds a stream of packets, each with its own draw; a packet that faults
      leaves its partial state for the next one. */
  function Replay(s: State, packets: seq<Packet>, draws: seq<int>): (t: State)
    requires |draws| == |packets|
    requires forall i :: 0 <= i < |draws| ==> -100 <= draws[i] <= 100
    ensures t.clock >= s.clock
    decreases |packets|
  {
    if packets == [] then s
    else Replay(Step(s, packets[0], draws[0]).state, packets[1..], draws[1..])
  }

  /** Without perturbation magnitude, a stream of setpoint packets at one
      setpoint follows the physics iteration exactly and advances the clock
      once per packet, also when an over-fast variation rate makes every
      packet fault after its setpoint branch. */
  lemma {:induction false} SteadySetpointRun(s: State, setpoint: real, v0: real, k: nat,
                                             packets: seq<Packet>, draws: seq<int>)
    requires |draws| == |packets|
    requires forall i :: 0 <= i < |draws| ==> -100 <= draws[i] <= 100
    requires forall i :: 0 <= i < |packets| ==> packets[i].id == SetpointId && packets[i].segTwoFloat == setpoint
    requires s.variationPercent == 0.0
    requires s.velocity == Physics.Iterate(setpoint, v0, k)
    ensures Replay(s, packets, draws).velocity == Physics.Iterate(setpoint, v0, k + |packets|)
    ensures Replay(s, packets, draws).clock == s.clock + |packets|
    decreases |packets|
  {
    if packets != [] {
      var next := Step(s, packets[0], draws[0]).state;
      SetpointAndVelocityUpdate(s, packets[0], draws[0]);
      Physics.IterateLast(setpoint, v0, k);
      assert next.velocity == Physics.Iterate(setpoint, v0, k + 1);
      SteadySetpointRun(next, setpoint, v0, k + 1, packets[1..], draws[1..]);
    }
  }

  /** From the initial state with zero perturbation magnitude, full setpoint
      raises velocity strictly with every one of the first 600 setpoint packets. */
  lemma SpeedsUpFromRest(packets: seq<Packet>, draws: seq<int>, i: nat)
    requires |draws| == |packets| <= 600 && i < |packets|
    requires forall j :: 0 <= j < |draws| ==> -100 <= draws[j] <= 100
    requires forall j :: 0 <= j < |packets| ==> packets[j].id == SetpointId && packets[j].segTwoFloat == 1.0
    ensures var s0 := Initial().(variationPercent := 0.0);
      Replay(s0, packets[..i], draws[..i]).velocity
      < Replay(s0, packets[..i + 1], draws[..i + 1]).velocity
  {
    var s0 := Initial().(variationPercent := 0.0);
    assert Physics.Iterate(1.0, 0.0, 0) == 0.0;
    SteadySetpointRun(s0, 1.0, 0.0, 0, packets[..i], draws[..i]);
    SteadySetpointRun(s0, 1.0, 0.0, 0, packets[..i + 1], draws[..i + 1]);
    Physics.AcceleratesFromRest(i);
  }

  /** A fresh service receiving setpoint 0.5: the clock reaches 2, so the
      perturbation, telemetry and log gates all fire on this first packet. */
  method FirstSetpointScenario(draw: int) returns (velocity: real, res: Result<Effects>)
    requires -100 <= draw <= 100
    ensures velocity == Perturbation.Perturb(29.0 / 620.0, DefaultVariationPercent, draw)
    ensures res.Success? && res.value.perturbed
    ensures res.value.telemetry == Some(Telemetry(TelemetryId, velocity, velocity * 3.6))
    ensures res.value.log.Some? && res.value.log.value.setpoint == 0.5
  {
    var sim := new Simulator();
    res := sim.Handle(Packet(SetpointId, 0.5, 0, 0, 0, 0), draw);
    Physics.FirstStepFromRest(0.5);
    HalfRateFiresOnEvenTicks(2);
    TelemetrySchedule(Initial(), Packet(SetpointId, 0.5, 0, 0, 0, 0), draw);
    LogEveryPacket(Initial(), Packet(SetpointId, 0.5, 0, 0, 0, 0), draw);
    velocity := sim.currentVelocity;
  }
}
