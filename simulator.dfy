/** The cruise simulator service: dispatch of inbound bus packets, the three
    rate-gated periodic actions (perturbation, telemetry, logging) and the
    capture of the controller's diagnostic fields. */
module CruiseSimulator {
  import opened Settings
  import opened JavaArith
  import opened RateScheduler
  import Physics
  import Perturbation

  datatype Option<T> = None | Some(value: T)

  /** An inbound packet with its identifier and the decoded views of its two
      data segments that the service reads: segment two as a float, segment
      one and segment two as 32-bit ints, the low 16 bits of segment two as a
      short, and byte 7 of segment two. */
  datatype Packet = Packet(
    id: int,
    segTwoFloat: real,
    segOneInt: int,
    segTwoInt: int,
    segTwoShort: int,
    segTwoByteSeven: int)

  /** The controller's diagnostic values, stored only for logging. */
  datatype Debug = Debug(
    cruiseTargetRpm: real,
    cruiseStatus: real,
    integralFactor: real,
    proportionalFactor: real,
    combinedError: real)

  /** Everything the service keeps between packets. */
  datatype State = State(
    clock: nat,
    setpoint: real,
    velocity: real,
    debug: Debug,
    variationHertz: int,
    variationPercent: real)

  /** The outbound 0x403 packet: velocity in m/s and velocity in km/h, the
      argument handed to the external km/h-to-RPM conversion. */
  datatype Telemetry = Telemetry(id: int, velocity: real, speedKph: real)

  /** The values one log line is formatted from, in the order they are printed. */
  datatype LogRecord = LogRecord(
    setpoint: real,
    velocity: real,
    speedKph: real,
    cruiseTargetRpm: real,
    proportionalFactor: real,
    integralFactor: real,
    combinedError: real,
    cruiseStatus: real)

  /** What one packet caused besides the state change. */
  datatype Effects = Effects(perturbed: bool, telemetry: Option<Telemetry>, log: Option<LogRecord>)

  /** The state after a packet, and either its effects or the fault that aborted it. */
  datatype Outcome = Outcome(state: State, result: Result<Effects>)

  /** The state of a freshly created service. */
  function Initial(): (s: State)
    ensures s.clock == 1 && s.velocity == 0.0 && s.setpoint == 0.0
  {
    State(1, 0.0, 0.0, Debug(0.0, 0.0, 0.0, 0.0, 0.0), DefaultVariationHertz, DefaultVariationPercent)
  }

  /** The setpoint branch: advance the clock, store the setpoint and take one
      physics step. Any other packet leaves the state alone, and no packet
      touches the configuration or the diagnostics here. */
  function Tick(s: State, p: Packet): (t: State)
    ensures t.clock == s.clock + 1 <==> p.id == SetpointId
    ensures p.id != SetpointId ==> t == s
    ensures t.debug == s.debug
    ensures t.variationHertz == s.variationHertz && t.variationPercent == s.variationPercent
    ensures p.id == SetpointId ==>
      && t.setpoint == p.segTwoFloat
      && t.velocity == Physics.NewVelocity(p.segTwoFloat, s.velocity)
      && t.velocity <= s.velocity + p.segTwoFloat * (29.0 / 310.0)
  {
    if p.id == SetpointId then
      s.(clock := s.clock + 1, setpoint := p.segTwoFloat,
         velocity := Physics.NewVelocity(p.segTwoFloat, s.velocity))
    else s
  }

  function TelemetryOf(s: State): Telemetry {
    Telemetry(TelemetryId, s.velocity, s.velocity * 3.6)
  }

  function LogOf(s: State): LogRecord {
    LogRecord(s.setpoint, s.velocity, s.velocity * 3.6, s.debug.cruiseTargetRpm,
              s.debug.proportionalFactor, s.debug.integralFactor, s.debug.combinedError,
              s.debug.cruiseStatus)
  }

  /** The two diagnostic branches. They change the stored diagnostics and
      nothing else; 0x507 sets the two controller gains, 0x508 the error,
      target rpm and status, and any other packet changes nothing. */
  function RecordDebug(s: State, p: Packet): (r: State)
    ensures r.(debug := s.debug) == s
    ensures p.id != CruiseDebugId && p.id != CruiseStatusId ==> r == s
    ensures p.id == CruiseDebugId ==>
      r.debug == s.debug.(proportionalFactor := p.segTwoInt as real, integralFactor := p.segOneInt as real)
    ensures p.id == CruiseStatusId ==>
      r.debug.proportionalFactor == s.debug.proportionalFactor
      && r.debug.integralFactor == s.debug.integralFactor
      && r.debug.combinedError == p.segOneInt as real
      && r.debug.cruiseTargetRpm == p.segTwoShort as real
      && r.debug.cruiseStatus == p.segTwoByteSeven as real
  {
    if p.id == CruiseDebugId then
      s.(debug := s.debug.(proportionalFactor := p.segTwoInt as real,
                           integralFactor := p.segOneInt as real))
    else if p.id == CruiseStatusId then
      s.(debug := s.debug.(combinedError := p.segOneInt as real,
                           cruiseTargetRpm := p.segTwoShort as real,
                           cruiseStatus := p.segTwoByteSeven as real))
    else s
  }

  /** One inbound packet, `draw` being the random integer the perturbation would use. */
  function Step(s: State, p: Packet, draw: int): (o: Outcome)
    requires -100 <= draw <= 100
    ensures o.state.clock == if p.id == SetpointId then s.clock + 1 else s.clock
    ensures o.state.variationHertz == s.variationHertz
    ensures o.state.variationPercent == s.variationPercent
    ensures o.result.Failure? <==> s.variationHertz != 0 && Abs(s.variationHertz) > MarkerHertz
  {
    var ticked := Tick(s, p);
    match Gate(MarkerHertz, ticked.variationHertz, ticked.clock)
    case Failure(fault) => Outcome(ticked, Failure(fault))
    case Success(perturb) =>
      var jittered :=
        if perturb then ticked.(velocity := Perturbation.Perturb(ticked.velocity, ticked.variationPercent, draw))
        else ticked;
      var telemetry := if Fires(MarkerHertz, VelocityHertz, jittered.clock) then Some(TelemetryOf(jittered)) else None;
      var log := if Fires(MarkerHertz, LogHertz, jittered.clock) then Some(LogOf(jittered)) else None;
      Outcome(RecordDebug(jittered, p), Success(Effects(perturb, telemetry, log)))
  }

  /** The service object: configuration, simulation state and diagnostics as
      mutable fields. */
  class Simulator {
    var variationHertz: int
    var velocityVariationPercent: real
    var cruiseTargetRpm: real
    var cruiseStatus: real
    var integralFactor: real
    var proportionalFactor: real
    var combinedError: real
    var setpoint: real
    var currentVelocity: real
    var clock: nat

    /** The fields as one value. */
    function Snapshot(): State
      reads this
    {
      State(clock, setpoint, currentVelocity,
            Debug(cruiseTargetRpm, cruiseStatus, integralFactor, proportionalFactor, combinedError),
            variationHertz, velocityVariationPercent)
    }

    constructor ()
      ensures Snapshot() == Initial()
    {
      variationHertz := DefaultVariationHertz;
      velocityVariationPercent := DefaultVariationPercent;
      cruiseTargetRpm, cruiseStatus, integralFactor, proportionalFactor, combinedError := 0.0, 0.0, 0.0, 0.0, 0.0;
      setpoint, currentVelocity := 0.0, 0.0;
      clock := 1;
    }

    method GetVariationHertz() returns (h: int)
      ensures h == variationHertz
    {
      h := variationHertz;
    }

    /** Accepts any int, including rates the gate cannot evaluate. */
    method SetVariationHertz(h: int)
      modifies this`variationHertz
      ensures Snapshot() == old(Snapshot()).(variationHertz := h)
    {
      variationHertz := h;
    }

    method GetVelocityVariationPercent() returns (percent: real)
      ensures percent == velocityVariationPercent
    {
      percent := velocityVariationPercent;
    }

    method SetVelocityVariationPercent(percent: real)
      modifies this`velocityVariationPercent
      ensures Snapshot() == old(Snapshot()).(variationPercent := percent)
    {
      velocityVariationPercent := percent;
    }

    /** Processes one inbound packet. A `Failure` result stands for the
        ArithmeticException the gate throws; the fields changed before it
        stay changed. */
    method Handle(p: Packet, draw: int) returns (res: Result<Effects>)
      requires -100 <= draw <= 100
      modifies this
      ensures Snapshot() == Step(old(Snapshot()), p, draw).state
      ensures res == Step(old(Snapshot()), p, draw).result
    {
      if p.id == SetpointId {
        clock := clock + 1;
        setpoint := p.segTwoFloat;
        currentVelocity := Physics.NewVelocity(setpoint, currentVelocity);
      }

      var variation := Gate(MarkerHertz, variationHertz, clock);
      if variation.Failure? {
        return Failure(variation.fault);
      }
      var perturbed := variation.value;
      if perturbed {
        currentVelocity := Perturbation.Perturb(currentVelocity, velocityVariationPercent, draw);
      }

      var telemetry := None;
      if Fires(MarkerHertz, VelocityHertz, clock) {
        telemetry := Some(TelemetryOf(Snapshot()));
      }

      var log := None;
      if Fires(MarkerHertz, LogHertz, clock) {
        log := Some(LogOf(Snapshot()));
      }

      if p.id == CruiseDebugId {
        proportionalFactor := p.segTwoInt as real;
        integralFactor := p.segOneInt as real;
      }
      if p.id == CruiseStatusId {
        combinedError := p.segOneInt as real;
        cruiseTargetRpm := p.segTwoShort as real;
        cruiseStatus := p.segTwoByteSeven as real;
      }
      res := Success(Effects(perturbed, telemetry, log));
    }
  }
}
