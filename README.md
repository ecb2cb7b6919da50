# Cruise simulator model

A Dafny model of `CruiseSimulatorServiceImpl`, the closed-loop vehicle
simulator that stands in for a car when a cruise controller is tested. The
service receives CAN packets. A setpoint packet (id 0x501) advances the
simulation clock and turns the controller's setpoint into a new vehicle
velocity through a force-balance step. Two diagnostic packets (0x507, 0x508)
store the controller's internal values for logging. On every packet three
periodic actions are gated by the clock: a random perturbation of velocity,
emission of a 0x403 telemetry packet, and a log line.

Files and modules:

- `settings.dfy` (`Settings`): the service's constants (rates, physical
  constants, packet ids).
- `arith.dfy` (`Arith`): small facts about products and squares that the
  other modules share.
- `java_arith.dfy` (`JavaArith`): Java's truncating `/` and `%`, which the
  gate expression uses.
- `scheduler.dfy` (`RateScheduler`): the gate
  `rate != 0 && clock % (markerHertz / rate) == 0`, its division-by-zero
  case, and how often a gate fires over a window of ticks.
- `physics.dfy` (`Physics`): `calcNewVelocity` over real numbers.
- `perturbation.dfy` (`Perturbation`): the velocity jitter for a given draw.
- `simulator.dfy` (`CruiseSimulator`): the packet and state datatypes, the
  specification function `Step` for one packet, and the class `Simulator`
  with the service's fields, getters, setters and `Handle`, the imperative
  counterpart of `processCanPacketMessage`, proved equal to `Step`.
- `simulator_properties.dfy` (`SimulatorProperties`): what one packet does,
  and what a stream of packets does (`Replay`).

Behaviour of the code worth knowing before reading the model:

- The three gates run on every packet, with the current clock, not only after
  a setpoint packet. A diagnostic packet on an even clock therefore perturbs
  velocity again and re-sends telemetry (`DiagnosticPacketPerturbs`,
  `TelemetrySchedule`). With the log rate equal to the base rate, every packet
  logs (`LogEveryPacket`).
- `setVariationHertz` accepts any int. A rate that does not divide the base
  rate truncates the period, so the cadence drifts (`TruncatedPeriodDrift`).
  A rate whose magnitude exceeds the base rate makes the period 0, and the
  modulo throws `ArithmeticException` on every later packet. The model returns
  `Failure(DivideByZero)`. The setpoint branch has already run by then, and
  nothing is perturbed, emitted or stored (`OverfastVariationAborts`).
- The draw is an integer `r` in [-100, 100], and velocity is scaled by
  `magnitude * r / 100`. The model takes `r` as a parameter.
- Rolling resistance and drag do not depend on the direction of travel. A
  vehicle rolling backwards with no setpoint therefore speeds up backwards
  (`CoastingLosesVelocity`).

## Model

| member | source | states |
|---|---|---|
| `JavaArith.JavaDiv` | src/test/java/au/com/teamarrow/service/impl/CruiseSimulatorServiceImpl.java:142 | Java's quotient `markerHertz / rate`: Euclidean division for a non-negative dividend and positive divisor, its negation for a negative divisor |
| `JavaArith.JavaRem` | src/test/java/au/com/teamarrow/service/impl/CruiseSimulatorServiceImpl.java:142 | Java's `clock % period` as section 15.17.3 of the Java Language Specification defines it: `(a / b) * b + a % b == a`, the remainder smaller than the divisor in magnitude and never of the opposite sign to the dividend; for a non-negative clock, the Euclidean remainder by the period's magnitude |
| `JavaArith.QuotientZero` | src/test/java/au/com/teamarrow/service/impl/CruiseSimulatorServiceImpl.java:142 | for a positive base rate, the truncated period is zero exactly when the rate's magnitude exceeds the base rate |
| `RateScheduler.Defined` | src/test/java/au/com/teamarrow/service/impl/CruiseSimulatorServiceImpl.java:142 | for a positive base rate, the gate can be evaluated exactly when the rate is 0 or its magnitude is at most the base rate |
| `RateScheduler.Fires` | src/test/java/au/com/teamarrow/service/impl/CruiseSimulatorServiceImpl.java:142 | the gate's value: never for rate 0; for a positive base rate and a non-zero rate, the period `base / abs(rate)` is positive and the gate fires exactly on its multiples, whatever the rate's sign |
| `RateScheduler.Gate` | src/test/java/au/com/teamarrow/service/impl/CruiseSimulatorServiceImpl.java:142 | a rate of 0 yields "not fired" without dividing; for a positive base rate the gate faults exactly when the rate is non-zero and its magnitude exceeds the base rate; otherwise its value is `Fires` |
| `RateScheduler.DisabledNeverFires` | src/test/java/au/com/teamarrow/service/impl/CruiseSimulatorServiceImpl.java:142 | a rate of 0 is evaluable and never fires, for every clock and every base rate |
| `RateScheduler.HalfRateFiresOnEvenTicks` | src/test/java/au/com/teamarrow/service/impl/CruiseSimulatorServiceImpl.java:158 | base rate 10 and rate 5 fire exactly on even clocks |
| `RateScheduler.FullRateFiresEveryTick` | src/test/java/au/com/teamarrow/service/impl/CruiseSimulatorServiceImpl.java:165 | a rate equal to the base rate fires on every clock |
| `RateScheduler.OverfastRateFaults` | src/test/java/au/com/teamarrow/service/impl/CruiseSimulatorServiceImpl.java:142 | a rate whose magnitude exceeds the base rate divides by zero on every clock |
| `RateScheduler.Firings` | src/test/java/au/com/teamarrow/service/impl/CruiseSimulatorServiceImpl.java:142 | the number of firing clocks in a window is at most its length, and equals it at full rate |
| `RateScheduler.FiresPeriodic` | src/test/java/au/com/teamarrow/service/impl/CruiseSimulatorServiceImpl.java:142 | clocks one period apart agree on firing |
| `RateScheduler.OneFiringPerPeriod` | src/test/java/au/com/teamarrow/service/impl/CruiseSimulatorServiceImpl.java:142 | every window of one period, starting anywhere, fires exactly once |
| `RateScheduler.FiringsPerPeriods` | src/test/java/au/com/teamarrow/service/impl/CruiseSimulatorServiceImpl.java:142 | every window of k whole periods fires exactly k times |
| `RateScheduler.ExactRateWhenDivisor` | src/test/java/au/com/teamarrow/service/impl/CruiseSimulatorServiceImpl.java:142 | when the rate divides the base rate, every window of one second (`base` clocks) fires exactly `rate` times |
| `RateScheduler.TruncatedPeriodDrift` | src/test/java/au/com/teamarrow/service/impl/CruiseSimulatorServiceImpl.java:142 | otherwise the cadence drifts: at base rate 10, rate 4 fires 5 times and rate 6 fires 10 times in clocks 1 to 10 |
| `Physics.RollingResistance` | src/test/java/au/com/teamarrow/service/impl/CruiseSimulatorServiceImpl.java:81-82 | rolling resistance is non-negative and is zero exactly when velocity is zero |
| `Physics.TractiveForce` | src/test/java/au/com/teamarrow/service/impl/CruiseSimulatorServiceImpl.java:76 | the tractive force is positive exactly for a positive setpoint and zero exactly for a zero setpoint |
| `Physics.AeroDrag` | src/test/java/au/com/teamarrow/service/impl/CruiseSimulatorServiceImpl.java:86 | drag is never negative |
| `Physics.DragEvenZeroOnlyAtRest` | src/test/java/au/com/teamarrow/service/impl/CruiseSimulatorServiceImpl.java:86 | drag is zero exactly at standstill and the same for opposite velocities |
| `Physics.NetForce` | src/test/java/au/com/teamarrow/service/impl/CruiseSimulatorServiceImpl.java:90 | the net force never exceeds the tractive force, and equals it exactly at standstill |
| `Physics.NewVelocity` | src/test/java/au/com/teamarrow/service/impl/CruiseSimulatorServiceImpl.java:72-106 | the new velocity never exceeds the old one plus the tractive term `setpoint * 29/310`, and equals it exactly when the vehicle is at standstill |
| `Physics.ClosedForm` | src/test/java/au/com/teamarrow/service/impl/CruiseSimulatorServiceImpl.java:72-106 | the new velocity with the constants multiplied out: `v + sp*29/310 - (0.00098 if moving) - 0.065212875/3100 * v*v`, with no clamping |
| `Physics.RestStaysAtRest` | src/test/java/au/com/teamarrow/service/impl/CruiseSimulatorServiceImpl.java:81-104 | at standstill rolling resistance is zero, and setpoint 0 keeps velocity 0 |
| `Physics.FirstStepFromRest` | src/test/java/au/com/teamarrow/service/impl/CruiseSimulatorServiceImpl.java:76-104 | from standstill only the tractive force acts; setpoint 0.5 gives exactly 29/620 m/s |
| `Physics.SetpointSensitivity` | src/test/java/au/com/teamarrow/service/impl/CruiseSimulatorServiceImpl.java:76-104 | at fixed velocity the new velocity is affine in the setpoint with slope 29/310, hence strictly increasing |
| `Physics.CoastingLosesVelocity` | src/test/java/au/com/teamarrow/service/impl/CruiseSimulatorServiceImpl.java:81-104 | with setpoint 0, any non-zero velocity strictly decreases, also when it is already negative |
| `Physics.VelocityCanBeNegative` | src/test/java/au/com/teamarrow/service/impl/CruiseSimulatorServiceImpl.java:104 | the result is not clamped: setpoint -1 from standstill gives a negative velocity |
| `Physics.FullSetpointStep` | src/test/java/au/com/teamarrow/service/impl/CruiseSimulatorServiceImpl.java:76-104 | under setpoint 1 at 0 to 60 m/s, velocity rises, by at most 0.1 m/s |
| `Physics.IterateLast` | src/test/java/au/com/teamarrow/service/impl/CruiseSimulatorServiceImpl.java:72-106 | running `n + 1` steps at a fixed setpoint equals one more step from the velocity reached after `n` steps |
| `Physics.AcceleratesFromRest` | src/test/java/au/com/teamarrow/service/impl/CruiseSimulatorServiceImpl.java:72-106 | under setpoint 1 from standstill, velocity rises strictly on each of the first 600 steps and stays between 0 and n/10 |
| `Perturbation.Perturb` | src/test/java/au/com/teamarrow/service/impl/CruiseSimulatorServiceImpl.java:148-152 | zero velocity stays zero; a zero magnitude or a zero draw leaves velocity unchanged |
| `Perturbation.PerturbationBounded` | src/test/java/au/com/teamarrow/service/impl/CruiseSimulatorServiceImpl.java:148-152 | for every draw in [-100, 100] and a non-negative magnitude, velocity moves by at most `abs(velocity) * magnitude` |
| `Perturbation.PerturbationKeepsDirection` | src/test/java/au/com/teamarrow/service/impl/CruiseSimulatorServiceImpl.java:148-152 | a magnitude of at most 1 never reverses the sign of velocity |
| `CruiseSimulator.Initial` | src/test/java/au/com/teamarrow/service/impl/CruiseSimulatorServiceImpl.java:40-48 | a fresh service has clock 1, velocity 0 and setpoint 0 |
| `CruiseSimulator.Tick` | src/test/java/au/com/teamarrow/service/impl/CruiseSimulatorServiceImpl.java:128-138 | the clock advances by one exactly on a setpoint packet, which also stores the setpoint and sets velocity to `NewVelocity(setpoint, old velocity)`, at most the old velocity plus the tractive term; other packets change nothing; diagnostics and configuration are untouched |
| `CruiseSimulator.RecordDebug` | src/test/java/au/com/teamarrow/service/impl/CruiseSimulatorServiceImpl.java:173-184 | only the stored diagnostics change: 0x507 sets exactly the proportional and integral factors, 0x508 sets the combined error, target rpm and status and keeps the two factors, and other packets change nothing |
| `CruiseSimulator.Step` | src/test/java/au/com/teamarrow/service/impl/CruiseSimulatorServiceImpl.java:110-186 | one packet: the clock advances by exactly 1 on a setpoint packet and is unchanged otherwise; the configuration is unchanged; the packet faults exactly when the variation rate is non-zero with magnitude above 10 |
| `CruiseSimulator.Simulator.constructor` | src/test/java/au/com/teamarrow/service/impl/CruiseSimulatorServiceImpl.java:28-48 | the fields start at their declared values (`Initial`) |
| `CruiseSimulator.Simulator.GetVariationHertz` | src/test/java/au/com/teamarrow/service/impl/CruiseSimulatorServiceImpl.java:51-53 | returns the variation rate |
| `CruiseSimulator.Simulator.SetVariationHertz` | src/test/java/au/com/teamarrow/service/impl/CruiseSimulatorServiceImpl.java:56-58 | accepts any int and changes only the variation rate |
| `CruiseSimulator.Simulator.GetVelocityVariationPercent` | src/test/java/au/com/teamarrow/service/impl/CruiseSimulatorServiceImpl.java:61-63 | returns the perturbation magnitude |
| `CruiseSimulator.Simulator.SetVelocityVariationPercent` | src/test/java/au/com/teamarrow/service/impl/CruiseSimulatorServiceImpl.java:66-68 | changes only the perturbation magnitude |
| `CruiseSimulator.Simulator.Handle` | src/test/java/au/com/teamarrow/service/impl/CruiseSimulatorServiceImpl.java:110-186 | updating the fields in the source's order gives exactly the state and result of `Step` on the old state |
| `SimulatorProperties.SetpointAndVelocityUpdate` | src/test/java/au/com/teamarrow/service/impl/CruiseSimulatorServiceImpl.java:128-154 | only a setpoint packet changes the setpoint; velocity is `NewVelocity(setpoint, old velocity)` on a setpoint packet and the old velocity otherwise, perturbed exactly when the variation gate fired |
| `SimulatorProperties.PerturbationSchedule` | src/test/java/au/com/teamarrow/service/impl/CruiseSimulatorServiceImpl.java:141-154 | on every packet that completes, perturbation fires iff the variation rate is non-zero and the post-tick clock is a multiple of `10 / abs(rate)` |
| `SimulatorProperties.TelemetrySchedule` | src/test/java/au/com/teamarrow/service/impl/CruiseSimulatorServiceImpl.java:157-162 | telemetry is emitted iff the clock is even, with id 0x403 and the velocity after this packet's perturbation |
| `SimulatorProperties.LogEveryPacket` | src/test/java/au/com/teamarrow/service/impl/CruiseSimulatorServiceImpl.java:164-184 | every completed packet logs, showing this packet's setpoint and perturbed velocity but the diagnostics from before it |
| `SimulatorProperties.UnrecognisedPacket` | src/test/java/au/com/teamarrow/service/impl/CruiseSimulatorServiceImpl.java:110-186 | an unrecognised id changes no field except velocity by perturbation, and nothing at all when perturbation does not fire |
| `SimulatorProperties.CruiseDebugPacket` | src/test/java/au/com/teamarrow/service/impl/CruiseSimulatorServiceImpl.java:173-177 | 0x507 leaves clock and setpoint alone and sets only the proportional factor (segment two) and integral factor (segment one) |
| `SimulatorProperties.CruiseStatusPacket` | src/test/java/au/com/teamarrow/service/impl/CruiseSimulatorServiceImpl.java:179-184 | 0x508 leaves clock and setpoint alone and sets only combined error, target RPM and status |
| `SimulatorProperties.DiagnosticIdempotent` | src/test/java/au/com/teamarrow/service/impl/CruiseSimulatorServiceImpl.java:173-184 | repeating a diagnostic packet leaves the stored diagnostics unchanged |
| `SimulatorProperties.DiagnosticPacketPerturbs` | src/test/java/au/com/teamarrow/service/impl/CruiseSimulatorServiceImpl.java:141-154 | a 0x507 packet on an even clock with rate 5, positive velocity, magnitude and draw strictly raises velocity |
| `SimulatorProperties.OverfastVariationAborts` | src/test/java/au/com/teamarrow/service/impl/CruiseSimulatorServiceImpl.java:128-142 | a variation rate above the base rate in magnitude aborts with division by zero, leaving only the setpoint branch's updates |
| `SimulatorProperties.Replay` | src/test/java/au/com/teamarrow/service/impl/CruiseSimulatorServiceImpl.java:110-186 | feeding packets in order never moves the clock backwards |
| `SimulatorProperties.SteadySetpointRun` | src/test/java/au/com/teamarrow/service/impl/CruiseSimulatorServiceImpl.java:128-154 | with zero magnitude, n setpoint packets at one setpoint give exactly n physics steps and advance the clock by n, also when the variation rate faults every packet |
| `SimulatorProperties.SpeedsUpFromRest` | src/test/java/au/com/teamarrow/service/impl/CruiseSimulatorServiceImpl.java:128-154 | from the initial state with zero magnitude, each of the first 600 packets at setpoint 1 strictly raises velocity |
| `SimulatorProperties.FirstSetpointScenario` | src/test/java/au/com/teamarrow/service/impl/CruiseSimulatorServiceImpl.java:128-167 | a fresh service given setpoint 0.5 reaches velocity 29/620 perturbed by the draw, and all three gates fire |

## Left out

- Decoding of CAN data segments (`CanPacket` is not part of this model): a
  `Packet` carries the already decoded float, int, short and byte values, and
  their ranges are not constrained.
- Sending the telemetry packet and the km/h-to-RPM conversion are external
  collaborators: telemetry and log records carry the velocity in km/h that is
  handed to the conversion, not the converted RPM.
- Number formatting and printing of the log line: a `LogRecord` holds the
  eight values in print order.
- `java.util.Random`: the draw is a parameter of `Handle`, required to lie in
  [-100, 100] as `nextInt(201) - 100` guarantees.
- IEEE double rounding and the `(float)` casts of the telemetry packet: all
  arithmetic is over real numbers.
- The clock is an unbounded natural number; 64-bit overflow after 2^63
  packets is not modelled.
- The configuration fields are static in the source and so are shared by all
  instances. Here they are fields of each `Simulator`. Concurrent delivery of
  packets is not modelled.
- Spring wiring, transactions and the SLF4J logger carry no behaviour and
  are left out. So are exceptions raised by the send or print collaborators.
