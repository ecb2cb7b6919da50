/** The simulator's configuration constants, as the service declares them.
    Rates are in ticks per second; one tick is one setpoint packet. */
module Settings {
  /** Expected arrival rate of setpoint packets; the physics step is 1 / MarkerHertz seconds. */
  const MarkerHertz: int := 10
  /** Rate of telemetry (0x403) emission. */
  const VelocityHertz: int := 5
  /** Initial rate of velocity perturbation (changeable at run time). */
  const DefaultVariationHertz: int := 5
  /** Rate of log-line emission. */
  const LogHertz: int := 10
  /** Initial perturbation magnitude, as a fraction of velocity (changeable at run time). */
  const DefaultVariationPercent: real := 0.01

  /** Newtons of tractive force per unit of setpoint. */
  const SetpointScaler: real := 290.0
  /** Rolling-resistance coefficient. */
  const Crr: real := 0.001
  /** Aerodynamic drag coefficient. */
  const Cd: real := 0.117
  /** Vehicle mass in kilograms. */
  const Mass: real := 310.0
  /** Frontal area in square metres. */
  const FrontalArea: real := 0.91
  /** Air density in kilograms per cubic metre. */
  const AirDensity: real := 1.225
  /** Gravitational acceleration used for rolling resistance. */
  const Gravity: real := 9.8

  /** Bus identifiers the simulator recognises or emits. */
  const SetpointId: int := 1281        // 0x501
  const CruiseDebugId: int := 1287     // 0x507
  const CruiseStatusId: int := 1288    // 0x508
  const TelemetryId: int := 1027       // 0x403
}
