/**
 The charger's process-wide variables (the globals at the top of Charging.h)
 and `stopCharging`, which both the control tick and the safety monitor use.
 The watchdog reset that follows a fault is modelled as the terminal phase
 `Shutdown`: once there, the processor spins in `while (1)` until it resets,
 so no further control step happens.
 */
module ChargeState {
  import opened Hardware

  datatype Phase = Running | Shutdown

  datatype Charger = Charger(
    batteryVoltage: real,   // volts, last bus-voltage reading
    chargeCurrent: real,    // amperes, last current reading
    pwmDutyCycle: int,
    phase: Phase)

  /** The state after power-on: both readings 0.0 and duty 0. */
  const Initial: Charger := Charger(0.0, 0.0, 0, Running)

  /** One step of the charger: the state it leaves and the events it emitted, in order. */
  datatype Step = Step(state: Charger, trace: seq<Event>)

  /** Zero the duty variable, write it to the PWM pin, then pull the load pin LOW. */
  function StopCharging(s: Charger): (r: Step)
    ensures r.state.pwmDutyCycle == 0
    ensures r.state.batteryVoltage == s.batteryVoltage && r.state.chargeCurrent == s.chargeCurrent
    ensures r.state.phase == s.phase
    ensures r.trace == [PwmWrite(0), LoadWrite(LOW)]
  {
    var stopped := s.(pwmDutyCycle := 0);
    Step(stopped, [PwmWrite(stopped.pwmDutyCycle), LoadWrite(LOW)])
  }

  /** Stopping twice leaves the same variables and the same pins as stopping once. */
  lemma StopChargingIdempotent(s: Charger, o: Outputs)
    ensures StopCharging(StopCharging(s).state).state == StopCharging(s).state
    ensures Replay(o, StopCharging(s).trace + StopCharging(StopCharging(s).state).trace)
         == Replay(o, StopCharging(s).trace)
    ensures Replay(o, StopCharging(s).trace) == o.(pwm := 0, load := LOW)
  {
    var once := StopCharging(s);
    var twice := StopCharging(once.state);
    ReplayAppend(o, once.trace, twice.trace);
    ReplayPair(o, PwmWrite(0), LoadWrite(LOW));
    ReplayPair(o.(pwm := 0, load := LOW), PwmWrite(0), LoadWrite(LOW));
  }
}
