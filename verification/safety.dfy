/**
 The safety monitor of Safety.h: two fixed thresholds and a fail-stop action.
 An overload is a current strictly above 2.0 A or a bus voltage strictly above
 4.2 V; on overload the charger is stopped (duty 0, load LOW) and enters the
 terminal phase that stands for the watchdog reset.
 */
module Safety {
  import opened Hardware
  import opened ChargeState

  const MAX_SAFE_CURRENT: real := 2.0     // amperes
  const MAX_BATTERY_VOLTAGE: real := 4.2  // volts

  predicate IsOverload(current: real, voltage: real) {
    current > MAX_SAFE_CURRENT || voltage > MAX_BATTERY_VOLTAGE
  }

  /** Judge the readings held in `s`; on overload stop and shut down, otherwise do nothing. */
  function CheckSafety(s: Charger): (r: Step)
    // a fault is declared exactly when one reading is strictly above its fixed limit
    ensures r.state.phase == Shutdown || r.state.phase == s.phase
    ensures (s.phase == Running && r.state.phase == Shutdown)
        <==> (s.phase == Running && (s.chargeCurrent > 2.0 || s.batteryVoltage > 4.2))
    // on fault: the PWM is zeroed first, then the load is released, and nothing else is emitted
    ensures s.chargeCurrent > 2.0 || s.batteryVoltage > 4.2 ==>
      && r.trace == [PwmWrite(0), LoadWrite(LOW)]
      && r.state == s.(pwmDutyCycle := 0, phase := Shutdown)
    // without a fault neither a variable nor a pin changes
    ensures s.chargeCurrent <= 2.0 && s.batteryVoltage <= 4.2 ==> r.state == s && r.trace == []
  {
    if IsOverload(s.chargeCurrent, s.batteryVoltage) then
      var stop := StopCharging(s);
      Step(stop.state.(phase := Shutdown), stop.trace)
    else
      Step(s, [])
  }

  /** Readings exactly at the limits are not faults; anything above either limit is. */
  lemma ThresholdsAreStrict(current: real, voltage: real)
    ensures !IsOverload(MAX_SAFE_CURRENT, MAX_BATTERY_VOLTAGE)
    ensures current <= MAX_SAFE_CURRENT && voltage <= MAX_BATTERY_VOLTAGE ==> !IsOverload(current, voltage)
    ensures current > MAX_SAFE_CURRENT ==> IsOverload(current, voltage)
    ensures voltage > MAX_BATTERY_VOLTAGE ==> IsOverload(current, voltage)
  {
  }

  /** On the board a fault leaves the PWM at 0 and the load LOW, whatever they were;
      without a fault the board is left exactly as it was. */
  lemma CheckSafetyOutputs(s: Charger, o: Outputs)
    ensures IsOverload(s.chargeCurrent, s.batteryVoltage) ==>
      Replay(o, CheckSafety(s).trace) == o.(pwm := 0, load := LOW)
    ensures !IsOverload(s.chargeCurrent, s.batteryVoltage) ==> Replay(o, CheckSafety(s).trace) == o
  {
    ReplayPair(o, PwmWrite(0), LoadWrite(LOW));
  }
}
