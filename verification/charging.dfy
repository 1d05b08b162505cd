/**
 The CC/CV control tick of Charging.h.

 Each call reads the bus voltage (volts) and the current (milliamperes, turned
 into amperes by dividing by 1000), repeats the overload test of the safety
 monitor inline, and otherwise moves the duty cycle by one unit towards the
 constant-current target (below the charging voltage) or away from the
 charging voltage (at or above it), then writes the duty to the PWM pin even
 when it did not change. The stored calibration factors are not applied to
 the readings.
 */
module Charging {
  import opened Hardware
  import opened ChargeState
  import Safety

  /** Arduino's `constrain(x, lo, hi)`. */
  function Constrain(x: int, lo: int, hi: int): (r: int)
    ensures lo <= hi ==> lo <= r <= hi
    ensures lo <= x <= hi ==> r == x
  {
    if x < lo then lo else if x > hi then hi else x
  }

  /** The six ways through the CC/CV branch, in the order they appear. */
  datatype Branch =
    | CcRaise   // voltage below the charging voltage, current below target
    | CcLower   // voltage below the charging voltage, current above target
    | CcHold    // voltage below the charging voltage, current on target
    | CvLower   // voltage above the charging voltage
    | CvRaise   // voltage at or above, and below, the charging voltage
    | CvHold    // voltage exactly at the charging voltage

  /** Which branch a tick takes. The CV raise is written in the code, but its
      test repeats the negation of the outer test, so no reading reaches it. */
  function SelectBranch(b: Board, voltage: real, current: real): (r: Branch)
    ensures r != CvRaise
    ensures voltage < b.maxChargingVoltage <==> r in {CcRaise, CcLower, CcHold}
  {
    if voltage < b.maxChargingVoltage then
      if current < b.targetChargeCurrent then CcRaise
      else if current > b.targetChargeCurrent then CcLower
      else CcHold
    else
      if voltage > b.maxChargingVoltage then CvLower
      else if voltage < b.maxChargingVoltage then CvRaise
      else CvHold
  }

  /** The duty the taken branch leaves. */
  function Regulate(b: Board, duty: int, voltage: real, current: real): int {
    match SelectBranch(b, voltage, current)
    case CcRaise => Constrain(duty + 1, PWM_MIN, PWM_MAX)
    case CcLower => Constrain(duty - 1, PWM_MIN, PWM_MAX)
    case CcHold => duty
    case CvLower => Constrain(duty - 1, PWM_MIN, PWM_MAX)
    case CvRaise => Constrain(duty + 1, PWM_MIN, PWM_MAX)
    case CvHold => duty
  }

  /** The current the controller works with, in amperes. */
  function Amperes(current_mA: real): real {
    current_mA / 1000.0
  }

  /** One control tick (`chargeBattery`). */
  function ChargeBattery(b: Board, s: Charger, busVoltage: real, current_mA: real): (r: Step)
    // the tick keeps both readings, the current converted from mA to A
    ensures r.state.batteryVoltage == busVoltage
    ensures r.state.chargeCurrent * 1000.0 == current_mA
    // overload is tested first and is the safety monitor's own test
    ensures Safety.IsOverload(r.state.chargeCurrent, busVoltage) ==>
      && r.state.pwmDutyCycle == 0
      && r.state.phase == Shutdown
      && r.trace == [PwmWrite(0), LoadWrite(LOW)]
    ensures !Safety.IsOverload(r.state.chargeCurrent, busVoltage) ==>
      && r.state.phase == s.phase
      && r.trace == [PwmWrite(r.state.pwmDutyCycle)]
    // from an in-range duty a regulating tick stays in range and moves by at most one
    ensures !Safety.IsOverload(r.state.chargeCurrent, busVoltage) && InDutyRange(s.pwmDutyCycle) ==>
      && InDutyRange(r.state.pwmDutyCycle)
      && s.pwmDutyCycle - 1 <= r.state.pwmDutyCycle <= s.pwmDutyCycle + 1
    // constant-current region: saturating step towards the target current
    ensures !Safety.IsOverload(r.state.chargeCurrent, busVoltage) && InDutyRange(s.pwmDutyCycle)
            && busVoltage < b.maxChargingVoltage ==>
      && (r.state.chargeCurrent < b.targetChargeCurrent ==>
            r.state.pwmDutyCycle == if s.pwmDutyCycle < 255 then s.pwmDutyCycle + 1 else 255)
      && (r.state.chargeCurrent > b.targetChargeCurrent ==>
            r.state.pwmDutyCycle == if s.pwmDutyCycle > 0 then s.pwmDutyCycle - 1 else 0)
      && (r.state.chargeCurrent == b.targetChargeCurrent ==> r.state.pwmDutyCycle == s.pwmDutyCycle)
    // constant-voltage region: never raises; lowers above the charging voltage whatever the current
    ensures !Safety.IsOverload(r.state.chargeCurrent, busVoltage) && InDutyRange(s.pwmDutyCycle)
            && busVoltage >= b.maxChargingVoltage ==>
      && r.state.pwmDutyCycle <= s.pwmDutyCycle
      && (busVoltage > b.maxChargingVoltage ==>
            r.state.pwmDutyCycle == if s.pwmDutyCycle > 0 then s.pwmDutyCycle - 1 else 0)
      && (busVoltage == b.maxChargingVoltage ==> r.state.pwmDutyCycle == s.pwmDutyCycle)
  {
    var voltage := busVoltage;
    var current := Amperes(current_mA);
    var sampled := s.(batteryVoltage := voltage, chargeCurrent := current);
    if current > Safety.MAX_SAFE_CURRENT || voltage > Safety.MAX_BATTERY_VOLTAGE then
      var stop := StopCharging(sampled);
      Step(stop.state.(phase := Shutdown), stop.trace)
    else
      var duty := Regulate(b, s.pwmDutyCycle, voltage, current);
      Step(sampled.(pwmDutyCycle := duty), [PwmWrite(duty)])
  }

  /** The inline overload test of a tick and the safety monitor agree on every
      reading: a tick shuts down exactly when `checkSafety`, run on the same
      readings, would, and then leaves the same state and emits the same events. */
  lemma ChargeBatteryAgreesWithCheckSafety(b: Board, s: Charger, busVoltage: real, current_mA: real)
    requires s.phase == Running
    ensures var r := ChargeBattery(b, s, busVoltage, current_mA);
            var sampled := s.(batteryVoltage := busVoltage, chargeCurrent := Amperes(current_mA));
            var c := Safety.CheckSafety(sampled);
            && (r.state.phase == Shutdown <==> c.state.phase == Shutdown)
            && (r.state.phase == Shutdown ==> r == c)
            && (r.state.phase == Running ==> c == Step(sampled, []))
  {
  }

  /** With a charging voltage at or above the 4.2 V overload limit, every voltage above
      the charging voltage is already an overload, so the CV decrease cannot run either:
      the tick shuts down instead. */
  lemma CvLowerShadowedByOverload(b: Board, s: Charger, busVoltage: real, current_mA: real)
    requires b.maxChargingVoltage >= Safety.MAX_BATTERY_VOLTAGE
    requires busVoltage > b.maxChargingVoltage
    ensures ChargeBattery(b, s, busVoltage, current_mA).state.phase == Shutdown
    ensures ChargeBattery(b, s, busVoltage, current_mA).trace == [PwmWrite(0), LoadWrite(LOW)]
  {
  }

  /** The readings the control loop is handed on each tick. */
  datatype Reading = Reading(busVoltage: real, current_mA: real)

  predicate Overloaded(x: Reading) {
    Safety.IsOverload(Amperes(x.current_mA), x.busVoltage)
  }

  /** The control loop calling `chargeBattery` once per reading; after a fault the
      processor spins until the watchdog resets it, so no later reading is taken. */
  function Run(b: Board, s: Charger, readings: seq<Reading>): Step
    decreases |readings|
  {
    if s.phase == Shutdown || readings == [] then Step(s, [])
    else
      var first := ChargeBattery(b, s, readings[0].busVoltage, readings[0].current_mA);
      var rest := Run(b, first.state, readings[1..]);
      Step(rest.state, first.trace + rest.trace)
  }

  /** From an in-range duty, every duty the loop writes and the one it ends with stay in [0,255]. */
  lemma {:induction false} RunKeepsDutyInRange(b: Board, s: Charger, readings: seq<Reading>)
    requires InDutyRange(s.pwmDutyCycle)
    ensures InDutyRange(Run(b, s, readings).state.pwmDutyCycle)
    ensures forall e :: e in Run(b, s, readings).trace && e.PwmWrite? ==> InDutyRange(e.duty)
    decreases |readings|
  {
    if s.phase == Shutdown || readings == [] {
    } else {
      var first := ChargeBattery(b, s, readings[0].busVoltage, readings[0].current_mA);
      RunKeepsDutyInRange(b, first.state, readings[1..]);
    }
  }

  /** Every run from power-on keeps the duty in [0,255], so the in-range premise of
      the tick's step properties holds on every reachable state. */
  lemma RunFromPowerOnKeepsDutyInRange(b: Board, readings: seq<Reading>)
    ensures InDutyRange(Initial.pwmDutyCycle)
    ensures InDutyRange(Run(b, Initial, readings).state.pwmDutyCycle)
    ensures forall e :: e in Run(b, Initial, readings).trace && e.PwmWrite? ==> InDutyRange(e.duty)
  {
    RunKeepsDutyInRange(b, Initial, readings);
  }

  /** The first tick from power-on leaves the duty at 0 or 1 and writes it to the pin,
      whatever the pin held before (255 after a soft-start ramp, for one). */
  lemma FirstTickFromPowerOn(b: Board, busVoltage: real, current_mA: real, o: Outputs)
    ensures var r := ChargeBattery(b, Initial, busVoltage, current_mA);
            && 0 <= r.state.pwmDutyCycle <= 1
            && Replay(o, r.trace).pwm == r.state.pwmDutyCycle
  {
    var r := ChargeBattery(b, Initial, busVoltage, current_mA);
    if r.state.phase == Shutdown {
      ReplayPair(o, PwmWrite(0), LoadWrite(LOW));
    } else {
      ReplaySingle(o, PwmWrite(r.state.pwmDutyCycle));
    }
  }

  /** While the loop runs, the duty on the PWM pin is the duty variable: each tick
      writes its new duty, and a fault writes 0 and zeroes the variable. */
  lemma {:induction false} RunPwmMatchesDuty(b: Board, s: Charger, readings: seq<Reading>, o: Outputs)
    requires s.phase == Running
    requires readings != []
    ensures Replay(o, Run(b, s, readings).trace).pwm == Run(b, s, readings).state.pwmDutyCycle
    decreases |readings|
  {
    var first := ChargeBattery(b, s, readings[0].busVoltage, readings[0].current_mA);
    var rest := Run(b, first.state, readings[1..]);
    ReplayAppend(o, first.trace, rest.trace);
    if first.state.phase == Shutdown || readings[1..] == [] {
      assert rest == Step(first.state, []);
      if first.state.phase == Shutdown {
        ReplayPair(o, PwmWrite(0), LoadWrite(LOW));
      } else {
        ReplaySingle(o, PwmWrite(first.state.pwmDutyCycle));
      }
    } else {
      RunPwmMatchesDuty(b, first.state, readings[1..], Replay(o, first.trace));
    }
  }

  /** The first overloaded reading ends the run: every earlier reading wrote exactly one
      duty, the fault wrote PWM 0 and then load LOW, and nothing follows. */
  lemma {:induction false} RunHaltsAtFirstFault(b: Board, s: Charger, readings: seq<Reading>, k: nat)
    requires s.phase == Running
    requires k < |readings|
    requires forall j :: 0 <= j < k ==> !Overloaded(readings[j])
    requires Overloaded(readings[k])
    ensures var r := Run(b, s, readings);
            && r.state.phase == Shutdown
            && r.state.pwmDutyCycle == 0
            && r.state.batteryVoltage == readings[k].busVoltage
            && r.state.chargeCurrent == Amperes(readings[k].current_mA)
            && |r.trace| == k + 2
            && r.trace[k..] == [PwmWrite(0), LoadWrite(LOW)]
            && (forall j :: 0 <= j < k ==> r.trace[j].PwmWrite?)
    decreases k
  {
    var first := ChargeBattery(b, s, readings[0].busVoltage, readings[0].current_mA);
    var rest := Run(b, first.state, readings[1..]);
    if k == 0 {
      assert rest == Step(first.state, []);
      assert first.trace + rest.trace == first.trace;
    } else {
      assert !Overloaded(readings[0]);
      forall j | 0 <= j < k - 1
        ensures !Overloaded(readings[1..][j])
      {
        assert readings[1..][j] == readings[j + 1];
      }
      RunHaltsAtFirstFault(b, first.state, readings[1..], k - 1);
      assert (first.trace + rest.trace)[k..] == rest.trace[k - 1..];
    }
  }

  /** Without an overload a run emits one PWM write per reading and keeps running. */
  lemma {:induction false} RunWithoutFault(b: Board, s: Charger, readings: seq<Reading>)
    requires s.phase == Running
    requires forall j :: 0 <= j < |readings| ==> !Overloaded(readings[j])
    ensures Run(b, s, readings).state.phase == Running
    ensures |Run(b, s, readings).trace| == |readings|
    ensures forall e :: e in Run(b, s, readings).trace ==> e.PwmWrite?
    decreases |readings|
  {
    if readings != [] {
      var first := ChargeBattery(b, s, readings[0].busVoltage, readings[0].current_mA);
      assert !Overloaded(readings[0]);
      forall j | 0 <= j < |readings| - 1
        ensures !Overloaded(readings[1..][j])
      {
        assert readings[1..][j] == readings[j + 1];
      }
      RunWithoutFault(b, first.state, readings[1..]);
    }
  }
}
