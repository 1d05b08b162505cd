/**
 The calibration routines of Calibration.h.

 Both factors start at 1.0. Voltage calibration reads A0, where a known
 1.1 V is expected, converts the count with a 1.1 V full scale and sets the
 voltage factor to 1.1 V over the measured voltage. Current calibration cuts the PWM, switches the test load on, reads
 the shunt voltage on A1, releases the load and sets the PWM to the fixed duty
 128; the current factor is the expected 1.0 A over the current derived from
 the shunt by Ohm's law. A full calibration runs both and then stores the voltage
 factor at EEPROM offset 0 and the current factor at offset 4.

 Neither routine guards its division: a zero ADC reading is excluded by
 precondition here, and no fallback to the previous factor exists.
 */
module Calibration {
  import opened Hardware

  datatype Factors = Factors(voltage: real, current: real)

  /** Identity calibration, in force until a calibration runs. */
  const Defaults: Factors := Factors(1.0, 1.0)

  const ADC_REFERENCE_VOLTS: real := 1.1      // full scale of analogRead
  const KNOWN_REFERENCE_VOLTS: real := 1.1    // the reference voltage calibrated against
  const EXPECTED_CURRENT: real := 1.0         // amperes through the test load
  const CALIBRATION_DUTY: int := 128          // PWM duty written after current calibration
  const VOLTAGE_FACTOR_OFFSET: nat := 0
  const CURRENT_FACTOR_OFFSET: nat := 4

  predicate Positive(f: Factors) {
    f.voltage > 0.0 && f.current > 0.0
  }

  /** A calibration's new factors and the events it emitted, in order. */
  datatype Calibrated = Calibrated(factors: Factors, trace: seq<Event>)

  /** The voltage an ADC count stands for: `(adc / 1023.0) * 1.1`. */
  function AdcVolts(adc: AdcCount): (v: real)
    ensures 0.0 <= v <= ADC_REFERENCE_VOLTS
    ensures adc > 0 ==> v > 0.0
  {
    (adc as real / ADC_MAX as real) * ADC_REFERENCE_VOLTS
  }

  /** `calibrateVoltage`: one read of A0, a new voltage factor, the current factor untouched. */
  function CalibrateVoltage(f: Factors, adc: AdcCount): (r: Calibrated)
    requires adc > 0
    ensures r.factors.voltage == 1023.0 / adc as real
    ensures r.factors.voltage >= 1.0
    ensures r.factors.current == f.current
    ensures r.trace == [AdcSample(A0)]
  {
    var measuredVoltage := AdcVolts(adc);
    Calibrated(f.(voltage := KNOWN_REFERENCE_VOLTS / measuredVoltage), [AdcSample(A0)])
  }

  /** `calibrateCurrent`: PWM off, load on, read A1, load off, PWM to 128; a new current
      factor, the voltage factor untouched. The final duty does not depend on the
      duty in force before, and the controller's duty variable is not written. */
  function CalibrateCurrent(b: Board, f: Factors, adc: AdcCount): (r: Calibrated)
    requires ValidBoard(b)
    requires adc > 0
    ensures r.factors.current == 1023.0 * b.shuntResistance / (1.1 * adc as real)
    ensures r.factors.current > 0.0
    ensures r.factors.voltage == f.voltage
    ensures r.trace == [PwmWrite(0), LoadWrite(HIGH), AdcSample(A1), LoadWrite(LOW), PwmWrite(128)]
  {
    var measuredShuntVoltage := AdcVolts(adc);
    var measuredCurrent := measuredShuntVoltage / b.shuntResistance;
    var trace := [PwmWrite(0), LoadWrite(HIGH), AdcSample(A1), LoadWrite(LOW), PwmWrite(CALIBRATION_DUTY)];
    Calibrated(f.(current := EXPECTED_CURRENT / measuredCurrent), trace)
  }

  /** `saveSettingsToEEPROM`: the two puts, voltage factor first. */
  function SaveSettings(f: Factors): seq<Event> {
    [EepromPut(VOLTAGE_FACTOR_OFFSET, f.voltage), EepromPut(CURRENT_FACTOR_OFFSET, f.current)]
  }

  /** Saving stores the voltage factor at offset 0 and the current factor at offset 4,
      and changes no other key of the offset map (the byte layout of the floats, which
      spans offsets 0..7, is not modelled), nor the PWM or the load pin. */
  lemma SaveStoresFactors(o: Outputs, f: Factors)
    ensures var after := Replay(o, SaveSettings(f));
            && 0 in after.eeprom && after.eeprom[0] == f.voltage
            && 4 in after.eeprom && after.eeprom[4] == f.current
            && after.eeprom.Keys == o.eeprom.Keys + {0, 4}
            && (forall k :: k in o.eeprom && k != 0 && k != 4 ==> after.eeprom[k] == o.eeprom[k])
            && after.pwm == o.pwm && after.load == o.load
  {
    ReplayPair(o, EepromPut(0, f.voltage), EepromPut(4, f.current));
  }

  /** `calibrateSystem`: voltage calibration, then current calibration, then the save. */
  function CalibrateSystem(b: Board, f: Factors, adcReference: AdcCount, adcShunt: AdcCount): (r: Calibrated)
    requires ValidBoard(b)
    requires adcReference > 0 && adcShunt > 0
    ensures r.factors == Factors(1023.0 / adcReference as real,
                                 1023.0 * b.shuntResistance / (1.1 * adcShunt as real))
    ensures Positive(r.factors)
    ensures |r.trace| == 8
    ensures r.trace[0] == AdcSample(A0)
    ensures r.trace[1..6] == [PwmWrite(0), LoadWrite(HIGH), AdcSample(A1), LoadWrite(LOW), PwmWrite(128)]
    ensures r.trace[6..] == [EepromPut(0, r.factors.voltage), EepromPut(4, r.factors.current)]
  {
    var v := CalibrateVoltage(f, adcReference);
    var c := CalibrateCurrent(b, v.factors, adcShunt);
    Calibrated(c.factors, v.trace + c.trace + SaveSettings(c.factors))
  }

  /** After a full calibration the EEPROM holds exactly the pair just computed, the PWM
      is at 128 and the load is released, whatever the board held before. */
  lemma CalibrateSystemOutputs(b: Board, f: Factors, adcReference: AdcCount, adcShunt: AdcCount, o: Outputs)
    requires ValidBoard(b)
    requires adcReference > 0 && adcShunt > 0
    ensures var r := CalibrateSystem(b, f, adcReference, adcShunt);
            var after := Replay(o, r.trace);
            && after.eeprom == o.eeprom[0 := r.factors.voltage][4 := r.factors.current]
            && after.pwm == CALIBRATION_DUTY
            && after.load == LOW
  {
    var r := CalibrateSystem(b, f, adcReference, adcShunt);
    var head := r.trace[..6];
    assert r.trace == head + SaveSettings(r.factors);
    ReplayAppend(o, head, SaveSettings(r.factors));
    var mid := Replay(o, head);
    assert head == head[..5] + [PwmWrite(128)];
    assert head[..5] == head[..4] + [LoadWrite(LOW)];
    LastPwmWriteWins(o, head[..5], 128);
    ReplayAppend(o, head[..5], [PwmWrite(128)]);
    ReplaySingle(Replay(o, head[..5]), PwmWrite(128));
    LastLoadWriteWins(o, head[..4], LOW);
    ReplayEepromUnchanged(o, head);
    SaveStoresFactors(mid, r.factors);
  }

  /** A trace without EEPROM puts leaves the EEPROM as it was. */
  lemma {:induction false} ReplayEepromUnchanged(o: Outputs, t: seq<Event>)
    requires forall e :: e in t ==> !e.EepromPut?
    ensures Replay(o, t).eeprom == o.eeprom
    decreases |t|
  {
    if t != [] {
      assert t[0] in t;
      assert forall e :: e in t[1..] ==> e in t;
      ReplayEepromUnchanged(Apply(o, t[0]), t[1..]);
    }
  }

  /** Both factors stay strictly positive: the defaults are, and every calibration
      produces positive factors from positive ones. */
  lemma FactorsStayPositive(b: Board, f: Factors, adc: AdcCount)
    requires ValidBoard(b) && Positive(f) && adc > 0
    ensures Positive(Defaults)
    ensures Positive(CalibrateVoltage(f, adc).factors)
    ensures Positive(CalibrateCurrent(b, f, adc).factors)
  {
  }
}
