/**
 The boundary between the charger's control logic and the board.

 The calls that drive the PWM and load pins, read the ADC or write the EEPROM
 are modelled as `Event`s: `analogWrite` on the LM2596 PWM pin, `digitalWrite`
 on the load pin, `analogRead` of an analog channel (the value read is an input
 of the caller, only the fact and the order of the read are recorded) and
 `EEPROM.put`. Pin reads, delays, tones and the watchdog are not events.
 `Replay` gives those events their meaning on the board's `Outputs`.
 */
module Hardware {

  /** `analogWrite` takes an 8-bit duty cycle. */
  const PWM_MIN: int := 0
  const PWM_MAX: int := 255

  predicate InDutyRange(d: int) {
    PWM_MIN <= d <= PWM_MAX
  }

  /** Digital pin levels as `digitalRead` returns them and `digitalWrite` takes them. */
  const LOW: int := 0
  const HIGH: int := 1
  type PinLevel = x: int | LOW <= x <= HIGH

  /** The 10-bit result of `analogRead`. */
  const ADC_MAX: int := 1023
  type AdcCount = x: int | 0 <= x <= ADC_MAX

  datatype AnalogPin = A0 | A1

  datatype Event =
    | PwmWrite(duty: int)               // analogWrite(LM2596_PWM_PIN, duty)
    | LoadWrite(level: PinLevel)        // digitalWrite(LOAD_PIN, level)
    | AdcSample(pin: AnalogPin)         // analogRead(pin)
    | EepromPut(offset: nat, value: real) // EEPROM.put(offset, value)

  /** What the board holds: the last PWM duty, the load pin level and the EEPROM,
      one stored factor per offset. */
  datatype Outputs = Outputs(pwm: int, load: PinLevel, eeprom: map<nat, real>)

  /** Constants the sketch defines outside the files modelled here. */
  datatype Board = Board(maxChargingVoltage: real, targetChargeCurrent: real, shuntResistance: real)

  predicate ValidBoard(b: Board) {
    b.shuntResistance > 0.0
  }

  function Apply(o: Outputs, e: Event): Outputs {
    match e
    case PwmWrite(d) => o.(pwm := d)
    case LoadWrite(l) => o.(load := l)
    case AdcSample(_) => o
    case EepromPut(k, v) => o.(eeprom := o.eeprom[k := v])
  }

  /** The outputs after the events of `trace` have been carried out in order. */
  function Replay(o: Outputs, trace: seq<Event>): Outputs
    decreases |trace|
  {
    if trace == [] then o else Replay(Apply(o, trace[0]), trace[1..])
  }

  /** Carrying out two traces one after the other is carrying out their concatenation. */
  lemma {:induction false} ReplayAppend(o: Outputs, t1: seq<Event>, t2: seq<Event>)
    ensures Replay(o, t1 + t2) == Replay(Replay(o, t1), t2)
    decreases |t1|
  {
    if t1 == [] {
      assert t1 + t2 == t2;
    } else {
      assert (t1 + t2)[0] == t1[0];
      assert (t1 + t2)[1..] == t1[1..] + t2;
      ReplayAppend(Apply(o, t1[0]), t1[1..], t2);
    }
  }

  /** Carrying out one event is applying it. */
  lemma ReplaySingle(o: Outputs, e: Event)
    ensures Replay(o, [e]) == Apply(o, e)
  {
  }

  /** Carrying out two events is applying the first, then the second. */
  lemma ReplayPair(o: Outputs, e1: Event, e2: Event)
    ensures Replay(o, [e1, e2]) == Apply(Apply(o, e1), e2)
  {
    assert [e1, e2][1..] == [e2];
    ReplaySingle(Apply(o, e1), e2);
  }

  /** A trace that ends with a PWM write leaves exactly that duty on the pin. */
  lemma LastPwmWriteWins(o: Outputs, t: seq<Event>, d: int)
    ensures Replay(o, t + [PwmWrite(d)]).pwm == d
  {
    ReplayAppend(o, t, [PwmWrite(d)]);
    ReplaySingle(Replay(o, t), PwmWrite(d));
  }

  /** A trace that ends with a load write leaves exactly that level on the load pin. */
  lemma LastLoadWriteWins(o: Outputs, t: seq<Event>, l: PinLevel)
    ensures Replay(o, t + [LoadWrite(l)]).load == l
  {
    ReplayAppend(o, t, [LoadWrite(l)]);
    ReplaySingle(Replay(o, t), LoadWrite(l));
  }
}
