# LiPo charger control core, in Dafny

This project models the control logic of a single-cell LiPo charger sketch for
an Arduino board and proves properties of that model. It covers five parts of
the sketch:

- the CC/CV duty-cycle tick (`chargeBattery`) and `stopCharging`;
- the overload monitor (`checkSafety`) with its fixed 2.0 A / 4.2 V limits;
- the calibration routines (`calibrateVoltage`, `calibrateCurrent`,
  `calibrateSystem`, `saveSettingsToEEPROM`);
- the one-shot soft-start PWM ramp (`softStart`);
- the rotary-encoder menu (`handleMenu`).

Hardware calls are the boundary. Sensor readings, ADC counts and pin levels are
parameters. Every `analogWrite` to the PWM pin, `digitalWrite` to the load pin,
`analogRead` and `EEPROM.put` is an `Event` appended to a trace, in the order the
code issues it. `Hardware.Replay` gives a trace its effect on the board's outputs
(PWM duty, load level, EEPROM contents). Measurements are `real`. The process-wide
variables of the sketch are immutable records that each step returns anew. The
watchdog reset after an overload (`wdt_enable` followed by `while (1)`) is the
terminal phase `Shutdown`: no control step follows it.

Modules, by source file:

| module | file | source |
|---|---|---|
| `Hardware` | hardware.dfy | the Arduino calls the core makes; the board constants it takes from elsewhere |
| `ChargeState` | charge_state.dfy | the globals of src/Charging.h and `stopCharging` |
| `Safety` | safety.dfy | src/Safety.h |
| `Charging` | charging.dfy | `chargeBattery` in src/Charging.h |
| `Calibration` | calibration.dfy | src/Calibration.h |
| `Utils` | utils.dfy | `softStart` in src/Utils.h |
| `Menu` | menu.dfy | src/Menu.h |

`maxChargingVoltage`, `targetChargeCurrent` and `shuntResistance` are defined
outside the files modelled here. They are the fields of the parameter
`Hardware.Board`. Calibration requires `shuntResistance > 0`. The pin numbers do
not matter to the logic: each event names the pin by its role.

Points where the code does something a reader might not expect:

- `chargeBattery` never applies the calibration factors to its readings.
- `chargeBattery` repeats the overload test inline instead of calling
  `checkSafety`. `Charging.ChargeBatteryAgreesWithCheckSafety` proves that the two
  tests agree.
- `calibrateCurrent` sets the PWM to the constant 128, not back to the duty in
  force before. It also does not update `pwmDutyCycle`, so afterwards the pin
  and the variable can differ until the next tick.
- `softStart` writes the PWM pin directly and does not change `pwmDutyCycle`
  (0 at power-on). If it runs before the first tick, that tick drops the pin from
  255 to 1 or 0 (`Charging.FirstTickFromPowerOn`).
- With `maxChargingVoltage` at or above 4.2 V, every voltage above the charging
  voltage is an overload, so the CV decrease never runs and the tick shuts down
  instead (`Charging.CvLowerShadowedByOverload`).
- Neither calibration routine guards against a zero reading. There is no
  "keep the previous factor" fallback. The model makes a non-zero reading a
  precondition.
- None of the files modelled here loads the factors back from EEPROM; they only
  store them.
- The save is two separate `EEPROM.put` calls, one per factor.

## Model

| member | source | states |
|---|---|---|
| ChargeState.StopCharging | src/Charging.h:60-64 | the duty variable becomes 0; the events are PWM←0 and then load←LOW, nothing else; the readings and the phase stay |
| ChargeState.StopChargingIdempotent | src/Charging.h:60-64 | stopping twice leaves the same variables and the same board outputs as stopping once: PWM 0 and load LOW |
| Safety.CheckSafety | src/Safety.h:6-22 | a running charger shuts down exactly when current > 2.0 or voltage > 4.2; on fault the events are exactly PWM←0 then load←LOW, duty 0 and phase Shutdown; otherwise nothing changes and nothing is emitted |
| Safety.ThresholdsAreStrict | src/Safety.h:6-10 | readings exactly at 2.0 A and 4.2 V are not an overload; anything above either limit is |
| Safety.CheckSafetyOutputs | src/Safety.h:9-22 | on the board, a fault leaves PWM 0 and load LOW whatever they were before, and a non-fault check leaves every output as it was |
| Charging.SelectBranch | src/Charging.h:32-44 | the CC branches are taken exactly when the voltage is below the charging voltage; the CV `+1` branch at line 41 is never taken for any real reading |
| Charging.ChargeBattery | src/Charging.h:13-46 | the current kept is the mA reading / 1000; an overload (the safety monitor's test) gives duty 0, phase Shutdown and the events PWM←0, load←LOW; otherwise exactly one event, PWM← the new duty; from an in-range duty the new duty is in [0,255] and within 1 of the old one; in CC it rises (saturating at 255) below the target current, falls (saturating at 0) above it, and holds on it; in CV it never rises, falls above the charging voltage whatever the current, and holds at it |
| Charging.ChargeBatteryAgreesWithCheckSafety | src/Charging.h:17-29 | the inline overload test of a tick and `checkSafety` on the same readings agree: same shutdown decision, and on fault the same state and events; without a fault `checkSafety` would do nothing |
| Charging.CvLowerShadowedByOverload | src/Charging.h:18-40 | when the charging voltage is at least 4.2 V, any voltage above it shuts the charger down (PWM←0, load←LOW) instead of reaching the CV decrease |
| Charging.RunKeepsDutyInRange | src/Charging.h:31-46 | over any sequence of ticks from an in-range duty, every duty written to the PWM pin and the final duty stay in [0,255] |
| Charging.RunFromPowerOnKeepsDutyInRange | src/Charging.h:9-46 | from the power-on globals (duty 0), every duty written and the final duty of any run stay in [0,255] |
| Charging.FirstTickFromPowerOn | src/Charging.h:9-46 | the first tick from power-on leaves the duty at 0 or 1 and puts that duty on the pin, whatever the pin held before |
| Charging.RunPwmMatchesDuty | src/Charging.h:46 | after one or more ticks the duty on the PWM pin equals the duty variable, because every tick writes its duty even when unchanged |
| Charging.RunHaltsAtFirstFault | src/Charging.h:18-29 | when reading k is the first overload, the run ends in Shutdown with duty 0 and that reading's voltage and current (in A) kept; it emits k duty writes, then PWM←0 and load←LOW, and nothing after |
| Charging.RunWithoutFault | src/Charging.h:31-46 | a run without an overload keeps running and emits exactly one PWM write per reading |
| Calibration.AdcVolts | src/Calibration.h:20 | an ADC count maps to a voltage between 0 and the 1.1 V full scale, positive for a positive count |
| Calibration.CalibrateVoltage | src/Calibration.h:18-22 | for a positive reading the voltage factor becomes 1023/adc (so at least 1), the current factor is unchanged, and the only event is the read of A0 |
| Calibration.CalibrateCurrent | src/Calibration.h:31-45 | for a positive reading the current factor becomes 1023·shunt/(1.1·adc), positive, and the voltage factor is unchanged; the events are exactly PWM←0, load←HIGH, read A1, load←LOW, PWM←128 |
| Calibration.SaveStoresFactors | src/Calibration.h:54-57 | after the save, EEPROM offset 0 holds the voltage factor and offset 4 the current factor; no other key of the offset map, nor the PWM or the load, changes |
| Calibration.CalibrateSystem | src/Calibration.h:12-16 | the voltage read comes first, then the five current-calibration events, then the two puts; the pair saved is the pair just computed |
| Calibration.CalibrateSystemOutputs | src/Calibration.h:12-16 | after a full calibration the EEPROM is the old contents with the new factors at offsets 0 and 4, the PWM is 128 and the load is LOW, whatever the board held before |
| Calibration.FactorsStayPositive | src/Calibration.h:9-10 | the 1.0/1.0 defaults are positive, and each calibration from positive factors yields positive factors |
| Utils.SoftStart | src/Utils.h:6-15 | with the flag false, as it starts (`Utils.InitiallyComplete`), the call writes PWM 0,5,…,255 in order: 52 writes, each 5 above the last, all in [0,255], ending at 255; the completion flag is then set, and a call with the flag set writes nothing |
| Menu.HandleMenu | src/Menu.h:10-34 | the last CLK level becomes the sampled CLK; with CLK unchanged the encoder stays, otherwise it moves +1 when DT differs from CLK and −1 when it equals it; a press maps a menu state in 0..4 to (state+1) mod 5; no press, or a state outside 0..4, leaves it |
| Menu.PressesCycle | src/Menu.h:24-33 | k calls with the button pressed take a menu state in 0..4 to (state+k) mod 5 |
| Menu.FivePressesReturn | src/Menu.h:26-32 | five presses return the menu to its starting state |
| Menu.RunMenuInvariants | src/Menu.h:14-33 | from a menu state in 0..4, any sequence of calls keeps it in 0..4, remembers the last CLK sampled, and moves the encoder by at most one per call |
| Menu.MenuFromInitial | src/Menu.h:6-8 | the menu, encoder and last-CLK variables start at 0, and from there the menu state never leaves 0..4 |

## Left out

- LCD output, `tone`/`noTone` and `delay` calls, and the alert functions `startChargingAlert` and `stopChargingAlert` in src/Utils.h. They are display, sound and timing, with no effect on the control state.
- The INA219 driver, `analogRead` and `digitalRead`. These are calls into code outside the sketch. Their results are parameters.
- The watchdog reset itself. Only entry into the terminal `Shutdown` phase is modelled. Re-initialisation after the reset is not.
- The loop that calls `chargeBattery`. It is not part of the model. `Charging.Run` stands for any sequence of calls to it.
- The byte layout of the factors in EEPROM. Each `EEPROM.put` of a float writes four bytes, so offsets 0..7 change on the device; the model is a map from offset to factor, in which only keys 0 and 4 change.
- Loading the factors back, and any fallback for corrupt storage: none of the files modelled here loads the factors back or has a fallback for corrupt storage.
- Floating-point rounding, infinities and NaN. Readings and factors are reals, so `4.2` is exactly 4.2 here, while the 32-bit float constant is slightly below it. The proof that the branch at src/Charging.h:41 is dead holds for reals. With NaN readings every comparison is false in the code.
- Calibration.CalibrateVoltage: requires a positive ADC reading. With a zero reading the code divides by zero and stores an infinite factor, which reals cannot represent.
- Calibration.CalibrateCurrent: requires a positive ADC reading and a positive shunt resistance, for the same reason.
- Calibration.CalibrateSystem: requires both readings positive, as its two steps do.
- Menu.HandleMenu: does not model 16-bit wrap-around of `encoderValue`. Signed overflow is undefined in C++, and the encoder would need more than 32767 steps in one direction.
- Charging.ChargeBattery: its range and step-size properties assume the prior duty is in [0,255]. The code holds an out-of-range duty unchanged in the "hold" branches, which the contract does not exclude. Every duty reachable from power-on is in range (`Charging.RunFromPowerOnKeepsDutyInRange`).
