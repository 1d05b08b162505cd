/**
 The one-shot soft-start ramp of Utils.h. The first call writes the PWM duties
 0, 5, 10, ..., 255 in order and then sets its completion flag; every later call
 finds the flag set and writes nothing. The 50 ms pause after each write is timing
 only and is not modelled; the function-local static flag is passed in and out.
 */
module Utils {
  import opened Hardware

  const RAMP_STEP: int := 5

  /** The static completion flag before the first call. */
  const InitiallyComplete: bool := false

  /** The k-th duty the ramp writes. */
  function RampDuty(k: nat): int {
    RAMP_STEP * k
  }

  method SoftStart(complete: bool) returns (completeAfter: bool, trace: seq<Event>)
    ensures completeAfter
    ensures complete ==> trace == []
    ensures !complete ==> |trace| == 52
    ensures !complete ==> forall k :: 0 <= k < |trace| ==> trace[k] == PwmWrite(RampDuty(k))
    ensures !complete ==> trace[|trace| - 1] == PwmWrite(PWM_MAX)
    ensures forall k :: 0 <= k < |trace| ==> trace[k].PwmWrite? && InDutyRange(trace[k].duty)
    ensures forall k :: 0 < k < |trace| ==> trace[k].duty == trace[k - 1].duty + RAMP_STEP
  {
    completeAfter := complete;
    trace := [];
    if !completeAfter {
      var pwm := 0;
      while pwm <= 255
        invariant 0 <= pwm <= 260
        invariant pwm == RAMP_STEP * |trace|
        invariant forall k :: 0 <= k < |trace| ==> trace[k] == PwmWrite(RampDuty(k))
        decreases 260 - pwm
      {
        trace := trace + [PwmWrite(pwm)];
        pwm := pwm + RAMP_STEP;
      }
      completeAfter := true;
    }
  }
}
