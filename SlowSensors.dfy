/**
 * The thermocouple task (src/main.cpp:357-389) and the infrared task
 * (src/main.cpp:391-433), one loop pass each, with the sensor readings as
 * inputs.
 */
module SlowSensors {
  import opened Analog

  /** The readings the infrared task averages per pass. */
  const IR_SAMPLES: nat := 10
  /** The temperature the infrared sensor's linear formula gives at 0 V. */
  const IR_OFFSET: real := 6.94
  const IR_GAIN: real := 58.82
  /** The thermocouple cap that the source assigns and then overwrites. */
  const THERMO_CAP: real := 85.0

  /** The infrared sensor's linear voltage-to-temperature formula. */
  function IrTemperature(adc: U16): (t: real)
    ensures t >= IR_OFFSET
    ensures adc <= ADC_MAX ==> t <= IR_GAIN * ADC_REF_V + IR_OFFSET
  {
    IR_GAIN * ToVoltage(adc) + IR_OFFSET
  }

  /** The temperatures of the readings, summed from first to last. */
  function SumTemperatures(adcs: seq<U16>): real {
    if adcs == [] then 0.0
    else SumTemperatures(adcs[..|adcs| - 1]) + IrTemperature(adcs[|adcs| - 1])
  }

  /**
   * The average of one pass, clamped to 0 below the formula's floor. In
   * exact arithmetic every converted reading is at least the floor, so the
   * clamp is never reached: the value is the plain average and lies between
   * the formula's values for 0 V and full scale. Only floating-point
   * rounding could reach the clamp.
   */
  function IrReading(adcs: seq<U16>): (t: real)
    requires |adcs| == IR_SAMPLES
    ensures t == SumTemperatures(adcs) / IR_SAMPLES as real
    ensures t >= IR_OFFSET
    ensures (forall i :: 0 <= i < |adcs| ==> adcs[i] <= ADC_MAX) ==> t <= IR_GAIN * ADC_REF_V + IR_OFFSET
  {
    SumTemperaturesBounds(adcs);
    var avg := SumTemperatures(adcs) / IR_SAMPLES as real;
    if avg < IR_OFFSET then 0.0 else avg
  }

  lemma {:induction false} SumTemperaturesBounds(adcs: seq<U16>)
    ensures SumTemperatures(adcs) >= |adcs| as real * IR_OFFSET
    ensures (forall i :: 0 <= i < |adcs| ==> adcs[i] <= ADC_MAX) ==>
            SumTemperatures(adcs) <= |adcs| as real * (IR_GAIN * ADC_REF_V + IR_OFFSET)
  {
    if adcs != [] {
      SumTemperaturesBounds(adcs[..|adcs| - 1]);
    }
  }

  /** The accumulation loop of one infrared pass (src/main.cpp:405-419). */
  method AverageIrTemperature(adcs: seq<U16>) returns (avg: real)
    requires |adcs| == IR_SAMPLES
    ensures avg == SumTemperatures(adcs) / IR_SAMPLES as real
  {
    var irTempSum := 0.0;
    for i := 0 to IR_SAMPLES
      invariant irTempSum == SumTemperatures(adcs[..i])
    {
      assert adcs[..i + 1][..i] == adcs[..i];
      var irVoltage := ToVoltage(adcs[i]);
      var temp := IR_GAIN * irVoltage + IR_OFFSET;
      irTempSum := irTempSum + temp;
    }
    assert adcs[..IR_SAMPLES] == adcs;
    avg := irTempSum / IR_SAMPLES as real;
  }

  /** The infrared task's shared value. */
  class IrSensor {
    var irTemperature: real

    constructor ()
      ensures irTemperature == 0.0
    {
      irTemperature := 0.0;
    }

    /** One pass of the task's loop, `adcs` being its ten readings of the IR pin. */
    method Poll(adcs: seq<U16>)
      requires |adcs| == IR_SAMPLES
      modifies this
      ensures irTemperature == IrReading(adcs)
      ensures irTemperature == 0.0 || irTemperature >= IR_OFFSET
    {
      irTemperature := AverageIrTemperature(adcs);
      if irTemperature < IR_OFFSET {
        irTemperature := 0.0;
      }
    }
  }

  /** The thermocouple task's shared value. */
  class Thermocouple {
    var temperatureC: real

    constructor ()
      ensures temperatureC == 0.0
    {
      temperatureC := 0.0;
    }

    /**
     * One pass of the task's loop with `reading` from the sensor. The cap is
     * assigned and then immediately overwritten, so the stored value is the
     * reading itself, above the cap too.
     */
    method Poll(reading: real)
      modifies this
      ensures temperatureC == reading
    {
      if reading > THERMO_CAP {
        temperatureC := THERMO_CAP;
      }
      temperatureC := reading;
    }
  }
}
