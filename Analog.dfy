/** ADC readings and their conversion to volts (src/main.cpp:39-40, 212, 413). */
module Analog {

  const ADC_REF_V: real := 3.3
  const ADC_MAX: int := 4095

  /** What analogRead returns: a `uint16_t`. */
  type U16 = x: int | 0 <= x < 0x1_0000

  /** `(adc * ADC_REF_V) / ADC_MAX`, in exact arithmetic. */
  function ToVoltage(adc: U16): (v: real)
    ensures 0.0 <= v
    ensures adc <= ADC_MAX ==> v <= ADC_REF_V
    ensures adc == 0 <==> v == 0.0
  {
    (adc as real * ADC_REF_V) / ADC_MAX as real
  }
}
