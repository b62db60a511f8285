/** The ADC-sample-to-temperature transform of the thermocouple reader
    (`ADCthermocouple::adc_value_to_temperature`), over exact reals. */
module Conversion {
  import opened Temperature

  /** The C++ `uint32_t` of the sample argument and of the ADC maximum. */
  newtype uint32 = x: int | 0 <= x < 0x1_0000_0000

  /** The C++ `int` returned by the ADC read. */
  newtype int32 = x: int | -0x8000_0000 <= x < 0x8000_0000

  /** Passing an `int` where a `uint32_t` is expected: reduction modulo 2^32. */
  function AsUint32(v: int32): (u: uint32)
    ensures v >= 0 ==> u as int == v as int
    ensures v < 0 ==> u as int == v as int + 0x1_0000_0000
  {
    (v as int % 0x1_0000_0000) as uint32
  }

  /** Full-scale reference voltage of the ADC, in volts. */
  const ReferenceVoltage: real := 3.3

  /** Millivolts per volt. */
  const MillivoltsPerVolt: real := 1000.0

  /** Sample to temperature: +infinity for a sample at or above the ADC
      ceiling, otherwise counts -> volts -> millivolts -> degrees, times the
      gain, minus the offset. */
  function AdcValueToTemperature(adcValue: uint32, maxAdcValue: uint32,
                                 offset: real, gain: real, mvPerC: real): (t: Temp)
    requires adcValue < maxAdcValue ==> mvPerC != 0.0
    ensures t == PosInf <==> adcValue >= maxAdcValue
    ensures t.Fin? ==> maxAdcValue > 0 && adcValue < maxAdcValue
  {
    if adcValue >= maxAdcValue then PosInf
    else
      var vin := (adcValue as real * ReferenceVoltage) / maxAdcValue as real;
      Fin((vin * MillivoltsPerVolt) / mvPerC * gain - offset)
  }

  /** A sample at or above the ceiling reads +infinity for every offset, gain
      and sensitivity, zero sensitivity included: the fault branch returns
      before any division. */
  lemma OpenCircuitForAnyCalibration(adcValue: uint32, maxAdcValue: uint32, offset: real, gain: real,
                                     mvPerC: real)
    requires adcValue >= maxAdcValue
    ensures AdcValueToTemperature(adcValue, maxAdcValue, offset, gain, mvPerC) == PosInf
  {
  }

  /** Degrees per ADC count: the slope of the finite branch. */
  function Slope(maxAdcValue: uint32, gain: real, mvPerC: real): (s: real)
    requires maxAdcValue > 0 && mvPerC != 0.0
  {
    ReferenceVoltage * MillivoltsPerVolt * gain / (maxAdcValue as real * mvPerC)
  }

  /** Below the ceiling the transform is affine in the sample: slope times
      sample, minus the offset. */
  lemma AffineInSample(adcValue: uint32, maxAdcValue: uint32, offset: real, gain: real, mvPerC: real)
    requires adcValue < maxAdcValue && mvPerC != 0.0
    ensures AdcValueToTemperature(adcValue, maxAdcValue, offset, gain, mvPerC)
            == Fin(adcValue as real * Slope(maxAdcValue, gain, mvPerC) - offset)
  {
    var a, m := adcValue as real, maxAdcValue as real;
    var vin := (a * ReferenceVoltage) / m;
    calc {
      (vin * MillivoltsPerVolt) / mvPerC * gain;
      a * ReferenceVoltage * MillivoltsPerVolt / (m * mvPerC) * gain;
      a * (ReferenceVoltage * MillivoltsPerVolt * gain / (m * mvPerC));
    }
  }

  /** A zero sample with a positive ceiling reads exactly minus the offset,
      whatever the gain and sensitivity. */
  lemma ZeroSampleReadsMinusOffset(maxAdcValue: uint32, offset: real, gain: real, mvPerC: real)
    requires maxAdcValue > 0 && mvPerC != 0.0
    ensures AdcValueToTemperature(0, maxAdcValue, offset, gain, mvPerC) == Fin(-offset)
  {
  }

  /** Scaling the gain by `k` scales the pre-offset term by `k` exactly. */
  lemma GainScalesPreOffsetTerm(adcValue: uint32, maxAdcValue: uint32, offset: real, gain: real,
                                mvPerC: real, k: real)
    requires adcValue < maxAdcValue && mvPerC != 0.0
    ensures AdcValueToTemperature(adcValue, maxAdcValue, offset, k * gain, mvPerC).r + offset
            == k * (AdcValueToTemperature(adcValue, maxAdcValue, offset, gain, mvPerC).r + offset)
  {
    AffineInSample(adcValue, maxAdcValue, offset, gain, mvPerC);
    AffineInSample(adcValue, maxAdcValue, offset, k * gain, mvPerC);
    var m := maxAdcValue as real;
    assert Slope(maxAdcValue, k * gain, mvPerC) == k * Slope(maxAdcValue, gain, mvPerC) by {
      assert ReferenceVoltage * MillivoltsPerVolt * (k * gain) / (m * mvPerC)
          == k * (ReferenceVoltage * MillivoltsPerVolt * gain / (m * mvPerC));
    }
  }

  /** The slope is non-negative when gain and sensitivity share a sign. */
  lemma SlopeNonNegative(maxAdcValue: uint32, gain: real, mvPerC: real)
    requires maxAdcValue > 0 && mvPerC != 0.0 && gain * mvPerC >= 0.0
    ensures Slope(maxAdcValue, gain, mvPerC) >= 0.0
  {
    var m := maxAdcValue as real;
    var c := ReferenceVoltage * MillivoltsPerVolt * gain;
    var s := Slope(maxAdcValue, gain, mvPerC);
    assert s * (m * mvPerC) == c;
    if mvPerC > 0.0 {
      assert gain >= 0.0;
      assert m * mvPerC > 0.0;
    } else {
      assert gain <= 0.0;
      assert m * mvPerC < 0.0;
    }
  }

  /** With gain and sensitivity of the same sign, a larger sample never reads
      colder; every sample at or above the ceiling reads hottest. */
  lemma MonotoneInSample(a: uint32, b: uint32, maxAdcValue: uint32, offset: real, gain: real, mvPerC: real)
    requires a <= b && (a < maxAdcValue ==> mvPerC != 0.0) && gain * mvPerC >= 0.0
    ensures AtMost(AdcValueToTemperature(a, maxAdcValue, offset, gain, mvPerC),
                   AdcValueToTemperature(b, maxAdcValue, offset, gain, mvPerC))
  {
    if b < maxAdcValue {
      AffineInSample(a, maxAdcValue, offset, gain, mvPerC);
      AffineInSample(b, maxAdcValue, offset, gain, mvPerC);
      var m := maxAdcValue as real;
      var s := Slope(maxAdcValue, gain, mvPerC);
      SlopeNonNegative(maxAdcValue, gain, mvPerC);
      assert a as real * s <= b as real * s;
    }
  }

  /** The sample (as a real) that the finite branch maps to temperature `temp`:
      the inverse of the transform when the gain is non-zero. */
  function SampleFor(temp: real, maxAdcValue: uint32, offset: real, gain: real, mvPerC: real): (sample: real)
    requires maxAdcValue > 0 && gain != 0.0 && mvPerC != 0.0
  {
    (temp + offset) * mvPerC * maxAdcValue as real / (ReferenceVoltage * MillivoltsPerVolt * gain)
  }

  /** Any finite reading recovers its sample through `SampleFor`. */
  lemma SampleForRecoversSample(adcValue: uint32, maxAdcValue: uint32, offset: real, gain: real, mvPerC: real)
    requires adcValue < maxAdcValue && gain != 0.0 && mvPerC != 0.0
    ensures SampleFor(AdcValueToTemperature(adcValue, maxAdcValue, offset, gain, mvPerC).r,
                      maxAdcValue, offset, gain, mvPerC) == adcValue as real
  {
    AffineInSample(adcValue, maxAdcValue, offset, gain, mvPerC);
    var a, m := adcValue as real, maxAdcValue as real;
    var c := ReferenceVoltage * MillivoltsPerVolt * gain;
    var s := Slope(maxAdcValue, gain, mvPerC);
    assert s * (m * mvPerC) == c;
    calc {
      (a * s - offset + offset) * mvPerC * m / c;
      a * (s * (m * mvPerC)) / c;
      a * c / c;
      a;
    }
  }

  /** Conversely, a temperature whose `SampleFor` is a sample below the
      ceiling is exactly what that sample reads. */
  lemma SampleForIsReadBack(temp: real, adcValue: uint32, maxAdcValue: uint32, offset: real,
                            gain: real, mvPerC: real)
    requires adcValue < maxAdcValue && gain != 0.0 && mvPerC != 0.0
    requires SampleFor(temp, maxAdcValue, offset, gain, mvPerC) == adcValue as real
    ensures AdcValueToTemperature(adcValue, maxAdcValue, offset, gain, mvPerC) == Fin(temp)
  {
    AffineInSample(adcValue, maxAdcValue, offset, gain, mvPerC);
    var m := maxAdcValue as real;
    var c := ReferenceVoltage * MillivoltsPerVolt * gain;
    var s := Slope(maxAdcValue, gain, mvPerC);
    assert s * (m * mvPerC) == c;
    calc {
      adcValue as real * s - offset;
      (temp + offset) * mvPerC * m / c * s - offset;
      (temp + offset) * (s * (m * mvPerC)) / c - offset;
      (temp + offset) * c / c - offset;
      temp;
    }
  }

  /** Default calibration, a 12-bit ceiling of 4096 and a sample of 1241:
      409530/4096 = 99.98291015625 degrees. */
  lemma DefaultCalibrationExample()
    ensures AdcValueToTemperature(1241, 4096, 0.0, 1.0, 10.0) == Fin(409530.0 / 4096.0)
    ensures 99.98 < AdcValueToTemperature(1241, 4096, 0.0, 1.0, 10.0).r < 99.99
  {
  }
}
