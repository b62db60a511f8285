# ADC thermocouple reader

A Dafny model of Smoothieware's `ADCthermocouple` temperature sensor
(`src/modules/tools/temperaturecontrol/ADCthermocouple.cpp`). The sensor turns
a raw ADC sample from a thermocouple amplifier into degrees Celsius through a
linear calibration (offset, gain, millivolts per degree), reports an
open-circuit sensor as +infinity, and keeps the minimum and maximum reading
seen since construction or since the last `get_raw` diagnostic (used by M305).

Files:

- `temperature.dfy` — module `Temperature`: a reading is `Fin(r)` or
  `PosInf` (the float +infinity); `Less`/`AtMost` are the float comparisons
  with +infinity on top; `Raise`/`Lower` are the two conditional updates of
  `get_temperature`.
- `extrema.dfy` — module `Extrema`: `Highest`/`Lowest` fold a sequence of
  readings into the window's ends, and say that the result is the largest
  (smallest) of the seed and the readings.
- `conversion.dfy` — module `Conversion`: `AdcValueToTemperature` over exact
  reals, with the C++ integer types `uint32`/`int32`, and its properties:
  fault iff the sample reaches the ceiling, affine below it, the zero sample,
  gain scaling, monotonicity, and an inverse (`SampleFor`) proved in both
  directions.
- `thermocouple.dfy` — module `Thermocouple`: class `ADCThermocouple` with
  the calibration fields and `minTemp`/`maxTemp`, and ghost fields recording
  the window's seeds and the readings since it was last set; `Valid()` says
  the stored extrema are `Lowest`/`Highest` of that history.

Two consequences of the code worth knowing:

- The initial extrema (999, 0) are not sentinels that every first reading
  replaces: a first reading below 0 leaves `max_temp` at 0 and one above 999
  leaves `min_temp` at 999, so after a run of readings the window is
  min(999, readings) / max(0, readings) (`FirstReadingReplacesBoth`,
  `ColdReadingsKeepSentinelMax`).
- With the default calibration, a ceiling of 4096 and a sample of 1241, the
  code reads 409530/4096 = 99.98291015625 degrees
  (`DefaultCalibrationExample`).

## Model

| member | source | states |
|---|---|---|
| Temperature.LessIsStrictTotalOrder | src/modules/tools/temperaturecontrol/ADCthermocouple.cpp:58-61 | the comparison used by the min/max updates is irreflexive, transitive and total over finite readings and +infinity |
| Temperature.Raise | src/modules/tools/temperaturecontrol/ADCthermocouple.cpp:58-59 | the new maximum is at least the old maximum and the reading, and is one of the two |
| Temperature.Lower | src/modules/tools/temperaturecontrol/ADCthermocouple.cpp:60-61 | the new minimum is at most the old minimum and the reading, and is one of the two |
| Extrema.Highest | src/modules/tools/temperaturecontrol/ADCthermocouple.cpp:56-59 | after any run of readings the maximum is the largest of its starting value and every reading: an upper bound that is attained |
| Extrema.Lowest | src/modules/tools/temperaturecontrol/ADCthermocouple.cpp:56-61 | after any run of readings the minimum is the smallest of its starting value and every reading: a lower bound that is attained |
| Extrema.ExtendWindow | src/modules/tools/temperaturecontrol/ADCthermocouple.cpp:58-61 | one more reading changes the window exactly by one conditional update of each end |
| Conversion.AsUint32 | src/modules/tools/temperaturecontrol/ADCthermocouple.cpp:67-69 | the `int` sample passed as `uint32_t` keeps non-negative values and wraps negative ones by 2^32 |
| Conversion.AdcValueToTemperature | src/modules/tools/temperaturecontrol/ADCthermocouple.cpp:77-87 | the result is +infinity exactly when the sample is at or above the ADC ceiling; a finite result implies a ceiling above the sample, so the division by it is by a positive number; only the finite branch needs a non-zero mv_per_c |
| Conversion.OpenCircuitForAnyCalibration | src/modules/tools/temperaturecontrol/ADCthermocouple.cpp:79-81 | a sample at or above the ceiling reads +infinity for every offset, gain and mv_per_c, zero mv_per_c included |
| Conversion.AffineInSample | src/modules/tools/temperaturecontrol/ADCthermocouple.cpp:83-84 | below the ceiling the temperature is sample times 3.3*1000*gain/(max*mv_per_c), minus offset |
| Conversion.ZeroSampleReadsMinusOffset | src/modules/tools/temperaturecontrol/ADCthermocouple.cpp:83-84 | a zero sample with a positive ceiling reads exactly minus the offset |
| Conversion.GainScalesPreOffsetTerm | src/modules/tools/temperaturecontrol/ADCthermocouple.cpp:84 | multiplying the gain by k multiplies the pre-offset term by k exactly |
| Conversion.SlopeNonNegative | src/modules/tools/temperaturecontrol/ADCthermocouple.cpp:83-84 | the degrees-per-count slope is non-negative when gain and mv_per_c share a sign |
| Conversion.MonotoneInSample | src/modules/tools/temperaturecontrol/ADCthermocouple.cpp:80-84 | with gain and mv_per_c of the same sign, a larger sample never reads colder, +infinity included; mv_per_c may be 0 when both samples are at or above the ceiling |
| Conversion.SampleForRecoversSample | src/modules/tools/temperaturecontrol/ADCthermocouple.cpp:83-84 | with non-zero gain, every finite reading determines its sample: the inverse transform returns it |
| Conversion.SampleForIsReadBack | src/modules/tools/temperaturecontrol/ADCthermocouple.cpp:83-84 | conversely, a temperature whose inverse is a sample below the ceiling is exactly what that sample reads |
| Conversion.DefaultCalibrationExample | src/modules/tools/temperaturecontrol/ADCthermocouple.cpp:77-87 | defaults 0/1/10, ceiling 4096, sample 1241 read 409530/4096, between 99.98 and 99.99 |
| Thermocouple.FirstReadingReplacesBoth | src/modules/tools/temperaturecontrol/ADCthermocouple.cpp:33-61 | from the fresh window (999, 0), one reading becomes both extrema if and only if it lies between 0 and 999 |
| Thermocouple.ColdReadingsKeepSentinelMax | src/modules/tools/temperaturecontrol/ADCthermocouple.cpp:34-59 | after construction, every run of readings all below 0 leaves the maximum at the initial 0, which is none of the readings |
| Thermocouple.ADCThermocouple.constructor | src/modules/tools/temperaturecontrol/ADCthermocouple.cpp:31-35 | a fresh sensor has min_temp 999 and max_temp 0, and an empty window history |
| Thermocouple.ADCThermocouple.UpdateConfig | src/modules/tools/temperaturecontrol/ADCthermocouple.cpp:47-49 | each calibration constant takes its configured value or, when absent, 0 (offset), 1 (gain), 10 (mv_per_c); the extrema are untouched and the window invariant is kept |
| Thermocouple.ADCThermocouple.GetTemperature | src/modules/tools/temperaturecontrol/ADCthermocouple.cpp:54-63 | returns the conversion of the sample; afterwards min_temp <= t <= max_temp, max_temp = max(old max_temp, t), min_temp = min(old min_temp, t), the window only widens, and every reading since the last reset lies within it |
| Thermocouple.ADCThermocouple.GetRaw | src/modules/tools/temperaturecontrol/ADCthermocouple.cpp:65-75 | reports the sample, the ceiling, its conversion and the three calibration constants, and sets min_temp = max_temp = that conversion, restarting the window; calibration is unchanged |

## Left out

- The pin: reading `adcthermocouple_pin` with `required()` (a fatal configuration error when absent), `Pin::from_string`, and `adc->enable_pin` are not modelled; `UpdateConfig` takes only the three optional calibration values.
- The configuration store's checksum lookup: the optional values arrive as `Option<real>` parameters.
- The ADC read (`new_ADCthermocouple_reading`, ADC-side filtering) and `get_max_value` become the `sample` and `maxAdcValue` parameters; `GetRaw` uses one ceiling value for both of its calls to `get_max_value`.
- The `printf` to the output streams in `get_raw`: `GetRaw` returns the reported values as a `Diagnostic` instead of formatting text.
- IEEE float behaviour: rounding of the 3.3 scaling and of the float fields, `infinityf()` is the `PosInf` variant, and the NaN produced by a zero `mv_per_c` with a zero sample is not represented.
- Conversion.AdcValueToTemperature: requires a non-zero `mvPerC` when the sample is below the ceiling, which the code does not check (there a zero `mv_per_c` divides by zero and yields an infinity or NaN); `GetTemperature` and `GetRaw` inherit this precondition for the sample they convert.
- Before `UpdateConfig` the C++ calibration fields are uninitialised; here they hold values the constructor does not determine, so a caller cannot establish the `mvPerC` precondition for an in-range sample before configuration.
- The destructor, the includes and the MRI hooks.
