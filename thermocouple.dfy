/** The thermocouple sensor object (`ADCthermocouple`): calibration constants
    bound from configuration, and the rolling min/max window over readings. */
module Thermocouple {
  import opened Temperature
  import opened Conversion
  import opened Extrema

  /** An optional configuration value: `None` when the key is absent. */
  datatype Option<T> = None | Some(value: T)

  /** Defaults applied to absent calibration keys. */
  const DefaultOffset: real := 0.0
  const DefaultGain: real := 1.0
  const DefaultMvPerC: real := 10.0

  /** Sentinel extrema of a fresh sensor. */
  const InitialMinTemp: Temp := Fin(999.0)
  const InitialMaxTemp: Temp := Fin(0.0)

  /** `value(...)->by_default(d)->as_number()`: the configured number, or `d`. */
  function ByDefault(setting: Option<real>, d: real): (v: real) {
    match setting
    case Some(v) => v
    case None => d
  }

  /** What the diagnostic line of `get_raw` reports. */
  datatype Diagnostic = Diagnostic(adcValue: int32, maxAdcValue: uint32, temp: Temp,
                                   offset: real, gain: real, mvPerC: real)

  /** The first reading after construction becomes both the minimum and the
      maximum exactly when it lies between the sentinels 0 and 999: a reading
      below 0 leaves the maximum at 0, one above 999 leaves the minimum at 999. */
  lemma FirstReadingReplacesBoth(t: Temp)
    ensures Lowest(InitialMinTemp, [t]) == t && Highest(InitialMaxTemp, [t]) == t
            <==> AtMost(InitialMaxTemp, t) && AtMost(t, InitialMinTemp)
  {
    assert [t][..0] == [];
    assert Lowest(InitialMinTemp, [t]) == Lower(InitialMinTemp, t);
    assert Highest(InitialMaxTemp, [t]) == Raise(InitialMaxTemp, t);
  }

  /** So after construction, any run of readings all below 0 keeps 0 as the
      maximum, which is none of the readings. */
  lemma ColdReadingsKeepSentinelMax(readings: seq<Temp>)
    requires forall i :: 0 <= i < |readings| ==> Less(readings[i], InitialMaxTemp)
    ensures Highest(InitialMaxTemp, readings) == InitialMaxTemp
    ensures InitialMaxTemp !in readings
  {
  }

  class ADCThermocouple {
    var offset: real
    var gain: real
    var mvPerC: real
    var minTemp: Temp
    var maxTemp: Temp

    /** The window's ends when it was last set (construction or reset), and the
        readings taken since. */
    ghost var lowSeed: Temp
    ghost var highSeed: Temp
    ghost var readings: seq<Temp>

    /** The stored extrema are the minimum and maximum of the window. */
    ghost predicate Valid()
      reads this
    {
      minTemp == Lowest(lowSeed, readings) && maxTemp == Highest(highSeed, readings)
    }

    /** Every reading since the window was last set lies between the extrema. */
    ghost predicate Brackets()
      reads this
    {
      forall i :: 0 <= i < |readings| ==> AtMost(minTemp, readings[i]) && AtMost(readings[i], maxTemp)
    }

    constructor ()
      ensures Valid()
      ensures minTemp == InitialMinTemp && maxTemp == InitialMaxTemp
      ensures lowSeed == InitialMinTemp && highSeed == InitialMaxTemp && readings == []
    {
      minTemp := InitialMinTemp;
      maxTemp := InitialMaxTemp;
      lowSeed, highSeed, readings := InitialMinTemp, InitialMaxTemp, [];
    }

    /** Binds the calibration constants; an absent key takes its default. */
    method UpdateConfig(offsetSetting: Option<real>, gainSetting: Option<real>,
                        mvPerCSetting: Option<real>)
      requires Valid()
      modifies this`offset, this`gain, this`mvPerC
      ensures offset == ByDefault(offsetSetting, DefaultOffset)
      ensures gain == ByDefault(gainSetting, DefaultGain)
      ensures mvPerC == ByDefault(mvPerCSetting, DefaultMvPerC)
      ensures offsetSetting == None && gainSetting == None && mvPerCSetting == None
              ==> offset == 0.0 && gain == 1.0 && mvPerC == 10.0
      ensures minTemp == old(minTemp) && maxTemp == old(maxTemp)
      ensures Valid()
    {
      offset := ByDefault(offsetSetting, DefaultOffset);
      gain := ByDefault(gainSetting, DefaultGain);
      mvPerC := ByDefault(mvPerCSetting, DefaultMvPerC);
    }

    /** Converts one ADC sample and widens the window to include it. */
    method GetTemperature(sample: int32, maxAdcValue: uint32) returns (t: Temp)
      requires Valid()
      requires AsUint32(sample) < maxAdcValue ==> mvPerC != 0.0
      modifies this`minTemp, this`maxTemp, this`readings
      ensures t == AdcValueToTemperature(AsUint32(sample), maxAdcValue, offset, gain, mvPerC)
      ensures maxTemp == Raise(old(maxTemp), t) && minTemp == Lower(old(minTemp), t)
      ensures AtMost(minTemp, t) && AtMost(t, maxTemp)
      ensures AtMost(minTemp, old(minTemp)) && AtMost(old(maxTemp), maxTemp)
      ensures readings == old(readings) + [t]
      ensures Valid() && Brackets()
    {
      t := AdcValueToTemperature(AsUint32(sample), maxAdcValue, offset, gain, mvPerC);
      if Less(maxTemp, t) {
        maxTemp := t;
      }
      if Less(t, minTemp) {
        minTemp := t;
      }
      ExtendWindow(lowSeed, highSeed, readings, t);
      readings := readings + [t];
    }

    /** Takes one sample, reports it with its temperature and the calibration,
        and collapses the window onto that temperature. */
    method GetRaw(sample: int32, maxAdcValue: uint32) returns (d: Diagnostic)
      requires AsUint32(sample) < maxAdcValue ==> mvPerC != 0.0
      modifies this`minTemp, this`maxTemp, this`lowSeed, this`highSeed, this`readings
      ensures d.temp == AdcValueToTemperature(AsUint32(sample), maxAdcValue, offset, gain, mvPerC)
      ensures d == Diagnostic(sample, maxAdcValue, d.temp, offset, gain, mvPerC)
      ensures minTemp == d.temp && maxTemp == d.temp
      ensures lowSeed == d.temp && highSeed == d.temp && readings == []
      ensures Valid()
    {
      var temp := AdcValueToTemperature(AsUint32(sample), maxAdcValue, offset, gain, mvPerC);
      d := Diagnostic(sample, maxAdcValue, temp, offset, gain, mvPerC);
      minTemp := temp;
      maxTemp := temp;
      lowSeed, highSeed, readings := temp, temp, [];
    }
  }
}
