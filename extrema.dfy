/** The rolling minimum and maximum kept for the M305 report, as functions of
    the readings taken since the window was last set. */
module Extrema {
  import opened Temperature

  /** The maximum after folding `readings`, oldest first, into a window whose
      upper end started at `seed`: the largest of `seed` and the readings. */
  ghost function Highest(seed: Temp, readings: seq<Temp>): (r: Temp)
    ensures AtMost(seed, r)
    ensures forall i :: 0 <= i < |readings| ==> AtMost(readings[i], r)
    ensures r == seed || r in readings
  {
    if readings == [] then seed
    else
      var prefix := readings[..|readings| - 1];
      var last := readings[|readings| - 1];
      assert readings == prefix + [last];
      Raise(Highest(seed, prefix), last)
  }

  /** The minimum after folding `readings` into a window whose lower end
      started at `seed`: the smallest of `seed` and the readings. */
  ghost function Lowest(seed: Temp, readings: seq<Temp>): (r: Temp)
    ensures AtMost(r, seed)
    ensures forall i :: 0 <= i < |readings| ==> AtMost(r, readings[i])
    ensures r == seed || r in readings
  {
    if readings == [] then seed
    else
      var prefix := readings[..|readings| - 1];
      var last := readings[|readings| - 1];
      assert readings == prefix + [last];
      Lower(Lowest(seed, prefix), last)
  }

  /** One more reading widens the window by exactly that reading. */
  lemma ExtendWindow(lo: Temp, hi: Temp, readings: seq<Temp>, t: Temp)
    ensures Highest(hi, readings + [t]) == Raise(Highest(hi, readings), t)
    ensures Lowest(lo, readings + [t]) == Lower(Lowest(lo, readings), t)
  {
    assert (readings + [t])[..|readings|] == readings;
  }
}
