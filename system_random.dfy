/**
 * `System.Random` seen from its callers: a stream of samples in [0, 1)
 * drawn one at a time. How the library turns a seed into the stream is
 * not modelled; the stream is given to the constructor, so the same
 * stream yields the same sequence of draws.
 */
module SystemRandom {

  /** One sample of the library generator, the value `NextDouble` returns. */
  type Unit = r: real | 0.0 <= r < 1.0

  class Random {
    /** The samples this generator produces, in order. */
    const stream: nat -> Unit
    /** How many samples have been consumed so far. */
    var drawn: nat

    /** `new System.Random(seed)`, with the seed's sample stream. */
    constructor (stream: nat -> Unit)
      ensures this.stream == stream && drawn == 0
    {
      this.stream := stream;
      drawn := 0;
    }

    /** `NextDouble()`: a sample in [0, 1). */
    method NextDouble() returns (u: real)
      modifies this
      ensures 0.0 <= u < 1.0
      ensures u == stream(old(drawn))
      ensures drawn == old(drawn) + 1
    {
      u := stream(drawn);
      drawn := drawn + 1;
    }

    /**
     * `Next(minValue, maxValue)`: an integer in [minValue, maxValue), or
     * minValue itself when the two are equal. The library throws when
     * minValue > maxValue, so callers must not ask for that.
     */
    method NextInRange(minValue: int, maxValue: int) returns (k: int)
      requires minValue <= maxValue
      modifies this
      ensures minValue < maxValue ==> minValue <= k < maxValue
      ensures minValue == maxValue ==> k == minValue
      ensures k == minValue + ScaledIndex(stream(old(drawn)), maxValue - minValue)
      ensures drawn == old(drawn) + 1
    {
      var u := stream(drawn);
      drawn := drawn + 1;
      k := minValue + ScaledIndex(u, maxValue - minValue);
    }

    /** `Next(maxValue)`: an integer in [0, maxValue), or 0 when maxValue is 0. */
    method Next(maxValue: nat) returns (k: nat)
      modifies this
      ensures maxValue > 0 ==> k < maxValue
      ensures maxValue == 0 ==> k == 0
      ensures k == ScaledIndex(stream(old(drawn)), maxValue)
      ensures drawn == old(drawn) + 1
    {
      var u := stream(drawn);
      drawn := drawn + 1;
      k := ScaledIndex(u, maxValue);
    }
  }

  /** The library's `(int)(Sample() * range)`: truncation of a product that is never negative. */
  function ScaledIndex(u: Unit, range: nat): (k: nat)
    ensures range > 0 ==> k < range
    ensures range == 0 ==> k == 0
  {
    var x := u * range as real;
    assert 0.0 <= x;
    assert range > 0 ==> x < range as real;
    x.Floor
  }
}
