/** The pseudo-random generator the simulation draws from (System.Random).
    Its algorithm is not modelled: a generator is a stream with one value per
    Next call, and Next(n) reduces the next value into [0, n). Any value
    in range is reachable for some stream; nothing is said about distribution. */
module Randomness {

  class Random {
    /** The value of this generator's k-th Next call (fixed by its seed). */
    const draws: nat -> nat
    /** How many Next calls this generator has answered so far. */
    var calls: nat

    constructor (draws: nat -> nat)
      ensures this.draws == draws && calls == 0
    {
      this.draws := draws;
      calls := 0;
    }

    /** A value in [0, maxValue), or 0 when maxValue is 0; a negative bound is refused. */
    method Next(maxValue: int) returns (v: int)
      requires 0 <= maxValue
      modifies this`calls
      ensures maxValue == 0 ==> v == 0
      ensures maxValue > 0 ==> 0 <= v < maxValue && v == draws(old(calls)) % maxValue
      ensures calls == old(calls) + 1
    {
      v := if maxValue == 0 then 0 else draws(calls) % maxValue;
      calls := calls + 1;
    }
  }
}
