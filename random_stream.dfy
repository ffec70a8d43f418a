/**
 * The shared `java.util.Random`, seen through the only use the simulation
 * makes of it: each call of `nextDouble()` is immediately turned into
 * `-Math.log(1 - u)`, a unit-rate exponential variate, which is never negative.
 * The stream is the sequence of those variates, consumed from the front. A
 * seed stands for the sequence it produces, so two streams built from the same
 * sequence give the same draws. The sequence is finite; a draw from an empty
 * stream yields None, a case the unbounded Java generator never meets.
 */
module Randomness {
  import opened Wrappers

  /** A unit exponential variate, `-Math.log(1 - u)` for a uniform `u` in [0, 1): never negative. */
  type Variate = x: real | x >= 0.0

  /** `rest` is what is left of `draws` after some draws were taken from its front. */
  predicate IsSuffix(rest: seq<Variate>, draws: seq<Variate>)
    decreases |draws|
  {
    rest == draws || (draws != [] && IsSuffix(rest, draws[1..]))
  }

  lemma {:induction false} SuffixTransitive(c: seq<Variate>, b: seq<Variate>, a: seq<Variate>)
    requires IsSuffix(c, b) && IsSuffix(b, a)
    ensures IsSuffix(c, a)
    decreases |a|
  {
    if b != a {
      SuffixTransitive(c, b, a[1..]);
    }
  }

  /** A value produced from the stream, and the stream left after producing it. */
  datatype Drawn = Drawn(value: real, rest: seq<Variate>)

  /** One unit exponential variate: the front of the stream. */
  function NextExponential(draws: seq<Variate>): (r: Option<Drawn>)
    ensures r.None? <==> draws == []
    ensures r.Some? ==> [r.value.value] + r.value.rest == draws
  {
    if draws == [] then None else Some(Drawn(draws[0], draws[1..]))
  }

  class RandomStream {
    var draws: seq<Variate>

    /** `new Random(seed)`: the stream of variates that seed produces. */
    constructor (draws: seq<Variate>)
      ensures this.draws == draws
    {
      this.draws := draws;
    }

    /** `-Math.log(1 - nextDouble())`: takes the next variate off the stream. */
    method Exponential() returns (x: Option<real>)
      modifies this
      ensures match NextExponential(old(draws))
              case None => x == None && draws == old(draws)
              case Some(d) => x == Some(d.value) && draws == d.rest
    {
      if draws == [] {
        x := None;
      } else {
        x := Some(draws[0]);
        draws := draws[1..];
      }
    }
  }
}
