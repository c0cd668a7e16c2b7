/** The linear-congruential generator both level generators carry as a
    closure: every call first replaces the seed and then scales it into the
    requested range. The closure's reassignment of `seed` is modelled by
    threading the seed explicitly: `NextSeed` is the reassignment and
    `Scaled` the value the call returns for the new seed. */
module Prng {

  const Multiplier: nat := 9301
  const Increment: nat := 49297
  const Modulus: nat := 233280

  /** One step of the generator: `seed = (seed * 9301 + 49297) % 233280`. */
  function NextSeed(seed: nat): (next: nat)
    ensures next < Modulus
  {
    (seed * Multiplier + Increment) % Modulus
  }

  /** `min + (seed / 233280) * (max - min)` for a seed the generator produced. */
  function Scaled(seed: nat, lo: real, hi: real): (v: real)
    requires seed < Modulus
    ensures lo <= hi ==> lo <= v <= hi && (lo < hi ==> v < hi)
    ensures hi <= lo ==> hi <= v <= lo && (hi < lo ==> hi < v)
  {
    ScaledBounds(seed, lo, hi);
    lo + (seed as real / Modulus as real) * (hi - lo)
  }

  lemma ScaledBounds(seed: nat, lo: real, hi: real)
    requires seed < Modulus
    ensures var v := lo + (seed as real / Modulus as real) * (hi - lo);
      && (lo <= hi ==> lo <= v <= hi && (lo < hi ==> v < hi))
      && (hi <= lo ==> hi <= v <= lo && (hi < lo ==> hi < v))
  {
    var f := seed as real / Modulus as real;
    assert 0.0 <= f < 1.0;
    if lo < hi {
      assert f * (hi - lo) < hi - lo;
    } else if hi < lo {
      assert f * (lo - hi) < lo - hi;
    }
  }

  /** `Math.floor(rng(0, n))`: an index drawn uniformly-ish from `[0, n)`. */
  function PickIndex(seed: nat, n: nat): (k: nat)
    requires seed < Modulus && n > 0
    ensures k < n
  {
    var v := Scaled(seed, 0.0, n as real);
    assert 0.0 <= v < n as real;
    v.Floor
  }
}
