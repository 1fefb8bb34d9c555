/**
 * The seeded linear congruential generator behind `predictableRandom`:
 * seed' = seed * 1664525 + 1013904223 on a 32-bit unsigned int, so with
 * wrap-around modulo 2^32.
 */
module Lcg {
  const MODULUS: int := 0x1_0000_0000
  newtype uint32 = x: int | 0 <= x < 0x1_0000_0000

  const MULTIPLIER: int := 1664525
  const INCREMENT: int := 1013904223

  /** The seed `main` starts from ("fixed seed for consistent levels"). */
  const INITIAL_SEED: uint32 := 12345

  /** The inverse of MULTIPLIER modulo 2^32: MULTIPLIER * INVERSE == 1 + 1657219 * 2^32. */
  const INVERSE: int := 4276115653

  /** One step of the generator; every seed has exactly one predecessor. */
  function Next(seed: uint32): (r: uint32)
    ensures Prev(r) == seed
  {
    PrevUndoesStep(seed);
    ((seed as int * MULTIPLIER + INCREMENT) % MODULUS) as uint32
  }

  /** The generator run backwards. */
  function Prev(seed: uint32): uint32
  {
    (((seed as int - INCREMENT) * INVERSE) % MODULUS) as uint32
  }

  /** Every seed is reached by one step: Next is onto, so with Next's contract a bijection. */
  lemma NextPrev(seed: uint32)
    ensures Next(Prev(seed)) == seed
  {
    StepUndoesPrev(seed);
  }

  lemma ModShift(a: int, k: int)
    ensures (a + k * MODULUS) % MODULUS == a % MODULUS
  {
  }

  lemma PrevUndoesStep(s: uint32)
    ensures (((((s as int * MULTIPLIER + INCREMENT) % MODULUS) - INCREMENT) * INVERSE) % MODULUS) == s as int
  {
    var q := (s as int * MULTIPLIER + INCREMENT) / MODULUS;
    var t := s as int * MULTIPLIER + INCREMENT - q * MODULUS;
    assert (s as int * MULTIPLIER + INCREMENT) % MODULUS == t;
    assert MULTIPLIER * INVERSE == 1 + 1657219 * MODULUS;
    assert (t - INCREMENT) * INVERSE == s as int + (s as int * 1657219 - q * INVERSE) * MODULUS;
    ModShift(s as int, s as int * 1657219 - q * INVERSE);
  }

  lemma StepUndoesPrev(s: uint32)
    ensures (((((s as int - INCREMENT) * INVERSE) % MODULUS) * MULTIPLIER + INCREMENT) % MODULUS) == s as int
  {
    var q := ((s as int - INCREMENT) * INVERSE) / MODULUS;
    var t := (s as int - INCREMENT) * INVERSE - q * MODULUS;
    assert ((s as int - INCREMENT) * INVERSE) % MODULUS == t;
    assert MULTIPLIER * INVERSE == 1 + 1657219 * MODULUS;
    assert t * MULTIPLIER + INCREMENT
        == s as int + ((s as int - INCREMENT) * 1657219 - q * MULTIPLIER) * MODULUS;
    ModShift(s as int, (s as int - INCREMENT) * 1657219 - q * MULTIPLIER);
  }

  /**
   * The seed after `n` draws, defined by drawing last. No draw leaves the
   * seed alone and one draw is a single step; `SeedAfterAdd` composes counts.
   */
  function SeedAfter(seed: uint32, n: nat): (r: uint32)
    ensures n == 0 ==> r == seed
    ensures n == 1 ==> r == Next(seed) && Prev(r) == seed
  {
    if n == 0 then seed else Next(SeedAfter(seed, n - 1))
  }

  /** Drawing m times and then n times is drawing m + n times. */
  lemma {:induction false} SeedAfterAdd(seed: uint32, m: nat, n: nat)
    ensures SeedAfter(seed, m + n) == SeedAfter(SeedAfter(seed, m), n)
  {
    if n > 0 {
      SeedAfterAdd(seed, m, n - 1);
    }
  }

  /** Two different starting seeds never lead to the same seed after n draws. */
  lemma {:induction false} SeedAfterInjective(s: uint32, t: uint32, n: nat)
    requires SeedAfter(s, n) == SeedAfter(t, n)
    ensures s == t
  {
    if n > 0 {
      var a, b := SeedAfter(s, n - 1), SeedAfter(t, n - 1);
      assert Next(a) == Next(b);
      assert a == Prev(Next(a)) == Prev(Next(b)) == b;
      SeedAfterInjective(s, t, n - 1);
    }
  }

  /** The first seed drawn from the fixed starting seed 12345. */
  lemma FirstDrawFromInitialSeed()
    ensures Next(INITIAL_SEED) == 87628868
  {
  }
}
