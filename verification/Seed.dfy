/** Seed derivation: SplitMix64 mixing of the run seed, the virtual user and the iteration. */
module Seed {

  const GAMMA: bv64 := 0x9E3779B97F4A7C15
  const DOMAIN: bv64 := 0x5354524F42

  // ---------- the mixing steps, and how to undo them ----------

  function Fold30(x: bv64): bv64 { x ^ (x >> 30) }
  function Fold27(x: bv64): bv64 { x ^ (x >> 27) }
  function Fold31(x: bv64): bv64 { x ^ (x >> 31) }

  function Unfold30(x: bv64): bv64 { x ^ (x >> 30) ^ (x >> 60) }
  function Unfold27(x: bv64): bv64 { x ^ (x >> 27) ^ (x >> 54) }
  function Unfold31(x: bv64): bv64 { x ^ (x >> 31) ^ (x >> 62) }

  function Times1(x: bv64): bv64 { x * 0xBF58476D1CE4E5B9 }
  function Times2(x: bv64): bv64 { x * 0x94D049BB133111EB }

  /** Multiplication by the inverses of those two odd numbers modulo 2^64. */
  function Over1(x: bv64): bv64 { x * 0x96DE1B173F119089 }
  function Over2(x: bv64): bv64 { x * 0x319642B2D24D8EC3 }

  function Xor(a: bv64, b: bv64): bv64 { a ^ b }

  /** `_splitmix64`; the masking to 64 bits is the arithmetic of the type. */
  function SplitMix64(value: bv64): bv64 {
    Fold31(Times2(Fold27(Times1(Fold30(value + GAMMA)))))
  }

  function Unmix64(value: bv64): bv64 {
    Unfold30(Over1(Unfold27(Over2(Unfold31(value))))) - GAMMA
  }

  /** `_derive_seed`, on inputs that passed the range check. */
  function DeriveSeed(testSeed: bv64, vuId: bv64, iteration: bv64): bv64 {
    SplitMix64(Xor(SplitMix64(Xor(SplitMix64(Xor(testSeed, DOMAIN)), SplitMix64(vuId))), SplitMix64(iteration)))
  }

  // Each step on plain bit expressions, which the solver normalises away.

  lemma Spelled(x: bv64)
    ensures Fold30(x) == x ^ (x >> 30) && Unfold30(x) == x ^ (x >> 30) ^ (x >> 60)
    ensures Fold27(x) == x ^ (x >> 27) && Unfold27(x) == x ^ (x >> 27) ^ (x >> 54)
    ensures Fold31(x) == x ^ (x >> 31) && Unfold31(x) == x ^ (x >> 31) ^ (x >> 62)
    ensures Times1(x) == x * 0xBF58476D1CE4E5B9 && Over1(x) == x * 0x96DE1B173F119089
    ensures Times2(x) == x * 0x94D049BB133111EB && Over2(x) == x * 0x319642B2D24D8EC3
  {
  }

  lemma UndoneSpelled(x: bv64)
    ensures Unfold30(x ^ (x >> 30)) == x && Unfold27(x ^ (x >> 27)) == x && Unfold31(x ^ (x >> 31)) == x
    ensures Over1(x * 0xBF58476D1CE4E5B9) == x && Over2(x * 0x94D049BB133111EB) == x
  {
  }

  lemma RedoneSpelled(x: bv64)
    ensures Fold30(x ^ (x >> 30) ^ (x >> 60)) == x
    ensures Fold27(x ^ (x >> 27) ^ (x >> 54)) == x
    ensures Fold31(x ^ (x >> 31) ^ (x >> 62)) == x
    ensures Times1(x * 0x96DE1B173F119089) == x && Times2(x * 0x319642B2D24D8EC3) == x
  {
  }

  /** Every mixing step is undone by its partner, on both sides. */
  lemma StepsInvertible(x: bv64)
    ensures Unfold30(Fold30(x)) == x && Fold30(Unfold30(x)) == x
    ensures Unfold27(Fold27(x)) == x && Fold27(Unfold27(x)) == x
    ensures Unfold31(Fold31(x)) == x && Fold31(Unfold31(x)) == x
    ensures Over1(Times1(x)) == x && Times1(Over1(x)) == x
    ensures Over2(Times2(x)) == x && Times2(Over2(x)) == x
  {
    hide *;
    Spelled(x);
    UndoneSpelled(x);
    RedoneSpelled(x);
  }

  lemma OffsetCancels(x: bv64)
    ensures (x + GAMMA) - GAMMA == x && (x - GAMMA) + GAMMA == x
  {
  }

  lemma XorCancels(a: bv64, b: bv64)
    ensures Xor(Xor(a, b), b) == a && Xor(Xor(a, b), a) == b && Xor(b, Xor(a, b)) == a
  {
  }

  // ---------- bijections ----------

  lemma UnmixMix(x: bv64)
    ensures Unmix64(SplitMix64(x)) == x
  {
    hide Fold30, Fold27, Fold31, Unfold30, Unfold27, Unfold31, Times1, Times2, Over1, Over2;
    var a := Fold30(x + GAMMA);
    var b := Fold27(Times1(a));
    StepsInvertible(x + GAMMA);
    StepsInvertible(a);
    StepsInvertible(Times1(a));
    StepsInvertible(b);
    StepsInvertible(Times2(b));
    OffsetCancels(x);
  }

  lemma MixUnmix(y: bv64)
    ensures SplitMix64(Unmix64(y)) == y
  {
    hide Fold30, Fold27, Fold31, Unfold30, Unfold27, Unfold31, Times1, Times2, Over1, Over2;
    var a := Unfold31(y);
    var b := Unfold27(Over2(a));
    StepsInvertible(y);
    StepsInvertible(a);
    StepsInvertible(Over2(a));
    StepsInvertible(b);
    StepsInvertible(Over1(b));
    OffsetCancels(Unfold30(Over1(b)));
  }

  /** `_splitmix64` is a bijection on 64-bit words: each word is the image of exactly one. */
  lemma MixBijective(x: bv64, y: bv64)
    ensures SplitMix64(x) == y <==> x == Unmix64(y)
  {
    hide SplitMix64, Unmix64;
    UnmixMix(x);
    MixUnmix(y);
  }

  lemma MixedXor(a: bv64, x: bv64, y: bv64)
    ensures SplitMix64(Xor(a, SplitMix64(x))) == y <==> x == Unmix64(Xor(Unmix64(y), a))
  {
    hide SplitMix64, Unmix64, Xor;
    MixBijective(Xor(a, SplitMix64(x)), y);
    MixBijective(x, Xor(Unmix64(y), a));
    XorCancels(a, SplitMix64(x));
    XorCancels(Unmix64(y), a);
  }

  /** The unique arguments that lead to a given seed, the other two being fixed. */
  function IterationFor(testSeed: bv64, vuId: bv64, seed: bv64): bv64 {
    Unmix64(Xor(Unmix64(seed), SplitMix64(Xor(SplitMix64(Xor(testSeed, DOMAIN)), SplitMix64(vuId)))))
  }

  function VuFor(testSeed: bv64, iteration: bv64, seed: bv64): bv64 {
    Unmix64(Xor(Unmix64(Xor(Unmix64(seed), SplitMix64(iteration))), SplitMix64(Xor(testSeed, DOMAIN))))
  }

  function TestSeedFor(vuId: bv64, iteration: bv64, seed: bv64): bv64 {
    Xor(Unmix64(Xor(Unmix64(Xor(Unmix64(seed), SplitMix64(iteration))), SplitMix64(vuId))), DOMAIN)
  }

  /** Every 64-bit seed is reached by exactly one iteration of a virtual user. */
  lemma IterationBijective(testSeed: bv64, vuId: bv64, iteration: bv64, seed: bv64)
    ensures DeriveSeed(testSeed, vuId, iteration) == seed <==> iteration == IterationFor(testSeed, vuId, seed)
  {
    hide SplitMix64, Unmix64, Xor;
    MixedXor(SplitMix64(Xor(SplitMix64(Xor(testSeed, DOMAIN)), SplitMix64(vuId))), iteration, seed);
  }

  lemma OuterUndone(inner: bv64, iteration: bv64, seed: bv64)
    ensures SplitMix64(Xor(inner, SplitMix64(iteration))) == seed
      <==> inner == Xor(Unmix64(seed), SplitMix64(iteration))
  {
    hide SplitMix64, Unmix64, Xor;
    MixBijective(Xor(inner, SplitMix64(iteration)), seed);
    XorCancels(inner, SplitMix64(iteration));
    XorCancels(Unmix64(seed), SplitMix64(iteration));
  }

  /** Every 64-bit seed is reached by exactly one virtual user at a given iteration. */
  lemma VuBijective(testSeed: bv64, vuId: bv64, iteration: bv64, seed: bv64)
    ensures DeriveSeed(testSeed, vuId, iteration) == seed <==> vuId == VuFor(testSeed, iteration, seed)
  {
    hide SplitMix64, Unmix64, Xor;
    var run := SplitMix64(Xor(testSeed, DOMAIN));
    OuterUndone(SplitMix64(Xor(run, SplitMix64(vuId))), iteration, seed);
    MixedXor(run, vuId, Xor(Unmix64(seed), SplitMix64(iteration)));
  }

  /** Every 64-bit seed is reached from exactly one run seed. */
  lemma TestSeedBijective(testSeed: bv64, vuId: bv64, iteration: bv64, seed: bv64)
    ensures DeriveSeed(testSeed, vuId, iteration) == seed <==> testSeed == TestSeedFor(vuId, iteration, seed)
  {
    hide SplitMix64, Unmix64, Xor;
    var run := SplitMix64(Xor(testSeed, DOMAIN));
    var inner := Xor(Unmix64(seed), SplitMix64(iteration));
    OuterUndone(SplitMix64(Xor(run, SplitMix64(vuId))), iteration, seed);
    OuterUndone(run, vuId, inner);
    MixBijective(Xor(testSeed, DOMAIN), Xor(Unmix64(inner), SplitMix64(vuId)));
    XorCancels(testSeed, DOMAIN);
    XorCancels(Unmix64(Xor(Unmix64(inner), SplitMix64(vuId))), DOMAIN);
  }

  /** No two iterations of a virtual user, and no two virtual users at one iteration, share a seed. */
  lemma SeedsDistinct(testSeed: bv64, vu: bv64, vu': bv64, iteration: bv64, iteration': bv64)
    ensures DeriveSeed(testSeed, vu, iteration) == DeriveSeed(testSeed, vu, iteration') <==> iteration == iteration'
    ensures DeriveSeed(testSeed, vu, iteration) == DeriveSeed(testSeed, vu', iteration) <==> vu == vu'
  {
    hide DeriveSeed, IterationFor, VuFor;
    IterationBijective(testSeed, vu, iteration, DeriveSeed(testSeed, vu, iteration'));
    IterationBijective(testSeed, vu, iteration', DeriveSeed(testSeed, vu, iteration'));
    VuBijective(testSeed, vu, iteration, DeriveSeed(testSeed, vu', iteration));
    VuBijective(testSeed, vu', iteration, DeriveSeed(testSeed, vu', iteration));
  }
}
