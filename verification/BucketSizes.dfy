/** The bucket size of the AND-triple leakage bound (triple_pool.h, get_bucket_size), in exact arithmetic. */
module BucketSizes {
  function Pow(b: nat, e: nat): nat {
    if e == 0 then 1 else b * Pow(b, e - 1)
  }

  /** The size is floored so that tiny calls still pick a safe bucket. */
  function Floored(size: nat): nat {
    if size < 1024 then 1024 else size
  }

  lemma {:induction false} PowMonotone(b: nat, c: nat, e: nat)
    requires b <= c
    ensures Pow(b, e) <= Pow(c, e)
  {
    if e > 0 {
      PowMonotone(b, c, e - 1);
      assert b * Pow(b, e - 1) <= c * Pow(c, e - 1) by {
        MulMonotone(b, c, Pow(b, e - 1), Pow(c, e - 1));
      }
    }
  }

  lemma MulMonotone(a: nat, b: nat, c: nat, d: nat)
    requires a <= b && c <= d
    ensures a * c <= b * d
  {
  }

  lemma {:induction false} PowAdd(b: nat, e: nat, f: nat)
    ensures Pow(b, e + f) == Pow(b, e) * Pow(b, f)
  {
    if e > 0 {
      PowAdd(b, e - 1, f);
      assert Pow(b, e + f) == b * Pow(b, e - 1 + f);
    }
  }

  lemma {:induction false} PowGrows(b: nat, e: nat, f: nat)
    requires b >= 1 && e <= f
    ensures 1 <= Pow(b, e) <= Pow(b, f)
    decreases f
  {
    if f == 0 {
    } else if e == f {
      PowGrows(b, f - 1, f - 1);
      MulMonotone(1, b, Pow(b, f - 1), Pow(b, f - 1));
    } else {
      PowGrows(b, e, f - 1);
      MulMonotone(1, b, Pow(b, f - 1), Pow(b, f - 1));
    }
  }

  /** 1024^e == 2^(10 * e). */
  lemma {:induction false} PowOf1024(e: nat)
    ensures Pow(1024, e) == Pow(2, 10 * e)
  {
    if e > 0 {
      PowOf1024(e - 1);
      PowAdd(2, 10, 10 * (e - 1));
      PowTwoToTen();
    }
  }

  lemma PowTwoToTen()
    ensures Pow(2, 10) == 1024
  {
    assert Pow(2, 5) == 32;
    PowAdd(2, 5, 5);
  }

  lemma PowTwoStrict(e: nat, f: nat)
    requires e < f
    ensures Pow(2, e) < Pow(2, f)
  {
    PowGrows(2, e + 1, f);
    PowGrows(2, 0, e);
  }

  /** `log2(size) * (b - 1) > ssp`, without rounding. */
  ghost predicate Enough(size: nat, ssp: nat, b: nat)
    requires b >= 1
  {
    Pow(Floored(size), b - 1) > Pow(2, ssp)
  }

  /** The loop's bound: a bucket of `ssp / 10 + 2` is always enough. */
  lemma BoundSuffices(size: nat, ssp: nat)
    ensures Enough(size, ssp, ssp / 10 + 2)
  {
    PowMonotone(1024, Floored(size), ssp / 10 + 1);
    PowOf1024(ssp / 10 + 1);
    PowTwoStrict(ssp, 10 * (ssp / 10 + 1));
  }

  /** The least bucket of at least two layers that meets the leakage bound. */
  ghost predicate Least(size: nat, ssp: nat, b: nat) {
    && b >= 2
    && Enough(size, ssp, b)
    && forall c | 2 <= c < b :: !Enough(size, ssp, c)
  }

  /** The least `b` of at least 2 with `max(size, 1024)^(b - 1) > 2^ssp`. */
  method GetBucketSize(size: nat, ssp: nat) returns (b: nat)
    ensures Least(size, ssp, b)
    ensures b >= 2 && Pow(if size < 1024 then 1024 else size, b - 1) > Pow(2, ssp)
    ensures b == 2 || Pow(if size < 1024 then 1024 else size, b - 2) <= Pow(2, ssp)
    ensures b <= ssp / 10 + 2
  {
    b := 2;
    BoundSuffices(size, ssp);
    while Pow(Floored(size), b - 1) <= Pow(2, ssp)
      invariant 2 <= b <= ssp / 10 + 2
      invariant forall c | 2 <= c < b :: !Enough(size, ssp, c)
      invariant b == 2 || Pow(if size < 1024 then 1024 else size, b - 2) <= Pow(2, ssp)
      decreases ssp / 10 + 2 - b
    {
      b := b + 1;
    }
  }

  /** A larger call never needs a larger bucket. */
  lemma BucketNeverGrows(small: nat, large: nat, ssp: nat, b: nat, c: nat)
    requires small <= large && Least(small, ssp, b) && Least(large, ssp, c)
    ensures c <= b
  {
    PowMonotone(Floored(small), Floored(large), b - 1);
    assert Enough(large, ssp, b);
  }
}
