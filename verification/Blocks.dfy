/** 128-bit blocks as the XOR group they are used as.

    A block is the set of its positions that hold a 1, so XOR is symmetric difference and two blocks are equal
    exactly when they agree at every position. The width plays no role in any argument below, so it is left open:
    the blocks of any fixed width are closed under every operation here. Position 0 carries share bits and
    position 1 carries the half-gate parity bit (helper.h, LSB and LSB1). */
module Blocks {
  type Block = set<nat>

  const ZERO: Block := {}
  const BIT0_MASK: Block := {0}

  function Xor(a: Block, b: Block): Block {
    (a - b) + (b - a)
  }

  /** `select_mask[c] & a`. */
  function Sel(c: bool, a: Block): Block {
    if c then a else ZERO
  }

  predicate Lsb(a: Block) {
    0 in a
  }

  predicate Lsb1(a: Block) {
    1 in a
  }

  /** The tweaked correlation-robust hash: an arbitrary function of a tweak index and a block. */
  type TweakedHash = (nat, Block) -> Block

  lemma XorZeroIffEqual(a: Block, b: Block)
    ensures Xor(a, b) == ZERO <==> a == b
  {
    if Xor(a, b) == ZERO {
      forall o
        ensures o in a <==> o in b
      {
        assert o !in Xor(a, b);
      }
    }
  }

  /** The part of `Xor(p, q)` that a common summand cannot change. */
  lemma XorCommonSummand(a: Block, p: Block, q: Block)
    ensures Xor(Xor(a, p), Xor(a, q)) == Xor(p, q)
  {
  }

  lemma XorZero(a: Block)
    ensures Xor(a, ZERO) == a && Xor(ZERO, a) == a && Xor(a, a) == ZERO
  {
  }

  lemma LowBitsOfXor(a: Block, b: Block)
    ensures Lsb(Xor(a, b)) == (Lsb(a) != Lsb(b))
    ensures Lsb1(Xor(a, b)) == (Lsb1(a) != Lsb1(b))
  {
  }

  lemma SelXor(x: bool, y: bool, d: Block)
    ensures Xor(Sel(x, d), Sel(y, d)) == Sel(x != y, d)
  {
  }

  lemma SelDistributes(c: bool, a: Block, b: Block)
    ensures Sel(c, Xor(a, b)) == Xor(Sel(c, a), Sel(c, b))
  {
  }

  /** Sorting two four-term sums by summand. */
  lemma XorInterchange(a: Block, b: Block, c: Block, d: Block)
    ensures Xor(Xor(a, b), Xor(c, d)) == Xor(Xor(a, c), Xor(b, d))
  {
  }
}
