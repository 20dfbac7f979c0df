/** Authenticated two-party bit shares (secure_wires.h). */
module Shares {
  import opened Blocks

  /** `AShareBundle`: this party's MAC under the peer's key, and its own key for the peer's bit. */
  datatype Share = Share(mac: Block, key: Block)

  const NO_SHARE: Share := Share(ZERO, ZERO)

  /** The share bit a party holds, kept in bit 0 of its MAC. */
  predicate Bit(s: Share) {
    Lsb(s.mac)
  }

  /** The bits of the global keys pinned at setup (TriplePool::init_abit_). */
  predicate GoodDeltas(d1: Block, d2: Block) {
    Lsb(d1) && Lsb(d2) && Lsb1(d1) && !Lsb1(d2)
  }

  /** The MAC relation in both directions, with bit 0 of each key clear. */
  predicate Paired(s1: Share, s2: Share, d1: Block, d2: Block) {
    && s1.mac == Xor(s2.key, Sel(Bit(s1), d2))
    && s2.mac == Xor(s1.key, Sel(Bit(s2), d1))
    && !Lsb(s1.key)
    && !Lsb(s2.key)
  }

  /** The bit the two shares hide. */
  predicate Hidden(s1: Share, s2: Share) {
    Bit(s1) != Bit(s2)
  }

  function XorShare(a: Share, b: Share): Share {
    Share(Xor(a.mac, b.mac), Xor(a.key, b.key))
  }

  function SelShare(c: bool, a: Share): Share {
    Share(Sel(c, a.mac), Sel(c, a.key))
  }

  lemma PairedXor(a1: Share, a2: Share, b1: Share, b2: Share, d1: Block, d2: Block)
    requires Paired(a1, a2, d1, d2) && Paired(b1, b2, d1, d2)
    ensures Paired(XorShare(a1, b1), XorShare(a2, b2), d1, d2)
    ensures Hidden(XorShare(a1, b1), XorShare(a2, b2)) == (Hidden(a1, a2) != Hidden(b1, b2))
  {
    SelXor(Bit(a1), Bit(b1), d2);
    SelXor(Bit(a2), Bit(b2), d1);
    XorInterchange(a2.key, Sel(Bit(a1), d2), b2.key, Sel(Bit(b1), d2));
    XorInterchange(a1.key, Sel(Bit(a2), d1), b1.key, Sel(Bit(b2), d1));
  }

  lemma PairedSel(c: bool, a1: Share, a2: Share, d1: Block, d2: Block)
    requires Paired(a1, a2, d1, d2)
    ensures Paired(SelShare(c, a1), SelShare(c, a2), d1, d2)
    ensures Hidden(SelShare(c, a1), SelShare(c, a2)) == (c && Hidden(a1, a2))
  {
  }

  /** Party 1's half of adding the public bit `c`: flip its share bit. */
  function FlipMac(c: bool, s: Share): Share {
    Share(Xor(s.mac, Sel(c, BIT0_MASK)), s.key)
  }

  /** Party 2's half: move its key so the relation holds for party 1's flipped bit and bit 0 stays clear. */
  function FlipKey(c: bool, s: Share, d: Block): Share {
    Share(s.mac, Xor(s.key, Sel(c, Xor(d, BIT0_MASK))))
  }

  lemma PairedFlip(c: bool, s1: Share, s2: Share, d1: Block, d2: Block)
    requires Paired(s1, s2, d1, d2) && Lsb(d2)
    ensures Paired(FlipMac(c, s1), FlipKey(c, s2, d2), d1, d2)
    ensures Hidden(FlipMac(c, s1), FlipKey(c, s2, d2)) == (Hidden(s1, s2) != c)
  {
  }

  /** The MAC a receiver expects for a claimed share bit matches the sender's MAC exactly for the sender's bit. */
  lemma MacAuthenticatesBit(s1: Share, s2: Share, d1: Block, d2: Block, claimed: bool)
    requires Paired(s1, s2, d1, d2) && GoodDeltas(d1, d2)
    ensures Xor(s2.key, Sel(claimed, d2)) == s1.mac <==> claimed == Bit(s1)
    ensures Xor(s1.key, Sel(claimed, d1)) == s2.mac <==> claimed == Bit(s2)
  {
    assert 0 in Xor(s2.key, Sel(claimed, d2)) <==> claimed;
    assert 0 in Xor(s1.key, Sel(claimed, d1)) <==> claimed;
  }
}
