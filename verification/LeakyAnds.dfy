/** The algebra of one leaky-AND candidate (eprint 2018/578, Fig. 5), for both parties at once. */
module LeakyAnds {
  import opened Blocks
  import opened Shares

  /** The local y-contribution `y * Delta ^ key ^ mac`. */
  function Contribution(b: Share, d: Block): Block {
    Xor(Xor(Sel(Bit(b), d), b.key), b.mac)
  }

  /** The ciphertext a party ships for its peer. */
  function Ciphertext(h: TweakedHash, t: nat, a: Share, b: Share, d: Block): Block {
    Xor(Xor(h(t, a.key), h(t, Xor(a.key, d))), Contribution(b, d))
  }

  /** What a party recovers from the peer's ciphertext `w`. */
  function Recovered(h: TweakedHash, t: nat, a: Share, b: Share, r: Share, d: Block, w: Block): Block {
    RecoveredFrom(h(t, a.key), h(t, a.mac), a, b, r, d, w)
  }

  /** The same with `hk` and `hm` the hashes of the key and of the mac of `a`. */
  function RecoveredFrom(hk: Block, hm: Block, a: Share, b: Share, r: Share, d: Block, w: Block): Block {
    var e := Xor(hm, Sel(Bit(a), w));
    Xor(Xor(Xor(Xor(Xor(hk, e), r.key), r.mac), Sel(Bit(a), Contribution(b, d))), Sel(Bit(r), d))
  }

  lemma ContributionsSum(b1: Share, b2: Share, d1: Block, d2: Block)
    requires Paired(b1, b2, d1, d2)
    ensures Xor(Contribution(b1, d1), Contribution(b2, d2)) == Sel(Hidden(b1, b2), Xor(d1, d2))
  {
    var y1, y2 := Bit(b1), Bit(b2);
    calc {
      Xor(Contribution(b1, d1), Contribution(b2, d2));
      Xor(Xor(Xor(Sel(y1, d1), b1.key), Xor(b2.key, Sel(y1, d2))),
          Xor(Xor(Sel(y2, d2), b2.key), Xor(b1.key, Sel(y2, d1))));
      Xor(Xor(Sel(y1, d1), Sel(y2, d1)), Xor(Sel(y1, d2), Sel(y2, d2)));
      { SelXor(y1, y2, d1); SelXor(y1, y2, d2); SelDistributes(y1 != y2, d1, d2); }
      Sel(y1 != y2, Xor(d1, d2));
    }
  }

  /** Opening the row: a party recovers the hash of the peer's key plus its bit times the peer's contribution. */
  lemma RowOpens(h: TweakedHash, t: nat, a: Share, ap: Share, bp: Share, d: Block, dp: Block)
    requires Paired(a, ap, d, dp) || Paired(ap, a, dp, d)
    ensures Xor(h(t, a.mac), Sel(Bit(a), Ciphertext(h, t, ap, bp, dp)))
         == Xor(h(t, ap.key), Sel(Bit(a), Contribution(bp, dp)))
  {
    if !Bit(a) {
      assert a.mac == ap.key;
    }
  }

  /** S_1 ^ S_2 = (ab ^ r)(Delta_1 ^ Delta_2) at every candidate. */
  lemma RecoveredSum(h: TweakedHash, t: nat, a1: Share, a2: Share, b1: Share, b2: Share, r1: Share, r2: Share,
                     d1: Block, d2: Block)
    requires Paired(a1, a2, d1, d2) && Paired(b1, b2, d1, d2) && Paired(r1, r2, d1, d2)
    ensures Xor(Recovered(h, t, a1, b1, r1, d1, Ciphertext(h, t, a2, b2, d2)),
                Recovered(h, t, a2, b2, r2, d2, Ciphertext(h, t, a1, b1, d1)))
         == Sel((Hidden(a1, a2) && Hidden(b1, b2)) != Hidden(r1, r2), Xor(d1, d2))
  {
    var c1, c2 := Contribution(b1, d1), Contribution(b2, d2);
    var x1, x2, z1, z2 := Bit(a1), Bit(a2), Bit(r1), Bit(r2);
    var k1, k2 := h(t, a1.key), h(t, a2.key);
    RowOpens(h, t, a1, a2, b2, d1, d2);
    RowOpens(h, t, a2, a1, b1, d2, d1);
    var s1 := Xor(Xor(Xor(Xor(Xor(k1, Xor(k2, Sel(x1, c2))), r1.key), r1.mac), Sel(x1, c1)), Sel(z1, d1));
    var s2 := Xor(Xor(Xor(Xor(Xor(k2, Xor(k1, Sel(x2, c1))), r2.key), r2.mac), Sel(x2, c2)), Sel(z2, d2));
    var p1, q1 := Xor(Sel(x1, c2), Sel(x1, c1)), Contribution(r1, d1);
    var p2, q2 := Xor(Sel(x2, c1), Sel(x2, c2)), Contribution(r2, d2);
    assert s1 == Xor(Xor(k1, k2), Xor(p1, q1)) by { Regroup(k1, k2, Sel(x1, c2), r1.key, r1.mac, Sel(x1, c1), Sel(z1, d1)); }
    assert s2 == Xor(Xor(k1, k2), Xor(p2, q2)) by { Regroup(k2, k1, Sel(x2, c1), r2.key, r2.mac, Sel(x2, c2), Sel(z2, d2)); }
    XorCommonSummand(Xor(k1, k2), Xor(p1, q1), Xor(p2, q2));
    XorInterchange(p1, q1, p2, q2);
    var cc, dd, y := Xor(c1, c2), Xor(d1, d2), Hidden(b1, b2);
    assert p1 == Sel(x1, cc) && p2 == Sel(x2, cc);
    SelXor(x1, x2, cc);
    ContributionsSum(b1, b2, d1, d2);
    ContributionsSum(r1, r2, d1, d2);
    SelXor((x1 != x2) && y, z1 != z2, dd);
  }

  lemma Regroup(k: Block, kp: Block, u: Block, rk: Block, rm: Block, v: Block, z: Block)
    ensures Xor(Xor(Xor(Xor(Xor(k, Xor(kp, u)), rk), rm), v), z)
         == Xor(Xor(k, kp), Xor(Xor(u, v), Xor(Xor(z, rk), rm)))
  {
  }

  /** Opening bit 1 of S_1 ^ S_2 reads off `ab ^ r`; it equals the two parties' bits XORed. */
  lemma OpenedBit(s1: Block, s2: Block, e: bool, d1: Block, d2: Block)
    requires Xor(s1, s2) == Sel(e, Xor(d1, d2)) && GoodDeltas(d1, d2)
    ensures (Lsb1(s1) != Lsb1(s2)) == e
  {
    assert Lsb1(Xor(s1, s2)) == e;
  }

  /** After the two parties fold in any opened bits `o1` and `o2`, their L-values agree exactly when both bits are right. */
  lemma LValuesAgreeIff(s1: Block, s2: Block, e: bool, o1: bool, o2: bool, d1: Block, d2: Block)
    requires Xor(s1, s2) == Sel(e, Xor(d1, d2)) && GoodDeltas(d1, d2)
    ensures Xor(s1, Sel(o1, d1)) == Xor(s2, Sel(o2, d2)) <==> o1 == o2 == e
  {
    var l1, l2 := Xor(s1, Sel(o1, d1)), Xor(s2, Sel(o2, d2));
    if o1 == o2 {
      XorInterchange(s1, Sel(o1, d1), s2, Sel(o2, d2));
      SelDistributes(o1, d1, d2);
      SelXor(e, o1, Xor(d1, d2));
      assert Xor(l1, l2) == Sel(e != o1, Xor(d1, d2));
      assert 1 in Xor(d1, d2);
      XorZeroIffEqual(l1, l2);
    } else {
      assert 0 !in Xor(s1, s2);
      assert 0 in l1 <==> 0 !in l2;
    }
  }
}
