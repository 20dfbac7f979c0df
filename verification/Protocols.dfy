/** Input authentication, public wires, and output decoding (protocol.h), run at both parties at once. */
module Protocols {
  import opened Blocks
  import opened Shares
  import opened Buckets
  import opened TriplePools
  import opened SecureWireBundles

  const PUBLIC: int := 0
  const ALICE: int := 1
  const BOB: int := 2

  predicate KnownOwner(o: int) {
    o == ALICE || o == BOB || o == PUBLIC
  }

  /** An authenticated opening of a share vector. The digest is taken to be injective, so it is kept as the MACs it was
      computed from. */
  datatype Opening = Opening(bits: seq<bool>, digest: seq<Block>)

  /** An opening as it arrives when the bits `flip` names were flipped on the way. */
  function Arriving(o: Opening, flip: nat -> bool): (r: Opening)
    ensures |r.bits| == |o.bits| && (r == o <==> forall i | 0 <= i < |o.bits| :: !flip(i))
  {
    var r := Opening(seq(|o.bits|, i requires 0 <= i < |o.bits| => o.bits[i] != flip(i)), o.digest);
    assert r.bits == o.bits <==> forall i | 0 <= i < |o.bits| :: !flip(i) by {
      if r.bits == o.bits {
        assert forall i | 0 <= i < |o.bits| :: (o.bits[i] != flip(i)) == r.bits[i];
      }
    }
    r
  }

  function BitsOf(s: seq<Share>): (r: seq<bool>)
    ensures |r| == |s|
  {
    seq(|s|, i requires 0 <= i < |s| => Bit(s[i]))
  }

  function MacsOf(s: seq<Share>): (r: seq<Block>)
    ensures |r| == |s|
  {
    seq(|s|, i requires 0 <= i < |s| => s[i].mac)
  }

  /** The MACs a party with keys `s` and global key `d` expects for the claimed bits of its peer. */
  function ExpectedMacs(s: seq<Share>, claimed: seq<bool>, d: Block): (r: seq<Block>)
    requires |claimed| == |s|
    ensures |r| == |s|
  {
    seq(|s|, i requires 0 <= i < |s| => Xor(s[i].key, Sel(claimed[i], d)))
  }

  /** The opening check is exact: against the digest of the sender's MACs, a claimed share vector passes if and only if
      it is the sender's own. Both directions of the channel. */
  lemma OpeningIsExact(s1: seq<Share>, s2: seq<Share>, d1: Block, d2: Block, claimed: seq<bool>)
    requires AllPaired(s1, s2, d1, d2) && GoodDeltas(d1, d2) && |claimed| == |s1|
    ensures ExpectedMacs(s2, claimed, d2) == MacsOf(s1) <==> claimed == BitsOf(s1)
    ensures ExpectedMacs(s1, claimed, d1) == MacsOf(s2) <==> claimed == BitsOf(s2)
  {
    hide Paired, Xor, Sel, GoodDeltas, Bit;
    forall i | 0 <= i < |s1|
      ensures ExpectedMacs(s2, claimed, d2)[i] == MacsOf(s1)[i] <==> claimed[i] == BitsOf(s1)[i]
      ensures ExpectedMacs(s1, claimed, d1)[i] == MacsOf(s2)[i] <==> claimed[i] == BitsOf(s2)[i]
    {
      MacAuthenticatesBit(s1[i], s2[i], d1, d2, claimed[i]);
    }
  }

  /** The wires an owner holds, in order. */
  function OwnedBy(ownerOf: seq<int>, p: int, k: nat): (r: seq<nat>)
    requires k <= |ownerOf|
    ensures forall i | 0 <= i < |r| :: r[i] < k && ownerOf[r[i]] == p
    ensures forall w | 0 <= w < k && ownerOf[w] == p :: w in r
    ensures forall i, j | 0 <= i < j < |r| :: r[i] < r[j]
  {
    if k == 0 then [] else
    var rest := OwnedBy(ownerOf, p, k - 1);
    if ownerOf[k - 1] == p then rest + [k - 1] else rest
  }

  /** The bits at the given places. */
  function At(x: seq<bool>, places: seq<nat>): (r: seq<bool>)
    requires forall i | 0 <= i < |places| :: places[i] < |x|
    ensures |r| == |places|
  {
    seq(|places|, i requires 0 <= i < |places| => x[places[i]])
  }

  lemma NothingOwned(ownerOf: seq<int>, p: int, x: seq<bool>)
    requires |x| == |ownerOf|
    ensures OwnedBy(ownerOf, p, 0) == [] && At(x, OwnedBy(ownerOf, p, 0)) == []
  {
  }

  lemma OwnedStep(ownerOf: seq<int>, p: int, x: seq<bool>, k: nat)
    requires k < |ownerOf| == |x|
    ensures OwnedBy(ownerOf, p, k + 1) == OwnedBy(ownerOf, p, k) + if ownerOf[k] == p then [k] else []
    ensures At(x, OwnedBy(ownerOf, p, k + 1)) == At(x, OwnedBy(ownerOf, p, k)) + if ownerOf[k] == p then [x[k]] else []
  {
  }

  /** All input vectors end to end, and where vector `k` starts. */
  function Flat<T>(vs: seq<seq<T>>, k: nat): seq<T>
    requires k <= |vs|
  {
    if k == 0 then [] else Flat(vs, k - 1) + vs[k - 1]
  }

  lemma FlatUnfolds<T>(vs: seq<seq<T>>)
    ensures Flat(vs, 0) == []
    ensures forall k {:trigger vs[k]} | 0 <= k < |vs| :: Flat(vs, k + 1) == Flat(vs, k) + vs[k]
  {
  }

  lemma OwnersAt(owners: seq<int>, bits: seq<seq<bool>>, k: nat)
    requires k < |owners| == |bits|
    ensures Owners(owners, bits)[k] == seq(|bits[k]|, _ => owners[k])
  {
  }

  lemma {:induction false} FlatGrows<T>(vs: seq<seq<T>>, j: nat, k: nat)
    requires j <= k <= |vs|
    ensures Flat(vs, j) <= Flat(vs, k)
    decreases k
  {
    if j < k {
      FlatGrows(vs, j, k - 1);
    }
  }

  lemma FlatSlice<T>(vs: seq<seq<T>>, k: nat)
    requires k < |vs|
    ensures |Flat(vs, k)| + |vs[k]| <= |Flat(vs, |vs|)|
    ensures Flat(vs, |vs|)[|Flat(vs, k)|..|Flat(vs, k)| + |vs[k]|] == vs[k]
  {
    FlatGrows(vs, k + 1, |vs|);
  }

  /** One party's protocol state. */
  class Protocol {
    const pool: TriplePool
    var processInputCalls: nat

    constructor (pool: TriplePool)
      ensures this.pool == pool && processInputCalls == 0
    {
      this.pool := pool;
      processInputCalls := 0;
    }

    /** Count the call, then validate the request before any communication. */
    method BeginInputs(owners: seq<int>, bits: seq<seq<bool>>) returns (ok: bool)
      modifies this`processInputCalls
      ensures ok <==> |owners| == |bits| && forall k | 0 <= k < |owners| :: owners[k] == ALICE || owners[k] == BOB
      ensures processInputCalls == old(processInputCalls) + 1
    {
      processInputCalls := processInputCalls + 1;
      if |owners| != |bits| {
        return false;
      }
      for k := 0 to |owners|
        invariant forall j | 0 <= j < k :: owners[j] == ALICE || owners[j] == BOB
      {
        if owners[k] != ALICE && owners[k] != BOB {
          return false;
        }
      }
      ok := true;
    }

    /** Which owner each wire has, this party's own bits (0 elsewhere), and where each vector starts. */
    method Layout(owners: seq<int>, bits: seq<seq<bool>>) returns (offs: seq<nat>, ownerOf: seq<int>, own: seq<bool>)
      requires |owners| == |bits|
      ensures |offs| == |bits| && forall k | 0 <= k < |bits| :: offs[k] == |Flat(bits, k)|
      ensures |ownerOf| == |own| == |Flat(bits, |bits|)|
      ensures ownerOf == Flat(Owners(owners, bits), |bits|)
      ensures forall w | 0 <= w < |own| :: own[w] == (ownerOf[w] == pool.party && Flat(bits, |bits|)[w])
    {
      hide Flat, Owners;
      offs, ownerOf, own := [], [], [];
      FlatUnfolds(Owners(owners, bits));
      FlatUnfolds(bits);
      for k := 0 to |bits|
        invariant |offs| == k && forall j | 0 <= j < k :: offs[j] == |Flat(bits, j)|
        invariant |ownerOf| == |own| == |Flat(bits, k)| && ownerOf == Flat(Owners(owners, bits), k)
        invariant forall w | 0 <= w < |own| :: own[w] == (ownerOf[w] == pool.party && Flat(bits, k)[w])
      {
        FlatUnfolds(bits);
        FlatUnfolds(Owners(owners, bits));
        OwnersAt(owners, bits, k);
        offs := offs + [|own|];
        var o, mine := owners[k], owners[k] == pool.party;
        ownerOf := ownerOf + seq(|bits[k]|, _ => o);
        own := own + seq(|bits[k]|, i requires 0 <= i < |bits[k]| => mine && bits[k][i]);
      }
    }

    /** Open this party's shares of `bundle`. */
    method Open(bundle: seq<Share>) returns (o: Opening)
      ensures o == Opening(BitsOf(bundle), MacsOf(bundle))
    {
      var bits, macs := [], [];
      for i := 0 to |bundle|
        invariant |bits| == |macs| == i
        invariant forall j | 0 <= j < i :: bits[j] == Bit(bundle[j]) && macs[j] == bundle[j].mac
      {
        bits, macs := bits + [Bit(bundle[i])], macs + [bundle[i].mac];
      }
      o := Opening(bits, macs);
    }

    /** Check a received opening against this party's own keys. */
    method Verify(bundle: seq<Share>, o: Opening) returns (ok: bool)
      requires |o.bits| == |bundle|
      ensures ok <==> o.digest == ExpectedMacs(bundle, o.bits, pool.delta)
    {
      hide Xor, Sel;
      var expected := [];
      for i := 0 to |bundle|
        invariant |expected| == i
        invariant forall j | 0 <= j < i :: expected[j] == Xor(bundle[j].key, Sel(o.bits[j], pool.delta))
      {
        expected := expected + [Xor(bundle[i].key, Sel(o.bits[i], pool.delta))];
      }
      assert expected == ExpectedMacs(bundle, o.bits, pool.delta);
      ok := expected == o.digest;
    }

    /** Pack the bits of the wires this party owns, and list the wires it does not. */
    method Pack(ownerOf: seq<int>, own: seq<bool>) returns (packed: seq<bool>, peerIdx: seq<nat>)
      requires |own| == |ownerOf| && (pool.party == ALICE || pool.party == BOB)
      requires forall w | 0 <= w < |ownerOf| :: ownerOf[w] == ALICE || ownerOf[w] == BOB
      ensures packed == At(own, OwnedBy(ownerOf, pool.party, |ownerOf|))
      ensures peerIdx == OwnedBy(ownerOf, ALICE + BOB - pool.party, |ownerOf|)
    {
      hide OwnedBy, At;
      packed, peerIdx := [], [];
      NothingOwned(ownerOf, pool.party, own);
      NothingOwned(ownerOf, ALICE + BOB - pool.party, own);
      for w := 0 to |ownerOf|
        invariant packed == At(own, OwnedBy(ownerOf, pool.party, w))
        invariant peerIdx == OwnedBy(ownerOf, ALICE + BOB - pool.party, w)
      {
        OwnedStep(ownerOf, pool.party, own, w);
        OwnedStep(ownerOf, ALICE + BOB - pool.party, own, w);
        if ownerOf[w] == pool.party {
          packed := packed + [own[w]];
        } else {
          peerIdx := peerIdx + [w];
        }
      }
    }

    /** The opened masks: both share bits, this party's own bits, then the peer's bits scattered to the wires it owns. */
    method OpenMasks(mine: seq<bool>, theirs: seq<bool>, own: seq<bool>, peerIdx: seq<nat>, peerBits: seq<bool>)
      returns (masks: seq<bool>)
      requires |mine| == |theirs| == |own| && |peerBits| == |peerIdx|
      requires forall i | 0 <= i < |peerIdx| :: peerIdx[i] < |mine|
      requires forall i, j | 0 <= i < j < |peerIdx| :: peerIdx[i] < peerIdx[j]
      ensures |masks| == |mine|
      ensures forall i | 0 <= i < |peerIdx| :: var w := peerIdx[i]; masks[w] == (((mine[w] != theirs[w]) != own[w]) != peerBits[i])
      ensures forall w | 0 <= w < |mine| && w !in peerIdx :: masks[w] == ((mine[w] != theirs[w]) != own[w])
    {
      masks := seq(|mine|, w requires 0 <= w < |mine| => (mine[w] != theirs[w]) != own[w]);
      for i := 0 to |peerIdx|
        invariant |masks| == |mine|
        invariant forall j | 0 <= j < i :: var w := peerIdx[j]; masks[w] == (((mine[w] != theirs[w]) != own[w]) != peerBits[j])
        invariant forall w | 0 <= w < |mine| && w !in peerIdx[..i] :: masks[w] == ((mine[w] != theirs[w]) != own[w])
      {
        var w := peerIdx[i];
        assert w !in peerIdx[..i];
        masks := masks[w := masks[w] != peerBits[i]];
        assert peerIdx[..i + 1] == peerIdx[..i] + [w];
      }
    }

    /** The garbler's labels of the opened masks. */
    method ActiveLabels(label0: seq<Block>, masks: seq<bool>) returns (labels: seq<Block>)
      requires |label0| == |masks|
      ensures |labels| == |masks| && forall w | 0 <= w < |masks| :: labels[w] == Xor(label0[w], Sel(masks[w], pool.delta))
    {
      hide Xor, Sel;
      labels := seq(|masks|, w requires 0 <= w < |masks| => Xor(label0[w], Sel(masks[w], pool.delta)));
    }

    /** Public constant wires: no OT and no communication. */
    method PublicWires(bits: seq<bool>) returns (sw: SecureWires)
      ensures sw == PublicBundle(pool.party, pool.delta, bits)
    {
      var n := |bits|;
      var labels := seq(n, i requires 0 <= i < n => if bits[i] then pool.delta else ZERO);
      sw := if pool.party == 1 then SecureWires(bits, seq(n, _ => NO_SHARE), labels, [])
            else SecureWires(bits, seq(n, _ => NO_SHARE), [], seq(n, _ => ZERO));
    }
  }

  function PublicBundle(party: nat, d: Block, bits: seq<bool>): SecureWires {
    SecureWires(bits, seq(|bits|, _ => NO_SHARE),
                if party == 1 then seq(|bits|, i requires 0 <= i < |bits| => Sel(bits[i], d)) else [],
                if party == 1 then [] else seq(|bits|, _ => ZERO))
  }

  /** Public wires are well formed, agreed, and stand for the public bits, with no interaction. */
  lemma PublicWiresEncode(d1: Block, d2: Block, bits: seq<bool>)
    ensures Encode(PublicBundle(1, d1, bits), PublicBundle(2, d2, bits), d1, d2, bits)
    ensures Synced(PublicBundle(1, d1, bits), PublicBundle(2, d2, bits))
  {
    hide Encode;
    forall i | 0 <= i < |bits|
      ensures WireOk(NO_SHARE, NO_SHARE, Sel(bits[i], d1), ZERO, bits[i], d1, d2, bits[i])
    {
      XorZero(d1);
    }
    PublicShapes(d1, d2, bits);
  }

  lemma PublicShapes(d1: Block, d2: Block, bits: seq<bool>)
    requires forall i | 0 <= i < |bits| :: WireOk(NO_SHARE, NO_SHARE, Sel(bits[i], d1), ZERO, bits[i], d1, d2, bits[i])
    ensures Encode(PublicBundle(1, d1, bits), PublicBundle(2, d2, bits), d1, d2, bits)
  {
    hide WireOk, Sel;
  }

  /** `owners[k]` once for each bit of vector `k`. */
  function Owners(owners: seq<int>, bits: seq<seq<bool>>): (r: seq<seq<int>>)
    requires |owners| == |bits|
    ensures |r| == |bits|
  {
    seq(|bits|, k requires 0 <= k < |bits| => seq(|bits[k]|, _ => owners[k]))
  }

  // ---- the input phase ----

  datatype InputsResult = Inputs(w1: seq<SecureWires>, w2: seq<SecureWires>) | BadRequest | MacMismatch

  /** The vector that counts for owner `o`. */
  function Chosen(o: int, x1: seq<bool>, x2: seq<bool>): seq<bool> {
    if o == ALICE then x1 else x2
  }

  /** Both parties name the same owners and widths; only the owner's bits matter. */
  predicate SameShape(bits1: seq<seq<bool>>, bits2: seq<seq<bool>>) {
    |bits1| == |bits2| && forall k | 0 <= k < |bits1| :: |bits1[k]| == |bits2[k]|
  }

  lemma {:induction false} SameShapeSizes(bits1: seq<seq<bool>>, bits2: seq<seq<bool>>, owners: seq<int>, k: nat)
    requires SameShape(bits1, bits2) && k <= |bits1| == |owners|
    ensures |Flat(bits1, k)| == |Flat(bits2, k)| == |Flat(Owners(owners, bits1), k)|
    ensures Owners(owners, bits1) == Owners(owners, bits2)
  {
    if k > 0 {
      SameShapeSizes(bits1, bits2, owners, k - 1);
    }
  }

  function AllChosen(owners: seq<int>, bits1: seq<seq<bool>>, bits2: seq<seq<bool>>): (r: seq<seq<bool>>)
    requires |owners| == |bits1| == |bits2|
    ensures |r| == |owners|
  {
    seq(|owners|, k requires 0 <= k < |owners| => Chosen(owners[k], bits1[k], bits2[k]))
  }

  lemma {:induction false} FlatChosen(owners: seq<int>, bits1: seq<seq<bool>>, bits2: seq<seq<bool>>, k: nat)
    requires SameShape(bits1, bits2) && k <= |owners| == |bits1|
    requires forall j | 0 <= j < |owners| :: owners[j] == ALICE || owners[j] == BOB
    ensures |Flat(bits1, k)| == |Flat(bits2, k)| == |Flat(AllChosen(owners, bits1, bits2), k)| == |Flat(Owners(owners, bits1), k)|
    ensures forall w | 0 <= w < |Flat(bits1, k)| :: var o := Flat(Owners(owners, bits1), k)[w];
      && (o == ALICE || o == BOB)
      && Flat(AllChosen(owners, bits1, bits2), k)[w] == if o == ALICE then Flat(bits1, k)[w] else Flat(bits2, k)[w]
  {
    if k > 0 {
      FlatChosen(owners, bits1, bits2, k - 1);
    }
  }

  /** The owner's message carries exactly the bits the other side misses: scattering them completes every mask. */
  lemma ScatterCompletes(ownerOf: seq<int>, peer: int, own: seq<bool>, theirs: seq<bool>, base: seq<bool>, masks: seq<bool>)
    requires |own| == |theirs| == |base| == |masks| == |ownerOf|
    requires forall w | 0 <= w < |ownerOf| && theirs[w] :: ownerOf[w] == peer
    requires var idx := OwnedBy(ownerOf, peer, |ownerOf|);
      && (forall i | 0 <= i < |idx| :: var w := idx[i]; masks[w] == ((base[w] != own[w]) != At(theirs, idx)[i]))
      && (forall w | 0 <= w < |ownerOf| && w !in idx :: masks[w] == (base[w] != own[w]))
    ensures forall w | 0 <= w < |ownerOf| :: masks[w] == ((base[w] != own[w]) != theirs[w])
  {
    var idx := OwnedBy(ownerOf, peer, |ownerOf|);
    forall w | 0 <= w < |ownerOf|
      ensures masks[w] == ((base[w] != own[w]) != theirs[w])
    {
      if w in idx {
        var i :| 0 <= i < |idx| && idx[i] == w;
      }
    }
  }

  lemma IsFresh(b: seq<Share>, cot: nat -> Share, at: nat, n: nat)
    requires |b| == n && forall i | 0 <= i < n :: b[i] == cot(at + i)
    ensures b == Fresh(cot, at, n)
  {
  }

  lemma DrawnPaired(p1: TriplePool, p2: TriplePool, n: nat)
    requires Linked(p1, p2)
    ensures AllPaired(Fresh(p1.cot, p1.drawn, n), Fresh(p2.cot, p2.drawn, n), p1.delta, p2.delta) && GoodDeltas(p1.delta, p2.delta)
  {
    hide Paired, GoodDeltas;
  }

  /** Both checks pass if and only if nothing was flipped in either direction. */
  lemma BothArrive(b1: seq<Share>, b2: seq<Share>, d1: Block, d2: Block, in1: nat -> bool, in2: nat -> bool)
    requires AllPaired(b1, b2, d1, d2) && GoodDeltas(d1, d2)
    ensures |b1| == |b2|
    ensures ExpectedMacs(b1, Arriving(Opening(BitsOf(b2), MacsOf(b2)), in1).bits, d1) == MacsOf(b2)
      <==> forall i | 0 <= i < |b1| :: !in1(i)
    ensures ExpectedMacs(b2, Arriving(Opening(BitsOf(b1), MacsOf(b1)), in2).bits, d2) == MacsOf(b1)
      <==> forall i | 0 <= i < |b1| :: !in2(i)
  {
    hide Paired, BitsOf, MacsOf, ExpectedMacs, GoodDeltas;
    var o1, o2 := Arriving(Opening(BitsOf(b1), MacsOf(b1)), in2), Arriving(Opening(BitsOf(b2), MacsOf(b2)), in1);
    OpeningIsExact(b1, b2, d1, d2, o1.bits);
    OpeningIsExact(b1, b2, d1, d2, o2.bits);
  }

  lemma NothingFlipped(n: nat, in1: nat -> bool, in2: nat -> bool)
    ensures (forall i | 0 <= i < n :: !in1(i) && !in2(i)) <==> (forall i | 0 <= i < n :: !in1(i)) && forall i | 0 <= i < n :: !in2(i)
  {
  }

  lemma ArrivesSameShape(o: Opening, flip: nat -> bool)
    ensures |Arriving(o, flip).bits| == |o.bits| && Arriving(o, flip).digest == o.digest
  {
  }

  /** Draw the mask shares of all wires at both parties and exchange their openings; `in1` and `in2` say which of the bits that
      party 1 and party 2 receive were flipped on the way. The exchange succeeds exactly when none was. */
  method ExchangeOpenings(q1: Protocol, q2: Protocol, n: nat, in1: nat -> bool, in2: nat -> bool)
    returns (ok: bool, b1: seq<Share>, b2: seq<Share>, o1: Opening, o2: Opening)
    requires Linked(q1.pool, q2.pool)
    modifies q1.pool`drawn, q1.pool`mintedSinceCheck, q2.pool`drawn, q2.pool`mintedSinceCheck
    ensures Linked(q1.pool, q2.pool) && q1.pool.drawn == old(q1.pool.drawn) + n
    ensures b1 == Fresh(q1.pool.cot, old(q1.pool.drawn), n) && b2 == Fresh(q2.pool.cot, old(q2.pool.drawn), n)
    ensures AllPaired(b1, b2, q1.pool.delta, q2.pool.delta)
    ensures q1.pool.mintedSinceCheck && q2.pool.mintedSinceCheck
    ensures ok <==> forall i | 0 <= i < n :: !in1(i) && !in2(i)
    ensures o1 == Arriving(Opening(BitsOf(b1), MacsOf(b1)), in2) && o2 == Arriving(Opening(BitsOf(b2), MacsOf(b2)), in1)
  {
    hide Paired, BitsOf, MacsOf, ExpectedMacs, GoodDeltas, AllPaired, Arriving, Fresh;
    DrawnPaired(q1.pool, q2.pool, n);
    b1 := q1.pool.Draw(n);
    b2 := q2.pool.Draw(n);
    var sent1 := q1.Open(b1);
    var sent2 := q2.Open(b2);
    o1, o2 := Arriving(sent1, in2), Arriving(sent2, in1);
    ArrivesSameShape(sent1, in2);
    ArrivesSameShape(sent2, in1);
    NothingFlipped(n, in1, in2);
    IsFresh(b1, q1.pool.cot, old(q1.pool.drawn), n);
    IsFresh(b2, q2.pool.cot, old(q2.pool.drawn), n);
    BothArrive(b1, b2, q1.pool.delta, q2.pool.delta, in1, in2);
    var v1 := q1.Verify(b1, o2);
    var v2 := q2.Verify(b2, o1);
    ok := v1 && v2;
  }

  /** Each party's opened masks, completed by the bits its peer packed. */
  method CompleteMasks(q1: Protocol, q2: Protocol, ownerOf: seq<int>, own1: seq<bool>, own2: seq<bool>, s1: seq<bool>, s2: seq<bool>)
    returns (masks1: seq<bool>, masks2: seq<bool>)
    requires q1.pool.party == ALICE && q2.pool.party == BOB
    requires |own1| == |own2| == |ownerOf| == |s1| == |s2|
    requires forall w | 0 <= w < |ownerOf| :: ownerOf[w] == ALICE || ownerOf[w] == BOB
    requires forall w | 0 <= w < |own1| && own1[w] :: ownerOf[w] == ALICE
    requires forall w | 0 <= w < |own2| && own2[w] :: ownerOf[w] == BOB
    ensures |masks1| == |masks2| == |ownerOf|
    ensures forall w | 0 <= w < |ownerOf| :: masks1[w] == masks2[w] == ((s1[w] != s2[w]) != (own1[w] != own2[w]))
  {
    hide OwnedBy, At;
    OwnedInOrder(ownerOf, ALICE);
    OwnedInOrder(ownerOf, BOB);
    var packed1, peer1 := q1.Pack(ownerOf, own1);
    var packed2, peer2 := q2.Pack(ownerOf, own2);
    masks1 := q1.OpenMasks(s1, s2, own1, peer1, packed2);
    masks2 := q2.OpenMasks(s2, s1, own2, peer2, packed1);
    ghost var base := seq(|ownerOf|, w requires 0 <= w < |ownerOf| => s1[w] != s2[w]);
    ScatterCompletes(ownerOf, BOB, own1, own2, base, masks1);
    ScatterCompletes(ownerOf, ALICE, own2, own1, base, masks2);
  }

  /** Draw, open, check and mask all wires of one input phase, and ship their labels. */
  method AuthenticateWires(q1: Protocol, q2: Protocol, ownerOf: seq<int>, own1: seq<bool>, own2: seq<bool>, label0: seq<Block>,
                           in1: nat -> bool, in2: nat -> bool)
    returns (ok: bool, sw1: SecureWires, sw2: SecureWires)
    requires Linked(q1.pool, q2.pool) && |own1| == |own2| == |ownerOf| == |label0|
    requires forall w | 0 <= w < |ownerOf| :: ownerOf[w] == ALICE || ownerOf[w] == BOB
    requires forall w | 0 <= w < |own1| && own1[w] :: ownerOf[w] == ALICE
    requires forall w | 0 <= w < |own2| && own2[w] :: ownerOf[w] == BOB
    modifies q1.pool`drawn, q1.pool`mintedSinceCheck, q2.pool`drawn, q2.pool`mintedSinceCheck
    ensures Linked(q1.pool, q2.pool) && q1.pool.drawn == old(q1.pool.drawn) + |ownerOf|
    ensures q1.pool.mintedSinceCheck && q2.pool.mintedSinceCheck
    ensures ok <==> forall i | 0 <= i < |ownerOf| :: !in1(i) && !in2(i)
    ensures ok ==> Synced(sw1, sw2) && sw1.label0 == label0
    ensures ok ==> sw1.bundle == Fresh(q1.pool.cot, old(q1.pool.drawn), |ownerOf|)
    ensures ok ==> sw2.bundle == Fresh(q2.pool.cot, old(q2.pool.drawn), |ownerOf|)
    ensures ok ==> Encode(sw1, sw2, q1.pool.delta, q2.pool.delta, seq(|own1|, w requires 0 <= w < |own1| => own1[w] != own2[w]))
  {
    hide Paired, Xor, Sel, WireOk, Encode, Bit, Hidden, GoodDeltas, MacsOf, AllPaired, Fresh;
    var b1, b2, o1, o2;
    ok, b1, b2, o1, o2 := ExchangeOpenings(q1, q2, |ownerOf|, in1, in2);
    if !ok {
      return false, NO_WIRES, NO_WIRES;
    }
    var masks1, masks2 := CompleteMasks(q1, q2, ownerOf, own1, own2, o1.bits, o2.bits);
    var labels := q1.ActiveLabels(label0, masks1);
    sw1, sw2 := SecureWires(masks1, b1, label0, []), SecureWires(masks2, b2, [], labels);
    assert masks1 == masks2;
    InputsEncode(b1, b2, label0, labels, masks1, q1.pool.delta, q2.pool.delta, own1, own2);
  }

  lemma OwnedInOrder(ownerOf: seq<int>, p: int)
    ensures var r := OwnedBy(ownerOf, p, |ownerOf|);
      && (forall i | 0 <= i < |r| :: r[i] < |ownerOf|)
      && (forall i, j | 0 <= i < j < |r| :: r[i] < r[j])
  {
  }

  lemma InputsEncode(b1: seq<Share>, b2: seq<Share>, label0: seq<Block>, labels: seq<Block>, masks: seq<bool>,
                     d1: Block, d2: Block, own1: seq<bool>, own2: seq<bool>)
    requires AllPaired(b1, b2, d1, d2) && |b1| == |label0| == |labels| == |masks| == |own1| == |own2|
    requires forall w | 0 <= w < |b1| :: labels[w] == Xor(label0[w], Sel(masks[w], d1))
    requires forall w | 0 <= w < |b1| :: masks[w] == ((Bit(b1[w]) != Bit(b2[w])) != (own1[w] != own2[w]))
    ensures Encode(SecureWires(masks, b1, label0, []), SecureWires(masks, b2, [], labels), d1, d2,
                   seq(|own1|, w requires 0 <= w < |own1| => own1[w] != own2[w]))
  {
    hide Paired, Xor, Sel, Bit;
  }

  /** The wires `at ..` of a draw that started at `from`: their shares are the session's, and their labels the garbler's. */
  ghost predicate IsDrawn(w1: SecureWires, w2: SecureWires, cot1: nat -> Share, cot2: nat -> Share, from: nat, prg: nat -> Block, at: nat) {
    && w1.bundle == Fresh(cot1, from + at, |w1.masks|) && w2.bundle == Fresh(cot2, from + at, |w1.masks|)
    && w1.label0 == seq(|w1.masks|, i requires 0 <= i => prg(at + i))
  }

  /** The input phase: for any list of ALICE and BOB owners and any bits, the parties end up with well-formed wires for
      the owners' bits and the same opened masks, over the next shares of the COT session and the garbler's next labels; the draw
      is one batch, and a bad request is refused before it. `in1` and `in2` say which of the opened mask bits party 1 and party 2
      receive were flipped on the way; the phase aborts exactly when one was. */
  method ProcessInputs(q1: Protocol, q2: Protocol, owners: seq<int>, bits1: seq<seq<bool>>, bits2: seq<seq<bool>>,
                       prg: nat -> Block, in1: nat -> bool, in2: nat -> bool)
    returns (r: InputsResult)
    requires q1 != q2 && Linked(q1.pool, q2.pool) && SameShape(bits1, bits2)
    modifies q1`processInputCalls, q2`processInputCalls
    modifies q1.pool`drawn, q1.pool`mintedSinceCheck, q2.pool`drawn, q2.pool`mintedSinceCheck
    ensures Linked(q1.pool, q2.pool)
    ensures r.BadRequest? <==> |owners| != |bits1| || exists k | 0 <= k < |owners| :: owners[k] != ALICE && owners[k] != BOB
    ensures r.MacMismatch? <==> !r.BadRequest? && exists i | 0 <= i < |Flat(bits1, |bits1|)| :: in1(i) || in2(i)
    ensures q1.processInputCalls == old(q1.processInputCalls) + 1 && q2.processInputCalls == old(q2.processInputCalls) + 1
    ensures q1.pool.drawn == old(q1.pool.drawn) + if r.BadRequest? then 0 else |Flat(bits1, |bits1|)|
    ensures q1.pool.mintedSinceCheck == (old(q1.pool.mintedSinceCheck) || (!r.BadRequest? && |Flat(bits1, |bits1|)| > 0))
    ensures q2.pool.mintedSinceCheck == (old(q2.pool.mintedSinceCheck) || (!r.BadRequest? && |Flat(bits1, |bits1|)| > 0))
    ensures r.Inputs? ==> |r.w1| == |r.w2| == |owners| && forall k | 0 <= k < |owners| ::
      && Encode(r.w1[k], r.w2[k], q1.pool.delta, q2.pool.delta, Chosen(owners[k], bits1[k], bits2[k]))
      && Synced(r.w1[k], r.w2[k])
      && IsDrawn(r.w1[k], r.w2[k], q1.pool.cot, q2.pool.cot, old(q1.pool.drawn), prg, |Flat(bits1, k)|)
  {
    hide Encode, Paired, Flat, IsDrawn, Fresh, Synced, GoodDeltas, Owners;
    var ok1 := q1.BeginInputs(owners, bits1);
    var ok2 := q2.BeginInputs(owners, bits2);
    if !ok1 || !ok2 {
      return BadRequest;
    }
    var offs1, ownerOf1, own1 := q1.Layout(owners, bits1);
    var offs2, ownerOf2, own2 := q2.Layout(owners, bits2);
    var n := |own1|;
    FlatChosen(owners, bits1, bits2, |bits1|);
    SameShapeSizes(bits1, bits2, owners, |bits1|);
    ghost var all, from := AllChosen(owners, bits1, bits2), q1.pool.drawn;
    if n == 0 {
      EmptyChosen(all, q1.pool.delta, q2.pool.delta);
      assert forall k | 0 <= k < |owners| :: all[k] == Chosen(owners[k], bits1[k], bits2[k]);
      NothingDrawn(q1.pool.cot, q2.pool.cot, from, prg);
      return Inputs(seq(|owners|, _ => NO_WIRES), seq(|owners|, _ => NO_WIRES));
    }
    var ok, sw1, sw2 := AuthenticateWires(q1, q2, ownerOf1, own1, own2, seq(n, i requires 0 <= i => prg(i)), in1, in2);
    if !ok {
      return MacMismatch;
    }
    ChosenOffsets(owners, bits1, bits2, all, offs1);
    assert Flat(all, |all|) == seq(|own1|, w requires 0 <= w < |own1| => own1[w] != own2[w]);
    EncodedShapes(sw1, sw2, q1.pool.delta, q2.pool.delta, Flat(all, |all|));
    var w1, w2 := SliceOwners(sw1, sw2, q1.pool.delta, q2.pool.delta, offs1, bits1, all);
    AllSlicesDrawn(sw1, sw2, q1.pool.cot, q2.pool.cot, from, prg, n, offs1, bits1, w1, w2);
    r := Inputs(w1, w2);
  }

  lemma ChosenOffsets(owners: seq<int>, bits1: seq<seq<bool>>, bits2: seq<seq<bool>>, all: seq<seq<bool>>, offs: seq<nat>)
    requires SameShape(bits1, bits2) && |owners| == |bits1| == |offs| && all == AllChosen(owners, bits1, bits2)
    requires forall j | 0 <= j < |owners| :: owners[j] == ALICE || owners[j] == BOB
    requires forall k | 0 <= k < |bits1| :: offs[k] == |Flat(bits1, k)|
    ensures forall k | 0 <= k < |all| :: offs[k] == |Flat(all, k)| && |bits1[k]| == |all[k]|
  {
    hide Flat;
    forall k | 0 <= k < |all|
      ensures offs[k] == |Flat(all, k)|
    {
      FlatChosen(owners, bits1, bits2, k);
    }
  }

  lemma AllSlicesDrawn(w1: SecureWires, w2: SecureWires, cot1: nat -> Share, cot2: nat -> Share, from: nat, prg: nat -> Block, n: nat,
                       offs: seq<nat>, bits: seq<seq<bool>>, s1: seq<SecureWires>, s2: seq<SecureWires>)
    requires w1.bundle == Fresh(cot1, from, n) && w2.bundle == Fresh(cot2, from, n) && w1.label0 == seq(n, i requires 0 <= i => prg(i))
    requires |w1.masks| == |w2.masks| == n && w1.evalLabel == [] && w2.label0 == [] && |w2.evalLabel| == n
    requires |offs| == |bits| == |s1| == |s2|
    requires forall k | 0 <= k < |bits| ::
      offs[k] + |bits[k]| <= n && s1[k] == w1.Slice(offs[k], offs[k] + |bits[k]|) && s2[k] == w2.Slice(offs[k], offs[k] + |bits[k]|)
    ensures forall k | 0 <= k < |bits| :: IsDrawn(s1[k], s2[k], cot1, cot2, from, prg, offs[k])
  {
    hide IsDrawn, Fresh, SecureWires.Slice;
    forall k | 0 <= k < |bits|
      ensures IsDrawn(s1[k], s2[k], cot1, cot2, from, prg, offs[k])
    {
      SlicesDrawn(w1, w2, cot1, cot2, from, prg, n, offs[k], offs[k] + |bits[k]|);
    }
  }

  lemma NothingDrawn(cot1: nat -> Share, cot2: nat -> Share, from: nat, prg: nat -> Block)
    ensures forall at :: IsDrawn(NO_WIRES, NO_WIRES, cot1, cot2, from, prg, at)
  {
  }

  lemma SlicesDrawn(w1: SecureWires, w2: SecureWires, cot1: nat -> Share, cot2: nat -> Share, from: nat, prg: nat -> Block, n: nat,
                    lo: nat, hi: nat)
    requires w1.bundle == Fresh(cot1, from, n) && w2.bundle == Fresh(cot2, from, n) && w1.label0 == seq(n, i requires 0 <= i => prg(i))
    requires |w1.masks| == |w2.masks| == n && lo <= hi <= n && w1.evalLabel == [] && w2.label0 == [] && |w2.evalLabel| == n
    ensures IsDrawn(w1.Slice(lo, hi), w2.Slice(lo, hi), cot1, cot2, from, prg, lo)
  {
  }

  /** Cut the combined bundles back into one per owner. */
  method SliceOwners(sw1: SecureWires, sw2: SecureWires, ghost d1: Block, ghost d2: Block, offs: seq<nat>,
                     bits: seq<seq<bool>>, ghost all: seq<seq<bool>>)
    returns (w1: seq<SecureWires>, w2: seq<SecureWires>)
    requires Encode(sw1, sw2, d1, d2, Flat(all, |all|)) && Synced(sw1, sw2)
    requires |offs| == |bits| == |all| && forall k | 0 <= k < |all| :: offs[k] == |Flat(all, k)| && |bits[k]| == |all[k]|
    ensures |w1| == |w2| == |all|
    ensures forall k | 0 <= k < |all| ::
      && offs[k] + |bits[k]| <= |sw1.masks| == |sw2.masks|
      && w1[k] == sw1.Slice(offs[k], offs[k] + |bits[k]|) && w2[k] == sw2.Slice(offs[k], offs[k] + |bits[k]|)
      && Encode(w1[k], w2[k], d1, d2, all[k]) && Synced(w1[k], w2[k])
  {
    hide Encode, Flat;
    w1, w2 := [], [];
    EncodedShapes(sw1, sw2, d1, d2, Flat(all, |all|));
    for k := 0 to |bits|
      invariant |w1| == |w2| == k
      invariant forall j | 0 <= j < k ::
        && offs[j] + |bits[j]| <= |sw1.masks| == |sw2.masks|
        && w1[j] == sw1.Slice(offs[j], offs[j] + |bits[j]|) && w2[j] == sw2.Slice(offs[j], offs[j] + |bits[j]|)
        && Encode(w1[j], w2[j], d1, d2, all[j]) && Synced(w1[j], w2[j])
    {
      FlatSlice(all, k);
      EncodeSlices(sw1, sw2, d1, d2, Flat(all, |all|), offs[k], offs[k] + |all[k]|);
      w1 := w1 + [sw1.Slice(offs[k], offs[k] + |bits[k]|)];
      w2 := w2 + [sw2.Slice(offs[k], offs[k] + |bits[k]|)];
    }
  }

  /** When there is no bit at all every vector is empty. */
  lemma EmptyChosen(all: seq<seq<bool>>, d1: Block, d2: Block)
    requires |Flat(all, |all|)| == 0
    ensures forall k | 0 <= k < |all| :: Encode(NO_WIRES, NO_WIRES, d1, d2, all[k]) && Synced(NO_WIRES, NO_WIRES)
  {
    forall k | 0 <= k < |all|
      ensures all[k] == []
    {
      FlatSlice(all, k);
    }
  }

  // ---- output decoding ----

  datatype DecodeResult = Decoded(bits1: seq<bool>, bits2: seq<bool>) | BadBundle | OpeningRefused

  /** Open the wires to one party: the other ships its authenticated shares, the recipient checks and unmasks them. `flip` says
      which of the bits were flipped on the way. */
  method DecodeTo(from: Protocol, to: Protocol, wFrom: SecureWires, wTo: SecureWires, flip: nat -> bool)
    returns (ok: bool, bits: seq<bool>)
    requires |wFrom.bundle| == |wTo.bundle| == |wTo.masks|
    ensures var o := Arriving(Opening(BitsOf(wFrom.bundle), MacsOf(wFrom.bundle)), flip);
      && (ok <==> MacsOf(wFrom.bundle) == ExpectedMacs(wTo.bundle, o.bits, to.pool.delta))
      && |bits| == |wTo.masks|
      && forall i | 0 <= i < |bits| :: bits[i] == ((Bit(wTo.bundle[i]) != wTo.masks[i]) != o.bits[i])
  {
    hide MacsOf, ExpectedMacs, Bit;
    var sent := from.Open(wFrom.bundle);
    var o := Arriving(sent, flip);
    ok := to.Verify(wTo.bundle, o);
    var mine := to.Open(wTo.bundle);
    bits := seq(|wTo.masks|, i requires 0 <= i < |wTo.masks| => (mine.bits[i] != wTo.masks[i]) != o.bits[i]);
  }

  /** What ALICE decodes: the value, off by the disagreement of the two opened masks. */
  function AliceDecodes(w1: SecureWires, w2: SecureWires, x: seq<bool>): (r: seq<bool>)
    requires |w1.masks| == |w2.masks| == |x|
    ensures |r| == |x| && (r == x <==> Synced(w1, w2))
  {
    var r := seq(|x|, i requires 0 <= i < |x| => x[i] != (w1.masks[i] != w2.masks[i]));
    assert r == x <==> w1.masks == w2.masks by {
      if r == x {
        forall i | 0 <= i < |x|
          ensures w1.masks[i] == w2.masks[i]
        {
          assert r[i] == x[i];
        }
      }
    }
    r
  }

  lemma LinkedKeys(p1: TriplePool, p2: TriplePool)
    requires Linked(p1, p2)
    ensures GoodDeltas(p1.delta, p2.delta)
  {
  }

  /** Opening wires that stand for a value: refused exactly when a share bit was flipped on the way (`flip`), and otherwise it
      returns the value to BOB and to the public; ALICE, who unmasks with her own opened masks, gets the value exactly when the
      parties agree on those. Nobody else gets a bit. */
  method Decode(q1: Protocol, q2: Protocol, w1: SecureWires, w2: SecureWires, recipient: int, flip: nat -> bool, ghost x: seq<bool>)
    returns (r: DecodeResult)
    requires GoodDeltas(q1.pool.delta, q2.pool.delta) && (recipient == PUBLIC || recipient == ALICE || recipient == BOB)
    requires w1.WellShaped(1) && w2.WellShaped(2) ==> Blinds(w1, w2, q1.pool.delta, q2.pool.delta, x)
    ensures r.BadBundle? <==> !w1.WellShaped(1) || !w2.WellShaped(2)
    ensures r.OpeningRefused? <==> !r.BadBundle? && exists i | 0 <= i < |x| :: flip(i)
    ensures r.Decoded? ==> |w1.masks| == |w2.masks| == |x|
    ensures r.Decoded? && recipient == PUBLIC ==> r.bits1 == r.bits2 == x
    ensures r.Decoded? && recipient == BOB ==> r.bits1 == [] && r.bits2 == x
    ensures r.Decoded? && recipient == ALICE ==> r.bits2 == [] && r.bits1 == AliceDecodes(w1, w2, x)
  {
    hide Blinds, Bit, GoodDeltas, AliceDecodes, MacsOf, ExpectedMacs;
    if !w1.WellShaped(1) || !w2.WellShaped(2) {
      return BadBundle;
    }
    OpeningOfBlinds(w1, w2, q1.pool.delta, q2.pool.delta, x, flip);
    if recipient == ALICE {
      var ok, bits := DecodeTo(q2, q1, w2, w1, flip);
      if !ok {
        return OpeningRefused;
      }
      UnmaskAtAlice(w1, w2, q1.pool.delta, q2.pool.delta, x, bits);
      return Decoded(bits, []);
    }
    var ok, bits := DecodeTo(q1, q2, w1, w2, flip);
    if !ok {
      return OpeningRefused;
    }
    UnmaskAtBob(w1, w2, q1.pool.delta, q2.pool.delta, x, bits);
    r := Decoded(if recipient == PUBLIC then bits else [], bits);
  }

  /** An opening of wires that stand for a value is refused exactly when a bit of it was flipped, at either recipient. */
  lemma OpeningOfBlinds(w1: SecureWires, w2: SecureWires, d1: Block, d2: Block, x: seq<bool>, flip: nat -> bool)
    requires Blinds(w1, w2, d1, d2, x) && GoodDeltas(d1, d2)
    ensures |w1.masks| == |w2.masks| == |w1.bundle| == |w2.bundle| == |x|
    ensures MacsOf(w1.bundle) == ExpectedMacs(w2.bundle, Arriving(Opening(BitsOf(w1.bundle), MacsOf(w1.bundle)), flip).bits, d2)
      <==> forall i | 0 <= i < |x| :: !flip(i)
    ensures MacsOf(w2.bundle) == ExpectedMacs(w1.bundle, Arriving(Opening(BitsOf(w2.bundle), MacsOf(w2.bundle)), flip).bits, d1)
      <==> forall i | 0 <= i < |x| :: !flip(i)
  {
    hide Paired, GoodDeltas, MacsOf, ExpectedMacs, BitsOf;
    assert AllPaired(w1.bundle, w2.bundle, d1, d2) by {
      forall i | 0 <= i < |x|
        ensures Paired(w1.bundle[i], w2.bundle[i], d1, d2)
      {
        assert BlindsAt(w1.bundle[i], w2.bundle[i], w2.masks[i], d1, d2, x[i]);
      }
    }
    var o1 := Arriving(Opening(BitsOf(w1.bundle), MacsOf(w1.bundle)), flip);
    var o2 := Arriving(Opening(BitsOf(w2.bundle), MacsOf(w2.bundle)), flip);
    OpeningIsExact(w1.bundle, w2.bundle, d1, d2, o1.bits);
    OpeningIsExact(w1.bundle, w2.bundle, d1, d2, o2.bits);
  }

  lemma UnmaskAtBob(w1: SecureWires, w2: SecureWires, d1: Block, d2: Block, x: seq<bool>, bits: seq<bool>)
    requires Blinds(w1, w2, d1, d2, x) && |bits| == |x|
    requires forall i | 0 <= i < |bits| :: bits[i] == ((Bit(w2.bundle[i]) != w2.masks[i]) != Bit(w1.bundle[i]))
    ensures bits == x
  {
    hide Paired, Bit;
    forall i | 0 <= i < |x|
      ensures bits[i] == x[i]
    {
      assert BlindsAt(w1.bundle[i], w2.bundle[i], w2.masks[i], d1, d2, x[i]);
    }
  }

  lemma UnmaskAtAlice(w1: SecureWires, w2: SecureWires, d1: Block, d2: Block, x: seq<bool>, bits: seq<bool>)
    requires Blinds(w1, w2, d1, d2, x) && |bits| == |w1.masks| == |w2.masks| == |x|
    requires forall i | 0 <= i < |bits| :: bits[i] == ((Bit(w1.bundle[i]) != w1.masks[i]) != Bit(w2.bundle[i]))
    ensures bits == AliceDecodes(w1, w2, x)
  {
    hide Paired, Bit;
    forall i | 0 <= i < |x|
      ensures bits[i] == (x[i] != (w1.masks[i] != w2.masks[i]))
    {
      assert BlindsAt(w1.bundle[i], w2.bundle[i], w2.masks[i], d1, d2, x[i]);
    }
  }

  /** Round trip: authenticating bits of any list of owners and decoding any slice of the `k`-th bundle to any recipient gives
      that owner's slice back, to that recipient alone. */
  method InputRoundTrip(q1: Protocol, q2: Protocol, owners: seq<int>, bits1: seq<seq<bool>>, bits2: seq<seq<bool>>,
                        prg: nat -> Block, k: nat, lo: nat, hi: nat, recipient: int)
    returns (out1: seq<bool>, out2: seq<bool>)
    requires q1 != q2 && Linked(q1.pool, q2.pool) && SameShape(bits1, bits2) && |owners| == |bits1|
    requires forall j | 0 <= j < |owners| :: owners[j] == ALICE || owners[j] == BOB
    requires k < |owners| && lo <= hi <= |bits1[k]|
    requires recipient == PUBLIC || recipient == ALICE || recipient == BOB
    modifies q1`processInputCalls, q2`processInputCalls
    modifies q1.pool`drawn, q1.pool`mintedSinceCheck, q2.pool`drawn, q2.pool`mintedSinceCheck
    ensures out1 == if recipient == BOB then [] else Chosen(owners[k], bits1[k], bits2[k])[lo..hi]
    ensures out2 == if recipient == ALICE then [] else Chosen(owners[k], bits1[k], bits2[k])[lo..hi]
  {
    hide Encode, Paired, Flat, GoodDeltas, AliceDecodes, Synced, Blinds;
    var r := ProcessInputs(q1, q2, owners, bits1, bits2, prg, AS_SENT, AS_SENT);
    ghost var x := Chosen(owners[k], bits1[k], bits2[k]);
    EncodedShapes(r.w1[k], r.w2[k], q1.pool.delta, q2.pool.delta, x);
    EncodeSlices(r.w1[k], r.w2[k], q1.pool.delta, q2.pool.delta, x, lo, hi);
    var s1, s2 := r.w1[k].Slice(lo, hi), r.w2[k].Slice(lo, hi);
    EncodedShapes(s1, s2, q1.pool.delta, q2.pool.delta, x[lo..hi]);
    EncodedBlinds(s1, s2, q1.pool.delta, q2.pool.delta, x[lo..hi]);
    AgreedDecodes(s1, s2, x[lo..hi]);
    var d := Decode(q1, q2, s1, s2, recipient, AS_SENT, x[lo..hi]);
    out1, out2 := d.bits1, d.bits2;
  }

  lemma AgreedDecodes(w1: SecureWires, w2: SecureWires, x: seq<bool>)
    requires |w1.masks| == |w2.masks| == |x|
    ensures AliceDecodes(w1, w2, x) == x <==> Synced(w1, w2)
  {
  }
}
