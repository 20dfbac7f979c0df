/** One call of bucketed AND-triple generation (triple_pool.h) as a function of what the two parties hold: their shares, the
    hash, the public shifts, and which of the opened parity bits were flipped on the way.

    A layer of `len` candidates is region-major: a = [0, len), b = [len, 2*len), r/c = [2*len, 3*len). */
module Buckets {
  import opened Blocks
  import opened Shares
  import opened LeakyAnds

  /** Both parties' buffers of one layer. */
  datatype Layer = Layer(x1: seq<Share>, x2: seq<Share>) {
    predicate Shaped(len: nat) {
      |x1| == |x2| == 3 * len
    }
  }

  ghost predicate AllPaired(x1: seq<Share>, x2: seq<Share>, d1: Block, d2: Block) {
    && |x1| == |x2|
    && forall i | 0 <= i < |x1| :: Paired(x1[i], x2[i], d1, d2)
  }

  /** Every candidate of the layer is an AND: c = a and b. */
  ghost predicate AllProducts(x1: seq<Share>, x2: seq<Share>, len: nat)
    requires |x1| == |x2| == 3 * len
  {
    forall i | 0 <= i < len ::
      Hidden(x1[2 * len + i], x2[2 * len + i]) == (Hidden(x1[i], x2[i]) && Hidden(x1[len + i], x2[len + i]))
  }

  /** What candidate `k` of a layer should open to: `ab ^ r`. */
  ghost predicate Target(x1: seq<Share>, x2: seq<Share>, len: nat, k: nat)
    requires |x1| == |x2| == 3 * len && k < len
  {
    (Hidden(x1[k], x2[k]) && Hidden(x1[len + k], x2[len + k])) != Hidden(x1[2 * len + k], x2[2 * len + k])
  }

  /** Party 1 adds a public bit to its MAC, party 2 to its key. */
  function Flipped(party: nat, c: bool, s: Share, d: Block): Share {
    if party == 1 then FlipMac(c, s) else FlipKey(c, s, d)
  }

  /** The cyclic reindexing of a sacrifice layer, split at its one wraparound. */
  function Src(i: nat, r: nat, len: nat): (src: nat)
    requires i < len && r < len
    ensures src < len
  {
    if i < len - r then i + r else i + r - len
  }

  lemma SrcRotates(i: nat, r: nat, len: nat)
    requires i < len && r < len
    ensures Src(i, r, len) == (i + r) % len
  {
  }

  /** `k * n`, by steps. */
  function Times(k: nat, n: nat): (r: nat)
    ensures r == k * n
  {
    if k == 0 then 0 else Times(k - 1, n) + n
  }

  /** Tweaks consumed by one layer: whole batches of eight. */
  function RoundUp8(n: nat): nat {
    (n + 7) / 8 * 8
  }

  // ---- the leaky AND of a layer ----

  /** What a party with buffer `x` recovers at candidate `k` from the peer's ciphertext, under tweak `t + k`. */
  function Recovers(h: TweakedHash, t: nat, len: nat, x: seq<Share>, d: Block, peer: seq<Share>, dPeer: Block, k: nat): Block
    requires |x| == |peer| == 3 * len && k < len
  {
    Recovered(h, t + k, x[k], x[len + k], x[2 * len + k], d, Ciphertext(h, t + k, peer[k], peer[len + k], dPeer))
  }

  /** The S values of a party over a layer. */
  function SValues(h: TweakedHash, t: nat, len: nat, x: seq<Share>, d: Block, peer: seq<Share>, dPeer: Block): (s: seq<Block>)
    requires |x| == |peer| == 3 * len
    ensures |s| == len
  {
    seq(len, k requires 0 <= k < len => Recovers(h, t, len, x, d, peer, dPeer, k))
  }

  /** The parity bits a party opens, from its own S values and the peer's; `flip` says which arrive flipped. */
  function Opens(s: seq<Block>, peer: seq<Block>, flip: nat -> bool): (o: seq<bool>)
    requires |s| == |peer|
    ensures |o| == |s|
  {
    seq(|s|, k requires 0 <= k < |s| => Lsb1(s[k]) != (Lsb1(peer[k]) != flip(k)))
  }

  /** The L-vector fed to F_eq. */
  function LVector(s: seq<Block>, o: seq<bool>, d: Block): (l: seq<Block>)
    requires |s| == |o|
    ensures |l| == |s|
  {
    seq(|s|, k requires 0 <= k < |s| => Xor(s[k], Sel(o[k], d)))
  }

  /** The buffer after the opened bits are folded into region 2. */
  function FoldedIn(party: nat, len: nat, x: seq<Share>, o: seq<bool>, d: Block): (y: seq<Share>)
    requires |x| == 3 * len && |o| == len
    ensures |y| == |x|
  {
    seq(3 * len, i requires 0 <= i < 3 * len => if i < 2 * len then x[i] else Flipped(party, o[i - 2 * len], x[i], d))
  }

  /** S_1 ^ S_2 is `ab ^ r` times the sum of the global keys, at every candidate. */
  ghost predicate SumsAre(x1: seq<Share>, x2: seq<Share>, len: nat, d1: Block, d2: Block, s1: seq<Block>, s2: seq<Block>)
    requires |x1| == |x2| == 3 * len
  {
    && |s1| == |s2| == len
    && forall k | 0 <= k < len :: Xor(s1[k], s2[k]) == Sel(Target(x1, x2, len, k), Xor(d1, d2))
  }

  lemma SumsOpen(h: TweakedHash, t: nat, len: nat, x1: seq<Share>, x2: seq<Share>, d1: Block, d2: Block)
    requires |x1| == |x2| == 3 * len && AllPaired(x1, x2, d1, d2)
    ensures SumsAre(x1, x2, len, d1, d2, SValues(h, t, len, x1, d1, x2, d2), SValues(h, t, len, x2, d2, x1, d1))
  {
    hide Ciphertext, Recovered, Paired, Xor, Sel;
    var s1, s2 := SValues(h, t, len, x1, d1, x2, d2), SValues(h, t, len, x2, d2, x1, d1);
    forall k | 0 <= k < len
      ensures Xor(s1[k], s2[k]) == Sel(Target(x1, x2, len, k), Xor(d1, d2))
    {
      RecoveredSum(h, t + k, x1[k], x2[k], x1[len + k], x2[len + k], x1[2 * len + k], x2[2 * len + k], d1, d2);
    }
  }

  /** Over a layer, whatever bits the two parties opened, their L-vectors agree if and only if every bit at either party is the
      right one. */
  lemma LeakyCheckIsExact(x1: seq<Share>, x2: seq<Share>, len: nat, d1: Block, d2: Block, s1: seq<Block>, s2: seq<Block>,
                          o1: seq<bool>, o2: seq<bool>)
    requires |x1| == |x2| == 3 * len && |o1| == |o2| == len && GoodDeltas(d1, d2) && SumsAre(x1, x2, len, d1, d2, s1, s2)
    ensures LVector(s1, o1, d1) == LVector(s2, o2, d2)
      <==> forall k | 0 <= k < len :: o1[k] == o2[k] == Target(x1, x2, len, k)
  {
    hide Xor, Sel, GoodDeltas, Target;
    var l1, l2 := LVector(s1, o1, d1), LVector(s2, o2, d2);
    forall k | 0 <= k < len
      ensures l1[k] == l2[k] <==> o1[k] == o2[k] == Target(x1, x2, len, k)
    {
      LValuesAgreeIff(s1[k], s2[k], Target(x1, x2, len, k), o1[k], o2[k], d1, d2);
    }
    if l1 == l2 {
      forall k | 0 <= k < len
        ensures o1[k] == o2[k] == Target(x1, x2, len, k)
      {
        assert l1[k] == l2[k];
      }
    }
  }

  /** What each party opens: the right bit, flipped where it arrived flipped. */
  lemma OpensTarget(x1: seq<Share>, x2: seq<Share>, len: nat, d1: Block, d2: Block, s1: seq<Block>, s2: seq<Block>, flip: nat -> bool)
    requires |x1| == |x2| == 3 * len && GoodDeltas(d1, d2) && SumsAre(x1, x2, len, d1, d2, s1, s2)
    ensures forall k | 0 <= k < len :: Opens(s1, s2, flip)[k] == (Target(x1, x2, len, k) != flip(k))
    ensures forall k | 0 <= k < len :: Opens(s2, s1, flip)[k] == (Target(x1, x2, len, k) != flip(k))
  {
    hide Xor, Sel, GoodDeltas, Target;
    forall k | 0 <= k < len
      ensures (Lsb1(s1[k]) != Lsb1(s2[k])) == Target(x1, x2, len, k)
    {
      OpenedBit(s1[k], s2[k], Target(x1, x2, len, k), d1, d2);
    }
  }

  /** Candidate `i` of a layer is an authenticated AND. */
  ghost predicate CandidateOk(x1: seq<Share>, x2: seq<Share>, len: nat, i: nat, d1: Block, d2: Block)
    requires |x1| == |x2| == 3 * len && i < len
  {
    && Paired(x1[i], x2[i], d1, d2) && Paired(x1[len + i], x2[len + i], d1, d2) && Paired(x1[2 * len + i], x2[2 * len + i], d1, d2)
    && Hidden(x1[2 * len + i], x2[2 * len + i]) == (Hidden(x1[i], x2[i]) && Hidden(x1[len + i], x2[len + i]))
  }

  /** A layer of authenticated ANDs, candidate by candidate. */
  lemma LayerOfCandidates(x1: seq<Share>, x2: seq<Share>, len: nat, d1: Block, d2: Block)
    requires |x1| == |x2| == 3 * len && forall k | 0 <= k < len :: CandidateOk(x1, x2, len, k, d1, d2)
    ensures AllPaired(x1, x2, d1, d2) && AllProducts(x1, x2, len)
  {
    hide Paired, Hidden;
    forall i | 0 <= i < 3 * len
      ensures Paired(x1[i], x2[i], d1, d2)
    {
      assert CandidateOk(x1, x2, len, if i < len then i else if i < 2 * len then i - len else i - 2 * len, d1, d2);
    }
    forall i | 0 <= i < len
      ensures Hidden(x1[2 * len + i], x2[2 * len + i]) == (Hidden(x1[i], x2[i]) && Hidden(x1[len + i], x2[len + i]))
    {
      assert CandidateOk(x1, x2, len, i, d1, d2);
    }
  }

  lemma LayerEntry(x1: seq<Share>, x2: seq<Share>, len: nat, d1: Block, d2: Block, i: nat)
    requires |x1| == 3 * len && AllPaired(x1, x2, d1, d2) && AllProducts(x1, x2, len) && i < len
    ensures CandidateOk(x1, x2, len, i, d1, d2)
  {
    hide Paired, Hidden;
  }

  /** Folding the right bits in turns a layer of correlated shares into authenticated ANDs. */
  lemma RightBitsFold(x1: seq<Share>, x2: seq<Share>, len: nat, d1: Block, d2: Block, o: seq<bool>)
    requires |x1| == |x2| == 3 * len && AllPaired(x1, x2, d1, d2) && Lsb(d2)
    requires |o| == len && forall k | 0 <= k < len :: o[k] == Target(x1, x2, len, k)
    ensures var y1, y2 := FoldedIn(1, len, x1, o, d1), FoldedIn(2, len, x2, o, d2);
      AllPaired(y1, y2, d1, d2) && AllProducts(y1, y2, len)
  {
    hide AllProducts, Paired, FlipMac, FlipKey, Hidden, Target;
    var y1, y2 := FoldedIn(1, len, x1, o, d1), FoldedIn(2, len, x2, o, d2);
    forall k | 0 <= k < len
      ensures CandidateOk(y1, y2, len, k, d1, d2)
    {
      PairedFlip(o[k], x1[2 * len + k], x2[2 * len + k], d1, d2);
      TargetCompletes(x1, x2, len, k);
    }
    LayerOfCandidates(y1, y2, len, d1, d2);
  }

  lemma TargetCompletes(x1: seq<Share>, x2: seq<Share>, len: nat, k: nat)
    requires |x1| == |x2| == 3 * len && k < len
    ensures (Hidden(x1[2 * len + k], x2[2 * len + k]) != Target(x1, x2, len, k))
         == (Hidden(x1[k], x2[k]) && Hidden(x1[len + k], x2[len + k]))
  {
  }

  // ---- folding a sacrifice layer into the accumulator ----

  /** The b-difference bits the parties open between them. */
  function Differs(acc: Layer, lay: Layer, len: nat, r: nat, i: nat): bool
    requires acc.Shaped(len) && lay.Shaped(len) && r < len && i < len
  {
    (Bit(acc.x1[len + i]) != Bit(lay.x1[len + Src(i, r, len)])) != (Bit(acc.x2[len + i]) != Bit(lay.x2[len + Src(i, r, len)]))
  }

  /** One party's accumulator after a fold, `o` the opened b-differences: a and c absorb the reindexed layer, b stays, and c takes
      the layer's a wherever the opened bit is set. */
  function Absorbed(acc: seq<Share>, lay: seq<Share>, len: nat, r: nat, o: seq<bool>): (y: seq<Share>)
    requires |acc| == |lay| == 3 * len && r < len && |o| == len
    ensures |y| == 3 * len
  {
    seq(3 * len, i requires 0 <= i < 3 * len =>
      if i < len then XorShare(acc[i], lay[Src(i, r, len)])
      else if i < 2 * len then acc[i]
      else XorShare(XorShare(acc[i], lay[2 * len + Src(i - 2 * len, r, len)]), SelShare(o[i - 2 * len], lay[Src(i - 2 * len, r, len)])))
  }

  function Fold(acc: Layer, lay: Layer, len: nat, r: nat): (y: Layer)
    requires acc.Shaped(len) && lay.Shaped(len) && r < len
    ensures y.Shaped(len)
  {
    var o := seq(len, i requires 0 <= i < len => Differs(acc, lay, len, r, i));
    Layer(Absorbed(acc.x1, lay.x1, len, r, o), Absorbed(acc.x2, lay.x2, len, r, o))
  }

  /** c ^ c' ^ (b ^ b') a' == (a ^ a') b, on authenticated shares. */
  lemma FoldKeepsProduct(a1: Share, a2: Share, b1: Share, b2: Share, c1: Share, c2: Share,
                         la1: Share, la2: Share, lb1: Share, lb2: Share, lc1: Share, lc2: Share,
                         d1: Block, d2: Block, d: bool)
    requires Paired(a1, a2, d1, d2) && Paired(b1, b2, d1, d2) && Paired(c1, c2, d1, d2)
    requires Paired(la1, la2, d1, d2) && Paired(lb1, lb2, d1, d2) && Paired(lc1, lc2, d1, d2)
    requires Hidden(c1, c2) == (Hidden(a1, a2) && Hidden(b1, b2))
    requires Hidden(lc1, lc2) == (Hidden(la1, la2) && Hidden(lb1, lb2))
    requires d == ((Bit(b1) != Bit(lb1)) != (Bit(b2) != Bit(lb2)))
    ensures Paired(XorShare(a1, la1), XorShare(a2, la2), d1, d2)
    ensures var z1 := XorShare(XorShare(c1, lc1), SelShare(d, la1));
            var z2 := XorShare(XorShare(c2, lc2), SelShare(d, la2));
            && Paired(z1, z2, d1, d2)
            && Hidden(z1, z2) == (Hidden(XorShare(a1, la1), XorShare(a2, la2)) && Hidden(b1, b2))
  {
    hide Paired, Xor, Sel, XorShare, SelShare, Bit;
    PairedXor(a1, a2, la1, la2, d1, d2);
    PairedXor(c1, c2, lc1, lc2, d1, d2);
    PairedSel(d, la1, la2, d1, d2);
    PairedXor(XorShare(c1, lc1), XorShare(c2, lc2), SelShare(d, la1), SelShare(d, la2), d1, d2);
  }

  /** A fold of two layers of authenticated ANDs is one. */
  lemma FoldIsProducts(acc: Layer, lay: Layer, len: nat, r: nat, d1: Block, d2: Block)
    requires acc.Shaped(len) && lay.Shaped(len) && r < len
    requires AllPaired(acc.x1, acc.x2, d1, d2) && AllProducts(acc.x1, acc.x2, len)
    requires AllPaired(lay.x1, lay.x2, d1, d2) && AllProducts(lay.x1, lay.x2, len)
    ensures var y := Fold(acc, lay, len, r); AllPaired(y.x1, y.x2, d1, d2) && AllProducts(y.x1, y.x2, len)
  {
    hide AllPaired, AllProducts, Paired, XorShare, SelShare, Hidden, Bit, Src;
    var y := Fold(acc, lay, len, r);
    forall i | 0 <= i < len
      ensures CandidateOk(y.x1, y.x2, len, i, d1, d2)
    {
      var s := Src(i, r, len);
      LayerEntry(acc.x1, acc.x2, len, d1, d2, i);
      LayerEntry(lay.x1, lay.x2, len, d1, d2, s);
      FoldKeepsProduct(acc.x1[i], acc.x2[i], acc.x1[len + i], acc.x2[len + i], acc.x1[2 * len + i], acc.x2[2 * len + i],
                       lay.x1[s], lay.x2[s], lay.x1[len + s], lay.x2[len + s], lay.x1[2 * len + s], lay.x2[2 * len + s],
                       d1, d2, Differs(acc, lay, len, r, i));
    }
    LayerOfCandidates(y.x1, y.x2, len, d1, d2);
  }

  // ---- the Beaver reconciliation ----

  /** sigma = Z ^ xb * Y ^ yb * X ^ xb * yb at one party, on shares. */
  function SigmaOf(party: nat, d: Block, x: Share, y: Share, z: Share, xb: bool, yb: bool): Share {
    Flipped(party, xb && yb, XorShare(XorShare(z, SelShare(xb, y)), SelShare(yb, x)), d)
  }

  /** Beaver: with xb = a ^ X and yb = b ^ Y opened, sigma hides a and b. */
  lemma SigmaHidesProduct(x1: Share, x2: Share, y1: Share, y2: Share, z1: Share, z2: Share,
                          d1: Block, d2: Block, xb: bool, yb: bool)
    requires Paired(x1, x2, d1, d2) && Paired(y1, y2, d1, d2) && Paired(z1, z2, d1, d2) && Lsb(d2)
    requires Hidden(z1, z2) == (Hidden(x1, x2) && Hidden(y1, y2))
    ensures var s1, s2 := SigmaOf(1, d1, x1, y1, z1, xb, yb), SigmaOf(2, d2, x2, y2, z2, xb, yb);
            Paired(s1, s2, d1, d2) && Hidden(s1, s2) == ((Hidden(x1, x2) != xb) && (Hidden(y1, y2) != yb))
  {
    hide Paired, Hidden, XorShare, SelShare, FlipMac, FlipKey;
    PairedSel(xb, y1, y2, d1, d2);
    PairedSel(yb, x1, x2, d1, d2);
    PairedXor(z1, z2, SelShare(xb, y1), SelShare(xb, y2), d1, d2);
    var u1, u2 := XorShare(z1, SelShare(xb, y1)), XorShare(z2, SelShare(xb, y2));
    PairedXor(u1, u2, SelShare(yb, x1), SelShare(yb, x2), d1, d2);
    PairedFlip(xb && yb, XorShare(u1, SelShare(yb, x1)), XorShare(u2, SelShare(yb, x2)), d1, d2);
  }

  // ---- a whole call ----

  /** Which opened parity bits arrive flipped: `flips(layer, party)` at candidate `k` for what `party` receives. */
  type Flips = (nat, nat) -> (nat -> bool)

  /** Nothing was flipped. */
  const AS_SENT: nat -> bool := _ => false

  const HONEST: Flips := (_, _) => AS_SENT

  /** The shares `at .. at + n` of a stream. */
  function Fresh(cot: nat -> Share, at: nat, n: nat): (s: seq<Share>)
    ensures |s| == n
  {
    seq(n, i requires 0 <= i < n => cot(at + i))
  }

  /** One call: `len` gates with operand shares a and b at either party, the COT stream from position `at` on, one hash for all
      layers, and a coin for each shift. */
  datatype Call = Call(h: TweakedHash, len: nat, d1: Block, d2: Block, cot1: nat -> Share, cot2: nat -> Share, at: nat,
                       a1: seq<Share>, b1: seq<Share>, a2: seq<Share>, b2: seq<Share>, coin: nat -> nat, flips: Flips) {
    ghost predicate Ok() {
      && len > 0 && |a1| == |b1| == |a2| == |b2| == len && GoodDeltas(d1, d2)
      && AllPaired(a1, a2, d1, d2) && AllPaired(b1, b2, d1, d2)
      && forall i: nat :: Paired(cot1(i), cot2(i), d1, d2)
    }

    predicate Shapes() {
      len > 0 && |a1| == |b1| == |a2| == |b2| == len
    }

    /** Layer `k` as it is minted: layer 0 is the gates' own operands and a minted r, all others are minted whole. */
    function Minted(k: nat): (l: Layer)
      requires Shapes()
      ensures l.Shaped(len)
    {
      if k == 0 then Layer(a1 + b1 + Fresh(cot1, at, len), a2 + b2 + Fresh(cot2, at, len))
      else Layer(Fresh(cot1, at + len + Times(k - 1, 3 * len), 3 * len), Fresh(cot2, at + len + Times(k - 1, 3 * len), 3 * len))
    }

    function S1(k: nat): (s: seq<Block>)
      requires Shapes()
      ensures |s| == len
    {
      SValues(h, Times(k, RoundUp8(len)), len, Minted(k).x1, d1, Minted(k).x2, d2)
    }

    function S2(k: nat): (s: seq<Block>)
      requires Shapes()
      ensures |s| == len
    {
      SValues(h, Times(k, RoundUp8(len)), len, Minted(k).x2, d2, Minted(k).x1, d1)
    }

    /** The bits each party opens in layer `k`. */
    function Opened1(k: nat): (o: seq<bool>)
      requires Shapes()
      ensures |o| == len
    {
      Opens(S1(k), S2(k), flips(k, 1))
    }

    function Opened2(k: nat): (o: seq<bool>)
      requires Shapes()
      ensures |o| == len
    {
      Opens(S2(k), S1(k), flips(k, 2))
    }

    /** Layer `k` after its leaky AND. */
    function Leaky(k: nat): (l: Layer)
      requires Shapes()
      ensures l.Shaped(len)
    {
      Layer(FoldedIn(1, len, Minted(k).x1, Opened1(k), d1), FoldedIn(2, len, Minted(k).x2, Opened2(k), d2))
    }

    /** What each party has fed to F_eq after `k` layers. */
    function Fed1(k: nat): seq<Block>
      requires Shapes()
    {
      if k == 0 then [] else Fed1(k - 1) + LVector(S1(k - 1), Opened1(k - 1), d1)
    }

    function Fed2(k: nat): seq<Block>
      requires Shapes()
    {
      if k == 0 then [] else Fed2(k - 1) + LVector(S2(k - 1), Opened2(k - 1), d2)
    }

    /** The accumulator after `k` sacrifice layers. */
    function Acc(k: nat): (l: Layer)
      requires Shapes()
      ensures l.Shaped(len)
    {
      if k == 0 then Leaky(0) else Fold(Acc(k - 1), Leaky(k), len, coin(k - 1) % len)
    }

    /** The opened a-side difference of gate `i` after `k` sacrifices. */
    function Beaver(k: nat, i: nat): bool
      requires Shapes() && i < len
    {
      (Bit(a1[i]) != Bit(Acc(k).x1[i])) != (Bit(a2[i]) != Bit(Acc(k).x2[i]))
    }

    function Sigma1(k: nat): (s: seq<Share>)
      requires Shapes()
      ensures |s| == len
    {
      seq(len, i requires 0 <= i < len =>
        SigmaOf(1, d1, Acc(k).x1[i], Acc(k).x1[len + i], Acc(k).x1[2 * len + i], Beaver(k, i), false))
    }

    function Sigma2(k: nat): (s: seq<Share>)
      requires Shapes()
      ensures |s| == len
    {
      seq(len, i requires 0 <= i < len =>
        SigmaOf(2, d2, Acc(k).x2[i], Acc(k).x2[len + i], Acc(k).x2[2 * len + i], Beaver(k, i), false))
    }

    /** Both parties saw the parity bits of the first `k` layers as they were sent. */
    ghost predicate Untouched(k: nat) {
      forall l, i | 0 <= l < k && 0 <= i < len :: !flips(l, 1)(i) && !flips(l, 2)(i)
    }

    lemma MintedPaired(k: nat)
      requires Ok()
      ensures AllPaired(Minted(k).x1, Minted(k).x2, d1, d2)
    {
      hide Paired, GoodDeltas;
    }

    /** One layer: the two L-vectors agree if and only if no opened bit was flipped, and then the layer is one of ANDs. */
    lemma LeakyFacts(k: nat)
      requires Ok()
      ensures LVector(S1(k), Opened1(k), d1) == LVector(S2(k), Opened2(k), d2)
        <==> forall i | 0 <= i < len :: !flips(k, 1)(i) && !flips(k, 2)(i)
      ensures (forall i | 0 <= i < len :: !flips(k, 1)(i) && !flips(k, 2)(i)) ==>
        AllPaired(Leaky(k).x1, Leaky(k).x2, d1, d2) && AllProducts(Leaky(k).x1, Leaky(k).x2, len)
    {
      hide Paired, AllPaired, AllProducts, Target, SValues, Opens, LVector, FoldedIn, Call.Minted, GoodDeltas;
      MintedPaired(k);
      var l := Minted(k);
      SumsOpen(h, Times(k, RoundUp8(len)), len, l.x1, l.x2, d1, d2);
      OpensTarget(l.x1, l.x2, len, d1, d2, S1(k), S2(k), flips(k, 1));
      OpensTarget(l.x1, l.x2, len, d1, d2, S1(k), S2(k), flips(k, 2));
      LeakyCheckIsExact(l.x1, l.x2, len, d1, d2, S1(k), S2(k), Opened1(k), Opened2(k));
      assert forall i | 0 <= i < len ::
        (Opened1(k)[i] == Opened2(k)[i] == Target(l.x1, l.x2, len, i)) == (!flips(k, 1)(i) && !flips(k, 2)(i));
      if forall i | 0 <= i < len :: !flips(k, 1)(i) && !flips(k, 2)(i) {
        assert Opened1(k) == Opened2(k);
        PinnedKey(d1, d2);
        RightBitsFold(l.x1, l.x2, len, d1, d2, Opened1(k));
      }
    }

    /** The batched check is exact: after `k` layers both parties fed F_eq the same if and only if every parity bit of every
        layer reached both of them as it was sent. */
    lemma {:induction false} FeqIsExact(k: nat)
      requires Ok()
      ensures |Fed1(k)| == |Fed2(k)| && (Fed1(k) == Fed2(k) <==> Untouched(k))
    {
      hide Call.Opened1, Call.Opened2, Call.S1, Call.S2, Call.Ok, LVector;
      OkShapes();
      if k > 0 {
        FeqIsExact(k - 1);
        LeakyFacts(k - 1);
        LastPart(Fed1(k - 1), Fed2(k - 1), LVector(S1(k - 1), Opened1(k - 1), d1), LVector(S2(k - 1), Opened2(k - 1), d2));
      }
    }

    lemma OkShapes()
      requires Ok()
      ensures Shapes() && GoodDeltas(d1, d2)
    {
    }

    lemma LeakyIsProducts(k: nat, m: nat)
      requires Ok() && Untouched(m) && k < m
      ensures Shapes() && AllPaired(Leaky(k).x1, Leaky(k).x2, d1, d2) && AllProducts(Leaky(k).x1, Leaky(k).x2, len)
    {
      hide Call.Ok, Call.Leaky, Call.Opened1, Call.Opened2, AllPaired, AllProducts, LVector;
      OkShapes();
      LeakyFacts(k);
    }

    /** While the first `m` layers are untouched, the accumulator is a layer of authenticated ANDs. */
    lemma {:induction false} AccIsProducts(k: nat, m: nat)
      requires Ok() && Untouched(m) && k < m
      ensures Shapes() && AllPaired(Acc(k).x1, Acc(k).x2, d1, d2) && AllProducts(Acc(k).x1, Acc(k).x2, len)
      decreases k
    {
      hide Fold, Call.Leaky, AllPaired, AllProducts, Call.Ok, Call.Untouched;
      LeakyIsProducts(k, m);
      if k > 0 {
        AccIsProducts(k - 1, m);
        FoldIsProducts(Acc(k - 1), Leaky(k), len, coin(k - 1) % len, d1, d2);
      }
    }

    /** Region b is the gates' own operand b throughout. */
    lemma {:induction false} AccKeepsB(k: nat)
      requires Shapes()
      ensures Acc(k).x1[len..2 * len] == b1 && Acc(k).x2[len..2 * len] == b2
    {
      hide XorShare, SelShare, Src, Call.Opened1, Call.Opened2;
      if k > 0 {
        hide Call.Leaky;
        AccKeepsB(k - 1);
        KeepsB(Acc(k - 1), Leaky(k), len, coin(k - 1) % len);
      }
    }

    /** A leaky AND leaves regions a and b as they were minted. */
    lemma LeakyKeepsAB(k: nat, j: nat)
      requires Shapes() && j < 2 * len
      ensures Leaky(k).x1[j] == Minted(k).x1[j] && Leaky(k).x2[j] == Minted(k).x2[j]
    {
      hide Call.Opened1, Call.Opened2, Call.Minted, Flipped;
    }

    /** Region a is the gate's own operand with every sacrifice layer's a folded in, at its shift. */
    lemma AccAbsorbsA(k: nat, i: nat)
      requires Shapes() && k > 0 && i < len
      ensures var s := at + len + Times(k - 1, 3 * len) + (i + coin(k - 1) % len) % len;
        && Acc(k).x1[i] == XorShare(Acc(k - 1).x1[i], cot1(s))
        && Acc(k).x2[i] == XorShare(Acc(k - 1).x2[i], cot2(s))
      ensures Acc(0).x1[i] == a1[i] && Acc(0).x2[i] == a2[i]
    {
      hide XorShare, Call.Leaky, Fold, Times;
      var r := coin(k - 1) % len;
      SrcRotates(i, r, len);
      FoldsA(Acc(k - 1), Leaky(k), len, r, i);
      LeakyKeepsAB(k, Src(i, r, len));
      LeakyKeepsAB(0, i);
    }

    /** The sigma shares of an untouched call hide the product of each gate's operands. */
    lemma SigmasHideProducts(k: nat)
      requires Ok() && Untouched(k + 1)
      ensures AllPaired(Sigma1(k), Sigma2(k), d1, d2)
      ensures forall i | 0 <= i < len ::
        Hidden(Sigma1(k)[i], Sigma2(k)[i]) == (Hidden(a1[i], a2[i]) && Hidden(b1[i], b2[i]))
    {
      hide Paired, SigmaOf, Bit, Call.Acc;
      AccIsProducts(k, k + 1);
      AccKeepsB(k);
      var acc := Acc(k);
      forall i | 0 <= i < len
        ensures Paired(Sigma1(k)[i], Sigma2(k)[i], d1, d2)
        ensures Hidden(Sigma1(k)[i], Sigma2(k)[i]) == (Hidden(a1[i], a2[i]) && Hidden(b1[i], b2[i]))
      {
        assert acc.x1[len..2 * len][i] == acc.x1[len + i] && acc.x2[len..2 * len][i] == acc.x2[len + i];
        SigmaHidesProduct(acc.x1[i], acc.x2[i], acc.x1[len + i], acc.x2[len + i], acc.x1[2 * len + i], acc.x2[2 * len + i],
                          d1, d2, Beaver(k, i), false);
      }
    }
  }

  lemma PinnedKey(d1: Block, d2: Block)
    requires GoodDeltas(d1, d2)
    ensures Lsb(d2)
  {
  }

  lemma LastPart<T>(a: seq<T>, b: seq<T>, x: seq<T>, y: seq<T>)
    requires |a| == |b| && |x| == |y|
    ensures a + x == b + y <==> a == b && x == y
  {
    if a + x == b + y {
      assert a == (a + x)[..|a|] && b == (b + y)[..|b|] && x == (a + x)[|a|..] && y == (b + y)[|b|..];
    }
  }

  lemma FoldsA(acc: Layer, lay: Layer, len: nat, r: nat, i: nat)
    requires acc.Shaped(len) && lay.Shaped(len) && r < len && i < len
    ensures Fold(acc, lay, len, r).x1[i] == XorShare(acc.x1[i], lay.x1[Src(i, r, len)])
    ensures Fold(acc, lay, len, r).x2[i] == XorShare(acc.x2[i], lay.x2[Src(i, r, len)])
  {
    hide XorShare, SelShare, Src, Differs;
  }

  lemma KeepsB(acc: Layer, lay: Layer, len: nat, r: nat)
    requires acc.Shaped(len) && lay.Shaped(len) && r < len
    ensures Fold(acc, lay, len, r).x1[len..2 * len] == acc.x1[len..2 * len]
    ensures Fold(acc, lay, len, r).x2[len..2 * len] == acc.x2[len..2 * len]
  {
    hide XorShare, SelShare, Src, Differs;
  }
}
