/** Function-dependent AND-triple generation (triple_pool.h), run at both parties at once.

    Each party owns a `TriplePool` and in-place buffers of shares. A layer of `len` candidates is region-major:
    a = [0, len), b = [len, 2*len), r/c = [2*len, 3*len). One array entry holds the mac and the key that the two
    parallel C++ arrays hold at the same index. */
module TriplePools {
  import opened Blocks
  import opened Shares
  import opened LeakyAnds
  import opened Buckets
  import opened BucketSizes

  /** The state of one `MITCCRH<8>`: the seed fixes `h`, and `gid` is the next tweak index. `trace` remembers the tweak each
      candidate was hashed under. */
  class Mitccrh {
    const h: TweakedHash
    var gid: nat
    ghost var trace: seq<nat>

    constructor (h: TweakedHash)
      ensures this.h == h && gid == 0 && trace == []
    {
      this.h := h;
      gid, trace := 0, [];
    }

    /** `hash<8, 2>`: eight consecutive tweaks, two blocks under each. */
    method Hash8x2(pad: seq<(Block, Block)>) returns (out: seq<(Block, Block)>)
      requires |pad| == 8
      modifies this`gid
      ensures |out| == 8 && forall j | 0 <= j < 8 :: out[j] == (h(old(gid) + j, pad[j].0), h(old(gid) + j, pad[j].1))
      ensures gid == old(gid) + 8
    {
      out := seq(8, j requires 0 <= j < 8 reads this => (h(gid + j, pad[j].0), h(gid + j, pad[j].1)));
      gid := gid + 8;
    }
  }

  /** The tweaks `at .. at + n`. */
  function Tweaks(at: nat, n: nat): (r: seq<nat>)
    ensures |r| == n && forall i | 0 <= i < n :: r[i] == at + i
  {
    seq(n, i => at + i)
  }

  lemma TweaksSplit(at: nat, m: nat, n: nat)
    ensures Tweaks(at, m + n) == Tweaks(at, m) + Tweaks(at + m, n)
  {
  }

  /** Where a loop over whole batches of eight ends. */
  lemma BatchesEnd(k0: nat, len: nat)
    requires k0 % 8 == 0 && len <= k0 < len + 8
    ensures RoundUp8(len) == k0
  {
  }

  /** No tweak was used for two candidates, and the next one is new. */
  ghost predicate TraceOk(trace: seq<nat>, gid: nat) {
    && (forall i, j | 0 <= i < j < |trace| :: trace[i] < trace[j])
    && forall i | 0 <= i < |trace| :: trace[i] < gid
  }

  lemma TraceGrows(trace: seq<nat>, gid: nat, n: nat)
    requires TraceOk(trace, gid)
    ensures TraceOk(trace + Tweaks(gid, n), gid + RoundUp8(n))
  {
    assert RoundUp8(n) >= n;
    hide RoundUp8;
  }

  /** The running F_eq hash; its digest is taken to be injective, so it is kept as what was fed to it. */
  class FeqHash {
    var fed: seq<Block>

    constructor ()
      ensures fed == []
    {
      fed := [];
    }

    method Put(data: seq<Block>)
      modifies this
      ensures fed == old(fed) + data
    {
      fed := fed + data;
    }
  }

  /** One party's end of the correlated-OT session. `cot` is the stream of shares the session yields at this party. */
  class TriplePool {
    const party: nat
    const delta: Block
    const ssp: nat
    const cot: nat -> Share
    var drawn: nat
    var mintedSinceCheck: bool

    constructor (party: nat, delta: Block, ssp: nat, cot: nat -> Share)
      ensures this.party == party && this.delta == delta && this.ssp == ssp && this.cot == cot
      ensures drawn == 0 && !mintedSinceCheck
    {
      this.party, this.delta, this.ssp, this.cot := party, delta, ssp, cot;
      drawn, mintedSinceCheck := 0, false;
    }

    /** Mint `count` shares into `buf[at..at + count]`. */
    method GenCotShares(buf: array<Share>, at: nat, count: nat)
      requires at + count <= buf.Length
      modifies this`drawn, this`mintedSinceCheck, buf
      ensures forall i | at <= i < at + count :: buf[i] == cot(old(drawn) + (i - at))
      ensures forall i | 0 <= i < buf.Length && !(at <= i < at + count) :: buf[i] == old(buf[i])
      ensures drawn == old(drawn) + count && mintedSinceCheck
    {
      for i := at to at + count
        invariant drawn == old(drawn)
        invariant forall j | at <= j < i :: buf[j] == cot(drawn + (j - at))
        invariant forall j | 0 <= j < buf.Length && !(at <= j < i) :: buf[j] == old(buf[j])
      {
        buf[i] := cot(drawn + (i - at));
      }
      drawn, mintedSinceCheck := drawn + count, true;
    }

    method Draw(n: nat) returns (out: seq<Share>)
      modifies this`drawn, this`mintedSinceCheck
      ensures |out| == n && forall i | 0 <= i < n :: out[i] == cot(old(drawn) + i)
      ensures drawn == old(drawn) + n && mintedSinceCheck
    {
      out := seq(n, i requires 0 <= i reads this => cot(drawn + i));
      drawn, mintedSinceCheck := drawn + n, true;
    }

    /** Close and reopen the COT session if anything was minted since its last check. */
    method MaybeFlushCotCheck()
      modifies this`mintedSinceCheck
      ensures !mintedSinceCheck
    {
      if mintedSinceCheck {
        mintedSinceCheck := false;
      }
    }
  }

  /** The shares a pool yields from position `at` on. */
  function FreshMasks(cot: nat -> Share, at: nat): nat -> Share {
    (i: nat) => cot(at + i)
  }

  /** The two ends of one COT session: correlated shares and the pinned key bits. */
  ghost predicate Twins(p1: TriplePool, p2: TriplePool) {
    && p1 != p2
    && p1.party == 1 && p2.party == 2
    && p1.ssp == p2.ssp
    && GoodDeltas(p1.delta, p2.delta)
    && forall i: nat :: Paired(p1.cot(i), p2.cot(i), p1.delta, p2.delta)
  }

  /** And the same position. */
  ghost predicate Linked(p1: TriplePool, p2: TriplePool)
    reads p1`drawn, p2`drawn
  {
    Twins(p1, p2) && p1.drawn == p2.drawn
  }

  function Min8(n: nat): nat {
    if n < 8 then n else 8
  }

  /** The blocks hashed for one batch of at most eight candidates; unused places are padded with zero blocks. */
  function Pad(pairs: seq<(Block, Block)>): (pad: seq<(Block, Block)>)
    requires |pairs| <= 8
    ensures |pad| == 8 && pairs == pad[..|pairs|]
  {
    pairs + seq(8 - |pairs|, i => (ZERO, ZERO))
  }

  /** The ciphertexts of candidates `k0 .. k0 + batch`. */
  method ShipBatch(x: seq<Share>, len: nat, k0: nat, batch: nat, d: Block, gmitc: Mitccrh) returns (rows: seq<Block>)
    requires |x| == 3 * len && k0 + batch <= len && batch <= 8
    modifies gmitc
    ensures |rows| == batch
    ensures forall k | k0 <= k < k0 + batch ::
      rows[k - k0] == Ciphertext(gmitc.h, old(gmitc.gid) + (k - k0), x[k], x[len + k], d)
    ensures gmitc.gid == old(gmitc.gid) + 8 && gmitc.trace == old(gmitc.trace) + Tweaks(old(gmitc.gid), batch)
  {
    hide Xor, Sel;
    var pairs := seq(batch, j requires 0 <= j < batch => (x[k0 + j].key, Xor(x[k0 + j].key, d)));
    gmitc.trace := gmitc.trace + Tweaks(gmitc.gid, batch);
    var pad := gmitc.Hash8x2(Pad(pairs));
    rows := [];
    for k := k0 to k0 + batch
      invariant |rows| == k - k0
      invariant forall i | k0 <= i < k ::
        rows[i - k0] == Ciphertext(gmitc.h, old(gmitc.gid) + (i - k0), x[i], x[len + i], d)
    {
      assert Pad(pairs)[k - k0] == pairs[k - k0];
      rows := rows + [Xor(Xor(pad[k - k0].0, pad[k - k0].1), Contribution(x[len + k], d))];
    }
  }

  /** The garbler half of a layer: ship one ciphertext per candidate, eight candidates per hash batch, each under the tweak
      the trace records for it. */
  method ShipCiphertexts(x: array<Share>, len: nat, d: Block, gmitc: Mitccrh) returns (rows: seq<Block>)
    requires x.Length == 3 * len
    modifies gmitc
    ensures |rows| == len
    ensures gmitc.gid == old(gmitc.gid) + RoundUp8(len) && gmitc.trace == old(gmitc.trace) + Tweaks(old(gmitc.gid), len)
    ensures forall k | 0 <= k < len :: rows[k] == Ciphertext(gmitc.h, gmitc.trace[|old(gmitc.trace)| + k], x[k], x[len + k], d)
  {
    hide Ciphertext, Tweaks, RoundUp8;
    rows := [];
    var k0 := 0;
    while k0 < len
      invariant k0 % 8 == 0 && k0 < len + 8
      invariant |rows| == if k0 < len then k0 else len
      invariant forall k | 0 <= k < |rows| :: rows[k] == Ciphertext(gmitc.h, old(gmitc.gid) + k, x[k], x[len + k], d)
      invariant gmitc.gid == old(gmitc.gid) + k0 && gmitc.trace == old(gmitc.trace) + Tweaks(old(gmitc.gid), |rows|)
    {
      TweaksSplit(old(gmitc.gid), k0, Min8(len - k0));
      var batch := ShipBatch(x[..], len, k0, Min8(len - k0), d, gmitc);
      rows, k0 := rows + batch, k0 + 8;
    }
    BatchesEnd(k0, len);
  }

  /** S of candidates `k0 .. k0 + batch`. */
  method RecoverBatch(x: seq<Share>, len: nat, k0: nat, batch: nat, d: Block, emitc: Mitccrh, rows: seq<Block>)
    returns (s: seq<Block>)
    requires |x| == 3 * len && k0 + batch <= len == |rows| && batch <= 8
    modifies emitc
    ensures |s| == batch
    ensures forall k | k0 <= k < k0 + batch ::
      s[k - k0] == Recovered(emitc.h, old(emitc.gid) + (k - k0), x[k], x[len + k], x[2 * len + k], d, rows[k])
    ensures emitc.gid == old(emitc.gid) + 8 && emitc.trace == old(emitc.trace) + Tweaks(old(emitc.gid), batch)
  {
    hide Xor, Sel;
    var pairs := seq(batch, j requires 0 <= j < batch => (x[k0 + j].mac, x[k0 + j].key));
    emitc.trace := emitc.trace + Tweaks(emitc.gid, batch);
    var pad := emitc.Hash8x2(Pad(pairs));
    s := [];
    for k := k0 to k0 + batch
      invariant |s| == k - k0
      invariant forall i | k0 <= i < k ::
        s[i - k0] == Recovered(emitc.h, old(emitc.gid) + (i - k0), x[i], x[len + i], x[2 * len + i], d, rows[i])
    {
      assert Pad(pairs)[k - k0] == pairs[k - k0];
      s := s + [RecoveredFrom(pad[k - k0].1, pad[k - k0].0, x[k], x[len + k], x[2 * len + k], d, rows[k])];
    }
  }

  /** The evaluator half of a layer: recover S from the peer's ciphertexts. */
  method RecoverS(x: array<Share>, len: nat, d: Block, emitc: Mitccrh, rows: seq<Block>) returns (s: seq<Block>)
    requires x.Length == 3 * len && |rows| == len
    modifies emitc
    ensures |s| == len
    ensures emitc.gid == old(emitc.gid) + RoundUp8(len) && emitc.trace == old(emitc.trace) + Tweaks(old(emitc.gid), len)
    ensures forall k | 0 <= k < len ::
      s[k] == Recovered(emitc.h, emitc.trace[|old(emitc.trace)| + k], x[k], x[len + k], x[2 * len + k], d, rows[k])
  {
    hide Recovered, Tweaks, RoundUp8;
    s := [];
    var k0 := 0;
    while k0 < len
      invariant k0 % 8 == 0 && k0 < len + 8
      invariant |s| == if k0 < len then k0 else len
      invariant forall k | 0 <= k < |s| ::
        s[k] == Recovered(emitc.h, old(emitc.gid) + k, x[k], x[len + k], x[2 * len + k], d, rows[k])
      invariant emitc.gid == old(emitc.gid) + k0 && emitc.trace == old(emitc.trace) + Tweaks(old(emitc.gid), |s|)
    {
      TweaksSplit(old(emitc.gid), k0, Min8(len - k0));
      var batch := RecoverBatch(x[..], len, k0, Min8(len - k0), d, emitc, rows);
      s, k0 := s + batch, k0 + 8;
    }
    BatchesEnd(k0, len);
  }

  /** Fold the opened bits into region 2 (r becomes c = r ^ d) and into S (which becomes the L-vector). */
  method FoldOpened(party: nat, x: array<Share>, len: nat, d: Block, s: seq<Block>, o: seq<bool>)
    returns (l: seq<Block>)
    requires x.Length == 3 * len && |s| == |o| == len
    modifies x
    ensures x[..] == FoldedIn(party, len, old(x[..]), o, d)
    ensures l == LVector(s, o, d)
  {
    l := [];
    for k := 0 to len
      invariant forall i | 0 <= i < 2 * len || 2 * len + k <= i < 3 * len :: x[i] == old(x[i])
      invariant forall i | 2 * len <= i < 2 * len + k :: x[i] == Flipped(party, o[i - 2 * len], old(x[i]), d)
      invariant |l| == k && forall j | 0 <= j < k :: l[j] == Xor(s[j], Sel(o[j], d))
    {
      var r := x[2 * len + k];
      if party == 1 {
        x[2 * len + k] := Share(Xor(r.mac, Sel(o[k], BIT0_MASK)), r.key);
      } else {
        x[2 * len + k] := Share(r.mac, Xor(r.key, Sel(o[k], Xor(d, BIT0_MASK))));
      }
      l := l + [Xor(s[k], Sel(o[k], d))];
    }
  }

  /** The four tweak states of the two parties: one seed, one position, and the same fresh tweak for each candidate so far. */
  ghost predicate InStep(g1: Mitccrh, e1: Mitccrh, g2: Mitccrh, e2: Mitccrh)
    reads g1, e1, g2, e2
  {
    && g1 != e1 && g1 != g2 && g1 != e2 && e1 != g2 && e1 != e2 && g2 != e2
    && g1.h == e1.h == g2.h == e2.h
    && g1.gid == e1.gid == g2.gid == e2.gid
    && g1.trace == e1.trace == g2.trace == e2.trace && TraceOk(g1.trace, g1.gid)
  }

  /** Ciphertexts both ways, and from them each party's S values. */
  method ExchangeCiphertexts(p1: TriplePool, p2: TriplePool, x1: array<Share>, x2: array<Share>, len: nat,
                             g1: Mitccrh, e1: Mitccrh, g2: Mitccrh, e2: Mitccrh)
    returns (s1: seq<Block>, s2: seq<Block>)
    requires InStep(g1, e1, g2, e2) && x1.Length == x2.Length == 3 * len
    modifies g1, e1, g2, e2
    ensures InStep(g1, e1, g2, e2) && g1.gid == old(g1.gid) + RoundUp8(len)
    ensures g1.trace == old(g1.trace) + Tweaks(old(g1.gid), len)
    ensures s1 == SValues(g1.h, old(g1.gid), len, x1[..], p1.delta, x2[..], p2.delta)
    ensures s2 == SValues(g1.h, old(g1.gid), len, x2[..], p2.delta, x1[..], p1.delta)
  {
    hide Ciphertext, Recovered, TraceOk, RoundUp8, Tweaks;
    TraceGrows(g1.trace, g1.gid, len);
    var rows1 := ShipCiphertexts(x1, len, p1.delta, g1);
    var rows2 := ShipCiphertexts(x2, len, p2.delta, g2);
    s1 := RecoverS(x1, len, p1.delta, e1, rows2);
    s2 := RecoverS(x2, len, p2.delta, e2, rows1);
  }

  /** Open the parity bits, fold them into region 2, and feed the L-vectors to F_eq. `in1` and `in2` say which of the bits
      party 1 and party 2 receive were flipped on the way. */
  method OpenAndFold(p1: TriplePool, p2: TriplePool, x1: array<Share>, x2: array<Share>, len: nat, s1: seq<Block>, s2: seq<Block>,
                     f1: FeqHash, f2: FeqHash, in1: nat -> bool, in2: nat -> bool)
    requires x1 != x2 && x1.Length == x2.Length == 3 * len && |s1| == |s2| == len && f1 != f2
    modifies x1, x2, f1, f2
    ensures x1[..] == FoldedIn(1, len, old(x1[..]), Opens(s1, s2, in1), p1.delta)
    ensures x2[..] == FoldedIn(2, len, old(x2[..]), Opens(s2, s1, in2), p2.delta)
    ensures f1.fed == old(f1.fed) + LVector(s1, Opens(s1, s2, in1), p1.delta)
    ensures f2.fed == old(f2.fed) + LVector(s2, Opens(s2, s1, in2), p2.delta)
  {
    hide FoldedIn, LVector;
    var sent1 := seq(len, k requires 0 <= k < len => Lsb1(s1[k]));
    var sent2 := seq(len, k requires 0 <= k < len => Lsb1(s2[k]));
    var o1 := seq(len, k requires 0 <= k < len => sent1[k] != (sent2[k] != in1(k)));
    var o2 := seq(len, k requires 0 <= k < len => sent2[k] != (sent1[k] != in2(k)));
    assert o1 == Opens(s1, s2, in1) && o2 == Opens(s2, s1, in2);
    var l1 := FoldOpened(1, x1, len, p1.delta, s1, o1);
    var l2 := FoldOpened(2, x2, len, p2.delta, s2, o2);
    f1.Put(l1);
    f2.Put(l2);
  }

  /** The leaky AND of one layer at both parties. */
  method LeakyAndHalfGate(p1: TriplePool, p2: TriplePool, x1: array<Share>, x2: array<Share>, len: nat,
                          g1: Mitccrh, e1: Mitccrh, g2: Mitccrh, e2: Mitccrh, f1: FeqHash, f2: FeqHash,
                          in1: nat -> bool, in2: nat -> bool)
    requires InStep(g1, e1, g2, e2) && x1 != x2 && x1.Length == x2.Length == 3 * len && f1 != f2
    modifies x1, x2, g1, e1, g2, e2, f1, f2
    ensures InStep(g1, e1, g2, e2) && g1.gid == old(g1.gid) + RoundUp8(len)
    ensures g1.trace == old(g1.trace) + Tweaks(old(g1.gid), len)
    ensures var s1 := SValues(g1.h, old(g1.gid), len, old(x1[..]), p1.delta, old(x2[..]), p2.delta);
      var s2 := SValues(g1.h, old(g1.gid), len, old(x2[..]), p2.delta, old(x1[..]), p1.delta);
      && x1[..] == FoldedIn(1, len, old(x1[..]), Opens(s1, s2, in1), p1.delta)
      && x2[..] == FoldedIn(2, len, old(x2[..]), Opens(s2, s1, in2), p2.delta)
      && f1.fed == old(f1.fed) + LVector(s1, Opens(s1, s2, in1), p1.delta)
      && f2.fed == old(f2.fed) + LVector(s2, Opens(s2, s1, in2), p2.delta)
  {
    hide SValues, FoldedIn, Opens, LVector, InStep, RoundUp8, Tweaks;
    var s1, s2 := ExchangeCiphertexts(p1, p2, x1, x2, len, g1, e1, g2, e2);
    OpenAndFold(p1, p2, x1, x2, len, s1, s2, f1, f2, in1, in2);
  }

  /** `acc` is `was` with a and c of the first `k` candidates absorbed from the reindexed layer; `d` is the party's
      b-difference bits. */
  ghost predicate AbsorbedTo(was: seq<Share>, lay: seq<Share>, acc: seq<Share>, len: nat, r: nat, d: seq<bool>, k: nat) {
    && |was| == |lay| == |acc| == 3 * len && r < len && |d| == k <= len
    && (forall i {:trigger acc[i]} | 0 <= i < k :: acc[i] == XorShare(was[i], lay[Src(i, r, len)]))
    && (forall i {:trigger acc[i]} | k <= i < 2 * len :: acc[i] == was[i])
    && (forall i {:trigger acc[i]} | 2 * len <= i < 2 * len + k :: acc[i] == XorShare(was[i], lay[2 * len + Src(i - 2 * len, r, len)]))
    && (forall i {:trigger acc[i]} | 2 * len + k <= i < 3 * len :: acc[i] == was[i])
    && (forall i {:trigger d[i]} | 0 <= i < k :: d[i] == (Bit(was[len + i]) != Bit(lay[len + Src(i, r, len)])))
  }

  ghost predicate IsAbsorbed(was: seq<Share>, lay: seq<Share>, acc: seq<Share>, len: nat, r: nat, d: seq<bool>) {
    AbsorbedTo(was, lay, acc, len, r, d, len)
  }

  /** One more candidate, from its own entries only. */
  lemma AbsorbStep(was: seq<Share>, lay: seq<Share>, acc: seq<Share>, len: nat, r: nat, d: seq<bool>, k: nat)
    requires AbsorbedTo(was, lay, acc, len, r, d, k) && k < len
    ensures var src := Src(k, r, len);
      AbsorbedTo(was, lay, acc[k := XorShare(acc[k], lay[src])][2 * len + k := XorShare(acc[2 * len + k], lay[2 * len + src])],
                 len, r, d + [Bit(acc[len + k]) != Bit(lay[len + src])], k + 1)
  {
    hide XorShare, Bit, Src;
  }

  /** First half of a bucket fold at one party: absorb a and c, and compute this party's b-difference bits. */
  method AbsorbLayer(acc: array<Share>, lay: array<Share>, len: nat, r: nat) returns (dMe: seq<bool>)
    requires acc != lay && acc.Length == lay.Length == 3 * len && r < len
    modifies acc
    ensures |dMe| == len && IsAbsorbed(old(acc[..]), lay[..], acc[..], len, r, dMe)
  {
    hide XorShare, Bit, Src, AbsorbedTo;
    ghost var was := acc[..];
    dMe := [];
    NothingAbsorbed(was, lay[..], len, r);
    for i := 0 to len
      invariant |dMe| == i && AbsorbedTo(was, lay[..], acc[..], len, r, dMe, i)
    {
      AbsorbStep(was, lay[..], acc[..], len, r, dMe, i);
      ghost var before := acc[..];
      var src := Src(i, r, len);
      acc[i] := XorShare(acc[i], lay[src]);
      acc[2 * len + i] := XorShare(acc[2 * len + i], lay[2 * len + src]);
      dMe := dMe + [Bit(acc[len + i]) != Bit(lay[len + src])];
      assert acc[..] == before[i := acc[i]][2 * len + i := acc[2 * len + i]];
    }
  }

  lemma NothingAbsorbed(was: seq<Share>, lay: seq<Share>, len: nat, r: nat)
    requires |was| == |lay| == 3 * len && r < len
    ensures AbsorbedTo(was, lay, was, len, r, [], 0)
  {
  }

  /** Second half: c ^= layer.a * d for the bits opened by both parties. */
  method CorrectLayer(acc: array<Share>, lay: array<Share>, len: nat, r: nat, dMe: seq<bool>, dPeer: seq<bool>)
    requires acc != lay && acc.Length == lay.Length == 3 * len && r < len && |dMe| == |dPeer| == len
    modifies acc
    ensures forall i | 0 <= i < 2 * len :: acc[i] == old(acc[i])
    ensures forall i | 2 * len <= i < 3 * len ::
      acc[i] == XorShare(old(acc[i]), SelShare(dMe[i - 2 * len] != dPeer[i - 2 * len], lay[Src(i - 2 * len, r, len)]))
  {
    hide XorShare, SelShare, Src;
    for i := 0 to len
      invariant forall j {:trigger acc[j]} | 0 <= j < 2 * len :: acc[j] == old(acc[j])
      invariant forall j {:trigger acc[j]} | 2 * len <= j < 2 * len + i ::
        acc[j] == XorShare(old(acc[j]), SelShare(dMe[j - 2 * len] != dPeer[j - 2 * len], lay[Src(j - 2 * len, r, len)]))
      invariant forall j {:trigger acc[j]} | 2 * len + i <= j < 3 * len :: acc[j] == old(acc[j])
    {
      acc[2 * len + i] := XorShare(acc[2 * len + i], SelShare(dMe[i] != dPeer[i], lay[Src(i, r, len)]));
    }
  }

  /** One bucket fold at both parties. */
  method BucketOneLayer(acc1: array<Share>, acc2: array<Share>, lay1: array<Share>, lay2: array<Share>, len: nat, r: nat)
    requires r < len
    requires acc1 != acc2 && acc1 != lay1 && acc1 != lay2 && acc2 != lay1 && acc2 != lay2
    requires acc1.Length == acc2.Length == lay1.Length == lay2.Length == 3 * len
    modifies acc1, acc2
    ensures Layer(acc1[..], acc2[..]) == Fold(Layer(old(acc1[..]), old(acc2[..])), Layer(lay1[..], lay2[..]), len, r)
  {
    hide IsAbsorbed, Fold;
    ghost var was1, was2, la, lb := acc1[..], acc2[..], lay1[..], lay2[..];
    var d1 := AbsorbLayer(acc1, lay1, len, r);
    var d2 := AbsorbLayer(acc2, lay2, len, r);
    ghost var mid1, mid2 := acc1[..], acc2[..];
    CorrectLayer(acc1, lay1, len, r, d1, d2);
    CorrectLayer(acc2, lay2, len, r, d2, d1);
    TwoHalves(was1, was2, la, lb, mid1, mid2, acc1[..], acc2[..], len, r, d1, d2);
  }

  /** The two loops of a fold, at both parties, are the fold. */
  lemma TwoHalves(was1: seq<Share>, was2: seq<Share>, lay1: seq<Share>, lay2: seq<Share>, mid1: seq<Share>, mid2: seq<Share>,
                  acc1: seq<Share>, acc2: seq<Share>, len: nat, r: nat, d1: seq<bool>, d2: seq<bool>)
    requires |acc1| == |acc2| == 3 * len && r < len && |d1| == |d2| == len
    requires IsAbsorbed(was1, lay1, mid1, len, r, d1) && IsAbsorbed(was2, lay2, mid2, len, r, d2)
    requires |mid1| == |mid2| == |lay1| == |lay2| == |was1| == |was2| == 3 * len
    requires forall i | 0 <= i < 2 * len :: acc1[i] == mid1[i] && acc2[i] == mid2[i]
    requires forall i | 2 * len <= i < 3 * len ::
      && acc1[i] == XorShare(mid1[i], SelShare(d1[i - 2 * len] != d2[i - 2 * len], lay1[Src(i - 2 * len, r, len)]))
      && acc2[i] == XorShare(mid2[i], SelShare(d2[i - 2 * len] != d1[i - 2 * len], lay2[Src(i - 2 * len, r, len)]))
    ensures Layer(acc1, acc2) == Fold(Layer(was1, was2), Layer(lay1, lay2), len, r)
  {
    hide XorShare, SelShare, Src, Bit, IsAbsorbed;
    var o := seq(len, i requires 0 <= i < len => Differs(Layer(was1, was2), Layer(lay1, lay2), len, r, i));
    OneParty(was1, lay1, mid1, acc1, len, r, d1, d2, o, was2, lay2, mid2);
    OneParty(was2, lay2, mid2, acc2, len, r, d2, d1, o, was1, lay1, mid1);
  }

  lemma OneParty(was: seq<Share>, lay: seq<Share>, mid: seq<Share>, acc: seq<Share>, len: nat, r: nat, dMe: seq<bool>, dPeer: seq<bool>,
                 o: seq<bool>, wasPeer: seq<Share>, layPeer: seq<Share>, midPeer: seq<Share>)
    requires |acc| == |was| == |lay| == |mid| == |wasPeer| == |layPeer| == 3 * len && r < len && |dMe| == |dPeer| == |o| == len
    requires IsAbsorbed(was, lay, mid, len, r, dMe) && IsAbsorbed(wasPeer, layPeer, midPeer, len, r, dPeer)
    requires forall i | 0 <= i < len ::
      o[i] == ((Bit(was[len + i]) != Bit(lay[len + Src(i, r, len)])) != (Bit(wasPeer[len + i]) != Bit(layPeer[len + Src(i, r, len)])))
    requires forall i | 0 <= i < 2 * len :: acc[i] == mid[i]
    requires forall i | 2 * len <= i < 3 * len ::
      acc[i] == XorShare(mid[i], SelShare(dMe[i - 2 * len] != dPeer[i - 2 * len], lay[Src(i - 2 * len, r, len)]))
    ensures acc == Absorbed(was, lay, len, r, o)
  {
    hide XorShare, SelShare, Src, Bit;
    forall i | 0 <= i < len
      ensures (dMe[i] != dPeer[i]) == o[i]
    {
    }
  }

  /** A hash commitment to a digest and a nonce, taken to be injective. */
  datatype Commitment = Commitment(digest: seq<Block>, nonce: Block)

  datatype FeqOutcome = Same | Different | BadOpening

  /** Party 2's end: whatever is opened, it accepts only the digest committed to before it sent its own. */
  method FeqReceiver(mine: seq<Block>, com: Commitment, shown: seq<Block>, nonce: Block) returns (outcome: FeqOutcome)
    ensures outcome.BadOpening? <==> shown != com.digest || nonce != com.nonce
    ensures outcome.Same? <==> shown == com.digest == mine && nonce == com.nonce
  {
    if Commitment(shown, nonce) != com {
      return BadOpening;
    }
    outcome := if mine == shown then Same else Different;
  }

  /** F_eq on the two running hashes: party 1 commits before it sees party 2's digest, then opens. Both parties accept exactly
      when the digests agree. */
  method FeqCheck(f1: FeqHash, f2: FeqHash, nonce: Block) returns (ok: bool)
    ensures ok <==> f1.fed == f2.fed
  {
    var com := Commitment(f1.fed, nonce);
    var reply := f2.fed;
    var at2 := FeqReceiver(f2.fed, com, f1.fed, nonce);
    ok := f1.fed == reply && at2.Same?;
  }

  /** Both parties have made the first `k` layers of a call: the COT position, the tweaks, and what was fed to F_eq. */
  ghost predicate MadeUpTo(c: Call, k: nat, p1: TriplePool, p2: TriplePool, g1: Mitccrh, e1: Mitccrh, g2: Mitccrh, e2: Mitccrh,
                           f1: FeqHash, f2: FeqHash)
    reads p1`drawn, p2`drawn, g1, e1, g2, e2, f1, f2
  {
    && c.Shapes() && p1 != p2 && f1 != f2
    && c.d1 == p1.delta && c.d2 == p2.delta && c.cot1 == p1.cot && c.cot2 == p2.cot
    && InStep(g1, e1, g2, e2) && g1.h == c.h && g1.gid == Times(k, RoundUp8(c.len)) && |g1.trace| == Times(k, c.len)
    && p1.drawn == p2.drawn && (k > 0 ==> p1.drawn == c.at + c.len + Times(k - 1, 3 * c.len))
    && f1.fed == c.Fed1(k) && f2.fed == c.Fed2(k)
  }

  lemma MadeFacts(c: Call, k: nat, p1: TriplePool, p2: TriplePool, g1: Mitccrh, e1: Mitccrh, g2: Mitccrh, e2: Mitccrh,
                  f1: FeqHash, f2: FeqHash)
    requires MadeUpTo(c, k, p1, p2, g1, e1, g2, e2, f1, f2)
    ensures c.Shapes() && InStep(g1, e1, g2, e2) && g1.h == e1.h == g2.h == e2.h == c.h && |g1.trace| == Times(k, c.len)
    ensures p1.drawn == p2.drawn && (k > 0 ==> p1.drawn == c.at + c.len + Times(k - 1, 3 * c.len))
    ensures f1.fed == c.Fed1(k) && f2.fed == c.Fed2(k)
  {
    hide TraceOk, Call.Fed1, Call.Fed2, Times;
  }

  /** Layer `k` is made: what the leaky AND fed and left behind is what the call says. */
  lemma LayerMade(c: Call, k: nat, at: nat, x1: seq<Share>, x2: seq<Share>)
    requires c.Shapes() && at == Times(k, RoundUp8(c.len)) && Layer(x1, x2) == c.Minted(k)
    ensures |x1| == |x2| == 3 * c.len
    ensures var s1, s2 := SValues(c.h, at, c.len, x1, c.d1, x2, c.d2), SValues(c.h, at, c.len, x2, c.d2, x1, c.d1);
      && c.Leaky(k) == Layer(FoldedIn(1, c.len, x1, Opens(s1, s2, c.flips(k, 1)), c.d1),
                             FoldedIn(2, c.len, x2, Opens(s2, s1, c.flips(k, 2)), c.d2))
      && c.Fed1(k + 1) == c.Fed1(k) + LVector(s1, Opens(s1, s2, c.flips(k, 1)), c.d1)
      && c.Fed2(k + 1) == c.Fed2(k) + LVector(s2, Opens(s2, s1, c.flips(k, 2)), c.d2)
  {
    hide SValues, FoldedIn, Opens, LVector, RoundUp8, Times, Call.Minted;
  }

  /** The accumulator absorbs layer `k`. */
  lemma LayerFolded(c: Call, k: nat)
    requires c.Shapes() && k > 0
    ensures c.Acc(k) == Fold(c.Acc(k - 1), c.Leaky(k), c.len, c.coin(k - 1) % c.len)
    ensures c.Acc(0) == c.Leaky(0)
  {
    hide Fold, Call.Leaky;
  }

  /** One sacrifice: mint a fresh layer, make it a leaky AND, and fold it into the accumulator. */
  method SacrificeLayer(p1: TriplePool, p2: TriplePool, acc1: array<Share>, acc2: array<Share>,
                        sac1: array<Share>, sac2: array<Share>, k: nat,
                        g1: Mitccrh, e1: Mitccrh, g2: Mitccrh, e2: Mitccrh, f1: FeqHash, f2: FeqHash, c: Call)
    requires k > 0 && MadeUpTo(c, k, p1, p2, g1, e1, g2, e2, f1, f2)
    requires acc1 != acc2 && acc1 != sac1 && acc1 != sac2 && acc2 != sac1 && acc2 != sac2 && sac1 != sac2
    requires acc1.Length == acc2.Length == sac1.Length == sac2.Length == 3 * c.len
    requires Layer(acc1[..], acc2[..]) == c.Acc(k - 1)
    modifies p1`drawn, p1`mintedSinceCheck, p2`drawn, p2`mintedSinceCheck
    modifies acc1, acc2, sac1, sac2, g1, e1, g2, e2, f1, f2
    ensures MadeUpTo(c, k + 1, p1, p2, g1, e1, g2, e2, f1, f2)
    ensures Layer(acc1[..], acc2[..]) == c.Acc(k)
  {
    hide Fold, SValues, FoldedIn, Opens, LVector, RoundUp8, Tweaks, TraceOk, Call.Leaky, Call.Acc, Call.Fed1, Call.Fed2;
    LayerFolded(c, k);
    ghost var was1, was2 := acc1[..], acc2[..];
    p1.GenCotShares(sac1, 0, 3 * c.len);
    p2.GenCotShares(sac2, 0, 3 * c.len);
    assert Layer(sac1[..], sac2[..]) == c.Minted(k);
    LayerMade(c, k, g1.gid, sac1[..], sac2[..]);
    LeakyAndHalfGate(p1, p2, sac1, sac2, c.len, g1, e1, g2, e2, f1, f2, c.flips(k, 1), c.flips(k, 2));
    assert Layer(sac1[..], sac2[..]) == c.Leaky(k);
    assert acc1[..] == was1 && acc2[..] == was2;
    BucketOneLayer(acc1, acc2, sac1, sac2, c.len, c.coin(k - 1) % c.len);
  }

  /** Fold `b - 1` fresh sacrifice layers into the accumulator, reusing one sacrifice buffer. The shift of layer `k`
      comes from the public coin drawn after that layer was committed. */
  method LayeredBucketIntoAcc(p1: TriplePool, p2: TriplePool, acc1: array<Share>, acc2: array<Share>, b: nat,
                              g1: Mitccrh, e1: Mitccrh, g2: Mitccrh, e2: Mitccrh, f1: FeqHash, f2: FeqHash, c: Call)
    requires b >= 1 && MadeUpTo(c, 1, p1, p2, g1, e1, g2, e2, f1, f2)
    requires acc1 != acc2 && acc1.Length == acc2.Length == 3 * c.len && Layer(acc1[..], acc2[..]) == c.Acc(0)
    modifies p1`drawn, p1`mintedSinceCheck, p2`drawn, p2`mintedSinceCheck, acc1, acc2, g1, e1, g2, e2, f1, f2
    ensures MadeUpTo(c, b, p1, p2, g1, e1, g2, e2, f1, f2)
    ensures Layer(acc1[..], acc2[..]) == c.Acc(b - 1)
  {
    hide MadeUpTo, Call.Acc;
    MadeFacts(c, 1, p1, p2, g1, e1, g2, e2, f1, f2);
    var sac1 := new Share[3 * c.len](_ => NO_SHARE);
    var sac2 := new Share[3 * c.len](_ => NO_SHARE);
    for k := 1 to b
      invariant c.Shapes() && MadeUpTo(c, k, p1, p2, g1, e1, g2, e2, f1, f2)
      invariant Layer(acc1[..], acc2[..]) == c.Acc(k - 1)
    {
      SacrificeLayer(p1, p2, acc1, acc2, sac1, sac2, k, g1, e1, g2, e2, f1, f2, c);
    }
  }

  /** The Beaver openings of one party. The b-side needs none: the accumulator kept the gate's own b. */
  method BeaverOpenings(repA: seq<Share>, repB: seq<Share>, acc: array<Share>, len: nat) returns (xb: seq<bool>, yb: seq<bool>)
    requires |repA| == |repB| == len && acc.Length == 3 * len && acc[len..2 * len] == repB
    ensures |xb| == |yb| == len
    ensures forall i | 0 <= i < len :: xb[i] == (Bit(repA[i]) != Bit(acc[i]))
    ensures forall i | 0 <= i < len :: !yb[i]
  {
    hide Bit;
    xb, yb := [], [];
    for i := 0 to len
      invariant |xb| == |yb| == i
      invariant forall j | 0 <= j < i :: xb[j] == (Bit(repA[j]) != Bit(acc[j]))
      invariant forall j | 0 <= j < i :: !yb[j]
    {
      assert acc[len..2 * len][i] == acc[len + i];
      xb := xb + [Bit(repA[i]) != Bit(acc[i])];
      yb := yb + [Bit(repB[i]) != Bit(acc[len + i])];
    }
  }

  method Reconcile(party: nat, d: Block, acc: array<Share>, len: nat,
                   xbMe: seq<bool>, xbPeer: seq<bool>, ybMe: seq<bool>, ybPeer: seq<bool>) returns (sigma: seq<Share>)
    requires acc.Length == 3 * len && |xbMe| == |xbPeer| == |ybMe| == |ybPeer| == len
    ensures |sigma| == len
    ensures forall i | 0 <= i < len ::
      sigma[i] == SigmaOf(party, d, acc[i], acc[len + i], acc[2 * len + i], xbMe[i] != xbPeer[i], ybMe[i] != ybPeer[i])
  {
    hide XorShare, SelShare, Flipped;
    sigma := [];
    for i := 0 to len
      invariant |sigma| == i
      invariant forall j {:trigger sigma[j]} | 0 <= j < i ::
        sigma[j] == SigmaOf(party, d, acc[j], acc[len + j], acc[2 * len + j], xbMe[j] != xbPeer[j], ybMe[j] != ybPeer[j])
    {
      var xb, yb := xbMe[i] != xbPeer[i], ybMe[i] != ybPeer[i];
      var s := XorShare(XorShare(acc[2 * len + i], SelShare(xb, acc[len + i])), SelShare(yb, acc[i]));
      sigma := sigma + [Flipped(party, xb && yb, s, d)];
    }
  }

  /** Copy a gate's operand shares into regions a and b of the representative layer. */
  method LoadRepresentative(repA: seq<Share>, repB: seq<Share>, len: nat) returns (acc: array<Share>)
    requires |repA| == |repB| == len
    ensures fresh(acc) && acc.Length == 3 * len && acc[..len] == repA && acc[len..2 * len] == repB
  {
    acc := new Share[3 * len](_ => NO_SHARE);
    for i := 0 to len
      invariant acc[..i] == repA[..i] && acc[len..len + i] == repB[..i]
    {
      acc[i] := repA[i];
      acc[len + i] := repB[i];
    }
  }

  /** One party's layer 0: its operand shares for a and b, and freshly minted r. */
  method MintRepresentative(p: TriplePool, repA: seq<Share>, repB: seq<Share>, len: nat) returns (acc: array<Share>)
    requires |repA| == |repB| == len
    modifies p`drawn, p`mintedSinceCheck
    ensures fresh(acc) && acc.Length == 3 * len && acc[..len] == repA && acc[len..2 * len] == repB
    ensures forall i | 2 * len <= i < 3 * len :: acc[i] == p.cot(old(p.drawn) + (i - 2 * len))
    ensures p.drawn == old(p.drawn) + len
  {
    acc := LoadRepresentative(repA, repB, len);
    p.GenCotShares(acc, 2 * len, len);
    assert acc[..len] == repA;
    assert acc[len..2 * len] == repB;
  }

  /** Layer 0 of the bucket: the leaky AND of each gate's own operand shares, with only r minted. */
  method RepresentativeLayer(p1: TriplePool, p2: TriplePool,
                             g1: Mitccrh, e1: Mitccrh, g2: Mitccrh, e2: Mitccrh, f1: FeqHash, f2: FeqHash, c: Call)
    returns (acc1: array<Share>, acc2: array<Share>)
    requires MadeUpTo(c, 0, p1, p2, g1, e1, g2, e2, f1, f2) && p1.drawn == c.at
    modifies p1`drawn, p1`mintedSinceCheck, p2`drawn, p2`mintedSinceCheck, g1, e1, g2, e2, f1, f2
    ensures MadeUpTo(c, 1, p1, p2, g1, e1, g2, e2, f1, f2)
    ensures fresh(acc1) && fresh(acc2) && acc1 != acc2 && acc1.Length == acc2.Length == 3 * c.len
    ensures Layer(acc1[..], acc2[..]) == c.Acc(0)
  {
    hide SValues, FoldedIn, Opens, LVector, RoundUp8, Tweaks, TraceOk, Call.Leaky, Call.Acc, Call.Fed1, Call.Fed2;
    LayerFolded(c, 1);
    acc1 := MintRepresentative(p1, c.a1, c.b1, c.len);
    acc2 := MintRepresentative(p2, c.a2, c.b2, c.len);
    assert Layer(acc1[..], acc2[..]) == c.Minted(0);
    LayerMade(c, 0, g1.gid, acc1[..], acc2[..]);
    LeakyAndHalfGate(p1, p2, acc1, acc2, c.len, g1, e1, g2, e2, f1, f2, c.flips(0, 1), c.flips(0, 2));
    assert Layer(acc1[..], acc2[..]) == c.Leaky(0);
  }

  /** The tweak states of one call, under one seed at both parties. */
  method NewTweakStates(h: TweakedHash) returns (g1: Mitccrh, e1: Mitccrh, g2: Mitccrh, e2: Mitccrh)
    ensures fresh(g1) && fresh(e1) && fresh(g2) && fresh(e2) && InStep(g1, e1, g2, e2)
    ensures g1.h == e1.h == g2.h == e2.h == h && g1.gid == 0 && g1.trace == []
  {
    g1 := new Mitccrh(h);
    e1 := new Mitccrh(h);
    g2 := new Mitccrh(h);
    e2 := new Mitccrh(h);
  }

  lemma TraceIsDistinct(g1: Mitccrh, e1: Mitccrh, g2: Mitccrh, e2: Mitccrh)
    requires InStep(g1, e1, g2, e2)
    ensures Distinct(g1.trace)
  {
  }

  ghost predicate Distinct(s: seq<nat>) {
    forall i, j | 0 <= i < j < |s| :: s[i] != s[j]
  }

  lemma MadeNothing(c: Call, p1: TriplePool, p2: TriplePool, g1: Mitccrh, e1: Mitccrh, g2: Mitccrh, e2: Mitccrh,
                    f1: FeqHash, f2: FeqHash)
    requires c.Shapes() && p1 != p2 && f1 != f2 && p1.drawn == p2.drawn && f1.fed == f2.fed == []
    requires c.d1 == p1.delta && c.d2 == p2.delta && c.cot1 == p1.cot && c.cot2 == p2.cot
    requires InStep(g1, e1, g2, e2) && g1.h == c.h && g1.gid == 0 && g1.trace == []
    ensures MadeUpTo(c, 0, p1, p2, g1, e1, g2, e2, f1, f2)
  {
  }

  lemma LinkedFacts(p1: TriplePool, p2: TriplePool)
    requires Linked(p1, p2)
    ensures p1 != p2 && p1.drawn == p2.drawn
  {
    hide Paired, GoodDeltas;
  }

  /** All layers of one call: layer 0 is each gate's own operand shares, and `bucket - 1` layers are sacrificed. */
  method RunLayers(p1: TriplePool, p2: TriplePool, bucket: nat, c: Call)
    returns (acc1: array<Share>, acc2: array<Share>, f1: FeqHash, f2: FeqHash, ghost mitc: seq<Mitccrh>)
    requires bucket >= 1 && c.Shapes() && p1 != p2 && p1.drawn == p2.drawn == c.at
    requires c.d1 == p1.delta && c.d2 == p2.delta && c.cot1 == p1.cot && c.cot2 == p2.cot
    modifies p1`drawn, p1`mintedSinceCheck, p2`drawn, p2`mintedSinceCheck
    ensures fresh(acc1) && fresh(acc2) && acc1.Length == acc2.Length == 3 * c.len && Layer(acc1[..], acc2[..]) == c.Acc(bucket - 1)
    ensures fresh(f1) && fresh(f2) && f1.fed == c.Fed1(bucket) && f2.fed == c.Fed2(bucket)
    ensures p1.drawn == p2.drawn == c.at + c.len + Times(bucket - 1, 3 * c.len)
    ensures |mitc| == 4 && (forall i | 0 <= i < 4 :: fresh(mitc[i]) && mitc[i].h == c.h)
    ensures InStep(mitc[0], mitc[1], mitc[2], mitc[3]) && |mitc[0].trace| == Times(bucket, c.len)
  {
    hide InStep, Call.Acc, Times, MadeUpTo, Call.Fed1, Call.Fed2;
    var g1, e1, g2, e2 := NewTweakStates(c.h);
    f1 := new FeqHash();
    f2 := new FeqHash();
    MadeNothing(c, p1, p2, g1, e1, g2, e2, f1, f2);
    acc1, acc2 := RepresentativeLayer(p1, p2, g1, e1, g2, e2, f1, f2, c);
    LayeredBucketIntoAcc(p1, p2, acc1, acc2, bucket, g1, e1, g2, e2, f1, f2, c);
    MadeFacts(c, bucket, p1, p2, g1, e1, g2, e2, f1, f2);
    mitc := [g1, e1, g2, e2];
  }

  /** The bucketed triples of one call; one batched F_eq check covers all layers, and `ok` is its outcome. `mitc` holds the four
      tweak states, in step: the tweaks recorded in each are those the candidates of all layers were hashed under, and no two of
      them are the same. */
  method BuildTriples(p1: TriplePool, p2: TriplePool, c: Call)
    returns (ok: bool, bucket: nat, acc1: array<Share>, acc2: array<Share>, ghost mitc: seq<Mitccrh>)
    requires Linked(p1, p2) && c.Ok() && c.d1 == p1.delta && c.d2 == p2.delta && c.cot1 == p1.cot && c.cot2 == p2.cot
    requires c.at == p1.drawn
    modifies p1`drawn, p1`mintedSinceCheck, p2`drawn, p2`mintedSinceCheck
    ensures Linked(p1, p2) && fresh(acc1) && fresh(acc2) && acc1.Length == acc2.Length == 3 * c.len
    ensures Least(c.len, p1.ssp, bucket) && p1.drawn == old(p1.drawn) + c.len + Times(bucket - 1, 3 * c.len)
    ensures Layer(acc1[..], acc2[..]) == c.Acc(bucket - 1)
    ensures ok <==> c.Untouched(bucket)
    ensures |mitc| == 4 && (forall i | 0 <= i < 4 :: fresh(mitc[i]) && mitc[i].h == c.h)
    ensures InStep(mitc[0], mitc[1], mitc[2], mitc[3])
    ensures |mitc[0].trace| == Times(bucket, c.len) && Distinct(mitc[0].trace)
  {
    hide Least, InStep, Distinct, Call.Acc, Call.Untouched, Times, Call.Fed1, Call.Fed2, Call.Ok, Twins;
    c.OkShapes();
    LinkedFacts(p1, p2);
    bucket := GetBucketSize(c.len, p1.ssp);
    LeastIsAtLeastTwo(c.len, p1.ssp, bucket);
    var f1, f2;
    acc1, acc2, f1, f2, mitc := RunLayers(p1, p2, bucket, c);
    var nonce: Block := *;
    ok := FeqCheck(f1, f2, nonce);
    c.FeqIsExact(bucket);
    TraceIsDistinct(mitc[0], mitc[1], mitc[2], mitc[3]);
  }

  lemma {:induction false} CotsMinted(sacrifices: nat, len: nat)
    ensures len + Times(sacrifices, 3 * len) == (3 * sacrifices + 1) * len
  {
    if sacrifices > 0 {
      CotsMinted(sacrifices - 1, len);
      MulDistributes(3 * sacrifices - 2, 3, len);
    }
  }

  lemma MulDistributes(a: int, b: int, c: int)
    ensures (a + b) * c == a * c + b * c
  {
  }

  /** In-place AND-share generation (KRRW section 5.2): authenticated shares of `a and b` for every gate. `flips` says which
      opened parity bits arrived flipped; the batched F_eq check passes if and only if none of any layer did. `mitc` holds the
      two parties' four tweak states (none without ANDs): in step, with one recorded tweak for each of the `bucket * numAnds`
      candidates, and no two of those the same. */
  method ComputeInplace(p1: TriplePool, p2: TriplePool, h: TweakedHash, coin: nat -> nat, numAnds: nat,
                        repA1: seq<Share>, repB1: seq<Share>, repA2: seq<Share>, repB2: seq<Share>, flips: Flips)
    returns (ok: bool, bucket: nat, sigma1: seq<Share>, sigma2: seq<Share>, ghost mitc: seq<Mitccrh>, ghost c: Call)
    requires Linked(p1, p2)
    requires |repA1| == |repB1| == numAnds
    requires AllPaired(repA1, repA2, p1.delta, p2.delta) && AllPaired(repB1, repB2, p1.delta, p2.delta)
    modifies p1`drawn, p1`mintedSinceCheck, p2`drawn, p2`mintedSinceCheck
    ensures Linked(p1, p2)
    ensures c == Call(h, numAnds, p1.delta, p2.delta, p1.cot, p2.cot, old(p1.drawn), repA1, repB1, repA2, repB2, coin, flips)
    ensures numAnds == 0 ==> ok && p1.drawn == old(p1.drawn) && p1.mintedSinceCheck == old(p1.mintedSinceCheck)
    ensures numAnds > 0 ==> Least(numAnds, p1.ssp, bucket) && p1.drawn == old(p1.drawn) + (3 * bucket - 2) * numAnds
    ensures |mitc| == (if numAnds == 0 then 0 else 4) && forall i | 0 <= i < |mitc| :: fresh(mitc[i]) && mitc[i].h == h
    ensures numAnds > 0 ==> InStep(mitc[0], mitc[1], mitc[2], mitc[3])
    ensures numAnds > 0 ==> |mitc[0].trace| == bucket * numAnds && Distinct(mitc[0].trace)
    ensures numAnds > 0 ==> (ok <==> c.Untouched(bucket))
    ensures numAnds == 0 ==> sigma1 == sigma2 == []
    ensures ok && numAnds > 0 ==> sigma1 == c.Sigma1(bucket - 1) && sigma2 == c.Sigma2(bucket - 1)
    ensures ok ==> |sigma1| == numAnds && AllPaired(sigma1, sigma2, p1.delta, p2.delta)
    ensures ok ==> forall i | 0 <= i < numAnds ::
      Hidden(sigma1[i], sigma2[i]) == (Hidden(repA1[i], repA2[i]) && Hidden(repB1[i], repB2[i]))
  {
    hide Paired, SigmaOf, Hidden, Least, Call.Acc, Call.Untouched, InStep, Distinct, Call.Sigma1, Call.Sigma2, Times;
    c := Call(h, numAnds, p1.delta, p2.delta, p1.cot, p2.cot, p1.drawn, repA1, repB1, repA2, repB2, coin, flips);
    if numAnds == 0 {
      return true, 0, [], [], [], c;
    }
    var acc1, acc2;
    var call := Call(h, numAnds, p1.delta, p2.delta, p1.cot, p2.cot, p1.drawn, repA1, repB1, repA2, repB2, coin, flips);
    ok, bucket, acc1, acc2, mitc := BuildTriples(p1, p2, call);
    LeastIsAtLeastTwo(numAnds, p1.ssp, bucket);
    CotsMinted(bucket - 1, numAnds);
    if !ok {
      return false, bucket, [], [], mitc, c;
    }
    c.AccKeepsB(bucket - 1);
    var xb1, yb1 := BeaverOpenings(repA1, repB1, acc1, numAnds);
    var xb2, yb2 := BeaverOpenings(repA2, repB2, acc2, numAnds);
    sigma1 := Reconcile(1, p1.delta, acc1, numAnds, xb1, xb2, yb1, yb2);
    sigma2 := Reconcile(2, p2.delta, acc2, numAnds, xb2, xb1, yb2, yb1);
    SigmasMade(c, bucket - 1, acc1[..], acc2[..], xb1, xb2, sigma1, sigma2);
    c.SigmasHideProducts(bucket - 1);
  }

  lemma SigmasMade(c: Call, k: nat, acc1: seq<Share>, acc2: seq<Share>, xb1: seq<bool>, xb2: seq<bool>,
                   sigma1: seq<Share>, sigma2: seq<Share>)
    requires c.Shapes() && Layer(acc1, acc2) == c.Acc(k) && |xb1| == |xb2| == |sigma1| == |sigma2| == c.len
    requires forall i | 0 <= i < c.len ::
      xb1[i] == (Bit(c.a1[i]) != Bit(acc1[i])) && xb2[i] == (Bit(c.a2[i]) != Bit(acc2[i]))
    requires forall i | 0 <= i < c.len ::
      && sigma1[i] == SigmaOf(1, c.d1, acc1[i], acc1[c.len + i], acc1[2 * c.len + i], xb1[i] != xb2[i], false)
      && sigma2[i] == SigmaOf(2, c.d2, acc2[i], acc2[c.len + i], acc2[2 * c.len + i], xb2[i] != xb1[i], false)
    ensures sigma1 == c.Sigma1(k) && sigma2 == c.Sigma2(k)
  {
    hide SigmaOf, Bit, Call.Acc;
  }

  lemma LeastIsAtLeastTwo(size: nat, ssp: nat, b: nat)
    requires Least(size, ssp, b)
    ensures b >= 2
  {
  }
}
