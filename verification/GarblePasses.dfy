/** Pass 2 at the garbler: produce the ciphertexts of every AND and ship them in chunks (AG2PCGarblePass). */
module GarblePasses {
  import opened Blocks
  import opened Shares
  import opened Circuits
  import opened Recordings
  import opened Cells
  import opened RunStates
  import opened Framing

  /** A staging slot of the pipe: room for a chunk, of which the first `n` entries are filled. */
  datatype Chunk = Chunk(g: seq<Block>, b: seq<bool>, n: nat) {
    /** The entries filled so far. */
    function Filled(): (es: seq<Entry>)
      requires 2 * n <= |g| && n <= |b|
      ensures |es| == n
    {
      seq(n, i requires 0 <= i < n => Entry(g[2 * i], g[2 * i + 1], b[i]))
    }

    function Put(e: Entry): (c: Chunk)
      requires 2 * n + 2 <= |g| && n < |b|
      ensures |c.g| == |g| && |c.b| == |b| && c.n == n + 1
    {
      Chunk(g[2 * n := e.g0][2 * n + 1 := e.g1], b[n := e.b], n + 1)
    }
  }

  lemma PutAppends(c: Chunk, e: Entry)
    requires 2 * c.n + 2 <= |c.g| && c.n < |c.b|
    ensures c.Put(e).Filled() == c.Filled() + [e]
  {
  }

  lemma FilledAt(c: Chunk, i: nat)
    requires 2 * c.n <= |c.g| && c.n <= |c.b| && i < c.n
    ensures c.Filled()[i] == Entry(c.g[2 * i], c.g[2 * i + 1], c.b[i])
  {
  }

  /** Of the entries `es`, the full chunks are on the wire, and slot `at` holds the rest. */
  ghost predicate Staged(slots: seq<Chunk>, at: nat, sent: seq<Item>, es: seq<Entry>, cap: nat) {
    && |slots| == 2 && at < 2
    && |slots[0].g| == |slots[1].g| == 2 * cap && |slots[0].b| == |slots[1].b| == cap
    && slots[at].n <= cap && slots[at].n <= BATCH
    && slots[at].n <= |es| && (|es| - slots[at].n) % BATCH == 0
    && sent == Framed(es[..|es| - slots[at].n])
    && slots[at].Filled() == es[|es| - slots[at].n..]
  }

  /** Before the last entry is staged the buffer has room. */
  lemma RoomForOne(n: nat, size: nat, ands: nat)
    requires n <= size < ands && n < BATCH
    ensures n < Capacity(ands)
  {
  }

  lemma StagedFacts(slots: seq<Chunk>, at: nat, sent: seq<Item>, es: seq<Entry>, cap: nat)
    requires Staged(slots, at, sent, es, cap)
    ensures |slots| == 2 && at < 2 && slots[at].n <= |es| && |slots[at].g| == 2 * cap && |slots[at].b| == cap
  {
    hide Framed, Chunk.Filled;
  }

  lemma StagedGrows(slots: seq<Chunk>, at: nat, sent: seq<Item>, es: seq<Entry>, cap: nat, e: Entry)
    requires Staged(slots, at, sent, es, cap) && slots[at].n < cap && slots[at].n < BATCH
    ensures Staged(slots[at := slots[at].Put(e)], at, sent, es + [e], cap)
  {
    hide Framed, Chunk.Filled, Chunk.Put;
    var n := slots[at].n;
    PutAppends(slots[at], e);
    assert es[|es| - n..] + [e] == (es + [e])[|es| - n..];
    assert (es + [e])[..|es| - n] == es[..|es| - n];
  }

  /** Capacity of a staging slot for a run of `ands` ANDs. */
  function Capacity(ands: nat): nat {
    var a := if ands < 1 then 1 else ands;
    if a < BATCH then a else BATCH
  }

  class GarblePass {
    const s: RunState
    var wid: nat
    var ai: nat
    var c0: int
    var c1: int
    /** The pipe's two staging slots; chunk number `published` is being filled, in slot `published % 2`. */
    var slots: seq<Chunk>
    var published: nat
    /** What the sender has put on the wire. */
    var sent: seq<Item>
    ghost const outs: seq<nat>
    ghost const ref: Garbler

    ghost predicate PlanOk()
      reads s`phys, s`numSlots, s`sigma, s`h, s`numAnds
    {
      && ref.Ok() && Canonical(ref.n, ref.gs)
      && ref.n == s.numInputs && ref.delta == s.delta && ref.h == s.h && ref.sigma == s.sigma
      && s.numAnds == NumAnds(ref.gs)
      && |s.phys| == ref.n + |ref.gs| && Allocated(ref.n, ref.gs, outs, s.phys, s.numSlots)
    }

    ghost predicate CountersOk(k: nat)
      reads `ai, `c0, `c1, s`tweak
    {
      && k <= |ref.gs|
      && ai == s.tweak == AndsBefore(ref.gs, k)
      && Cached(ref.n, ref.gs, k, c0, Const0) && Cached(ref.n, ref.gs, k, c1, Const1)
    }

    ghost predicate SlotsOk(k: nat)
      reads s`phys, s`numSlots, s`wireSlot, s`labelSlot
    {
      && ref.Ok() && k <= |ref.gs| && |s.phys| == ref.n + |ref.gs|
      && |s.wireSlot| == |s.labelSlot| == s.numSlots
      && SharesReady(ref.n, ref.gs, s.wireSlot, s.phys, ref.n + k, Shares())
      && SlotsHold(s.labelSlot, s.phys, ref.n + k, ref.AllLabels())
    }

    /** `es` are staged, and the chunk being filled is not full. */
    ghost predicate StreamIs(es: seq<Entry>, cap: nat)
      reads `slots, `published, `sent
    {
      Staged(slots, published % 2, sent, es, cap) && Cur().n < BATCH
    }

    function Cur(): Chunk
      requires |slots| == 2
      reads `slots, `published
    {
      slots[published % 2]
    }

    ghost function Shares(): (sh: seq<Share>)
      requires ref.Ok()
      ensures |sh| == ref.n + |ref.gs|
    {
      AllShares(ref.n, ref.gs, ref.shares, ref.lg)
    }

    ghost predicate Valid()
      reads this, s
    {
      && PlanOk() && ref.n <= wid <= ref.n + |ref.gs|
      && CountersOk(wid - ref.n) && SlotsOk(wid - ref.n)
      && StreamIs(ref.Entries(wid - ref.n), Capacity(NumAnds(ref.gs)))
    }

    constructor (s: RunState, ghost outs: seq<nat>, ghost ref: Garbler)
      requires ref.Ok() && Canonical(ref.n, ref.gs)
      requires ref.n == s.numInputs && ref.delta == s.delta && ref.h == s.h && ref.sigma == s.sigma && s.tweak == 0
      requires s.numAnds == NumAnds(ref.gs)
      requires |s.phys| == ref.n + |ref.gs| && Allocated(ref.n, ref.gs, outs, s.phys, s.numSlots)
      requires |s.wireSlot| == |s.labelSlot| == s.numSlots
      requires SharesReady(ref.n, ref.gs, s.wireSlot, s.phys, ref.n, AllShares(ref.n, ref.gs, ref.shares, ref.lg))
      requires SlotsHold(s.labelSlot, s.phys, ref.n, ref.AllLabels())
      ensures this.s == s && this.outs == outs && this.ref == ref
      ensures Valid() && wid == ref.n && c0 == c1 == -1
    {
      this.s, this.outs, this.ref := s, outs, ref;
      wid, ai, c0, c1 := s.numInputs, 0, -1, -1;
      var cap := Capacity(s.numAnds);
      slots := seq(2, _ => Chunk(seq(2 * cap, _ => ZERO), seq(cap, _ => false), 0));
      published, sent := 0, [];
    }

    /** `wslot(i)` and `lbl(i)`: an operand of the next gate still finds its share and label in its slot. */
    method ReadOperand(i: nat) returns (share: Share, lab: Block)
      requires PlanOk() && ref.n <= wid < ref.n + |ref.gs| && SlotsOk(wid - ref.n) && ref.gs[wid - ref.n].Reads(i)
      ensures i < wid && share == Shares()[i] && lab == ref.AllLabels()[i]
    {
      hide AllShares, Garbler.AllLabels;
      OperandIsCurrent(ref.n, ref.gs, outs, s.phys, s.numSlots, wid - ref.n, i);
      share, lab := s.wireSlot[s.phys[i]], s.labelSlot[s.phys[i]];
    }

    /** Store the share and label of the next linear gate or constant. */
    method Store(share: Share, lab: Block) returns (w: nat)
      requires PlanOk() && ref.n <= wid < ref.n + |ref.gs| && SlotsOk(wid - ref.n)
      requires share == Shares()[wid] && lab == ref.AllLabels()[wid]
      modifies this`wid, s`wireSlot, s`labelSlot
      ensures w == old(wid) && wid == w + 1 && SlotsOk(wid - ref.n)
    {
      hide AllShares, Garbler.AllLabels, SharesReady, SlotsHold;
      w, wid := wid, wid + 1;
      SharesWritten(ref.n, ref.gs, outs, s.wireSlot, s.phys, s.numSlots, w, Shares());
      WriteHolds(s.labelSlot, s.labelSlot[s.phys[w] := lab], s.phys, s.phys, w, ref.AllLabels());
      s.wireSlot := s.wireSlot[s.phys[w] := share];
      s.labelSlot := s.labelSlot[s.phys[w] := lab];
    }

    /** The share of the AND output about to be computed, left in its slot by the mask pass. */
    method ReadOutputShare() returns (share: Share)
      requires PlanOk() && ref.n <= wid < ref.n + |ref.gs| && SlotsOk(wid - ref.n) && ref.gs[wid - ref.n].op == AndOp
      ensures share == Shares()[wid]
    {
      SharesPassAnd(ref.n, ref.gs, outs, s.wireSlot, s.phys, s.numSlots, wid, Shares());
      share := s.wireSlot[s.phys[wid]];
    }

    /** Store the output label of the next AND. */
    method StoreLabel(lab: Block) returns (w: nat)
      requires PlanOk() && ref.n <= wid < ref.n + |ref.gs| && SlotsOk(wid - ref.n)
      requires ref.gs[wid - ref.n].op == AndOp && lab == ref.AllLabels()[wid]
      modifies this`wid, s`labelSlot
      ensures w == old(wid) && wid == w + 1 && SlotsOk(wid - ref.n)
    {
      hide AllShares, Garbler.AllLabels, SharesReady, SlotsHold;
      w, wid := wid, wid + 1;
      SharesPassAnd(ref.n, ref.gs, outs, s.wireSlot, s.phys, s.numSlots, w, Shares());
      WriteHolds(s.labelSlot, s.labelSlot[s.phys[w] := lab], s.phys, s.phys, w, ref.AllLabels());
      s.labelSlot := s.labelSlot[s.phys[w] := lab];
    }

    /** Stage one entry; a full chunk is published, sent, and filling goes on in the other slot. */
    method Stage(e: Entry, ghost es: seq<Entry>, ghost ands: nat)
      requires StreamIs(es, Capacity(ands)) && |es| < ands
      modifies this`slots, this`published, this`sent
      ensures StreamIs(es + [e], Capacity(ands))
    {
      hide Framed, Chunk.Filled, Chunk.Put, Staged, Capacity;
      StagedFacts(slots, published % 2, sent, es, Capacity(ands));
      RoomForOne(Cur().n, |es|, ands);
      StagedGrows(slots, published % 2, sent, es, Capacity(ands), e);
      slots := slots[published % 2 := Cur().Put(e)];
      if Cur().n == BATCH {
        PublishFull(es + [e], Capacity(ands));
      }
    }

    /** A full chunk: publish it and go on filling the other slot. */
    method PublishFull(ghost es: seq<Entry>, ghost cap: nat)
      requires Staged(slots, published % 2, sent, es, cap) && Cur().n == BATCH
      modifies this`slots, this`published, this`sent
      ensures StreamIs(es, cap)
    {
      hide Framed, Chunk.Filled;
      Publish(es[..|es| - BATCH]);
      assert es[..|es| - BATCH] + es[|es| - BATCH..] == es;
      slots := slots[published % 2 := Cur().(n := 0)];
      assert es[..|es|] == es && Cur().Filled() == [] == es[|es|..];
    }

    /** Publish the chunk being filled; the sender ships its ciphertexts and then its parity bits. */
    method Publish(ghost before: seq<Entry>)
      requires |slots| == 2 && 0 < Cur().n <= BATCH && 2 * Cur().n <= |Cur().g| && Cur().n <= |Cur().b|
      requires |before| % BATCH == 0 && sent == Framed(before)
      modifies this`published, this`sent
      ensures published == old(published) + 1 && sent == Framed(before + old(Cur().Filled()))
    {
      var c := Cur();
      FramedGrows(before, c.Filled());
      PayloadIsFrame(c);
      sent := sent + Payload(c);
      published := published + 1;
    }

    /** Publish whatever is left in the last chunk. */
    method End(ghost es: seq<Entry>, ghost cap: nat)
      requires StreamIs(es, cap)
      modifies this`published, this`sent
      ensures sent == Framed(es)
    {
      hide Framed, Chunk.Filled;
      assert es[..|es| - Cur().n] + es[|es| - Cur().n..] == es;
      if Cur().n > 0 {
        Publish(es[..|es| - Cur().n]);
      } else {
        assert es[..|es|] == es;
      }
    }

    method PublicBit(v: bool) returns (w: nat)
      requires Valid()
      requires var c, op := if v then c1 else c0, if v then Const1 else Const0;
        c >= 0 || (wid < ref.n + |ref.gs| && ref.gs[wid - ref.n] == Gate(0, 0, wid, op))
      modifies this, s`wireSlot, s`labelSlot
      ensures Valid()
      ensures var c := if v then old(c1) else old(c0);
        if c >= 0 then w == c && wid == old(wid) && c0 == old(c0) && c1 == old(c1)
        else w == old(wid) && wid == w + 1 && c0 == (if v then old(c0) else w) && c1 == (if v then w else old(c1))
    {
      hide PlanOk, SlotsOk, StreamIs, Cached, Garbler.Ok, Garbler.Entries, Garbler.AllLabels, AndsBefore, Shares;
      hide Canonical;
      var c := if v then c1 else c0;
      if c >= 0 {
        return c;
      }
      ghost var k := wid - ref.n;
      StepFacts(k);
      w := Store(NO_SHARE, if v then s.delta else ZERO);
      CachedAnew(ref.n, ref.gs, k, if v then Const1 else Const0);
      if v {
        CachedGoesOn(ref.n, ref.gs, k, c0, Const0);
        c1 := w;
      } else {
        CachedGoesOn(ref.n, ref.gs, k, c1, Const1);
        c0 := w;
      }
    }

    method XorGate(i0: nat, i1: nat) returns (w: nat)
      requires Valid() && wid < ref.n + |ref.gs| && ref.gs[wid - ref.n] == Gate(i0, i1, wid, XorOp)
      modifies this, s`wireSlot, s`labelSlot
      ensures Valid() && w == old(wid) && wid == w + 1 && c0 == old(c0) && c1 == old(c1)
    {
      hide PlanOk, SlotsOk, StreamIs, Cached, Garbler.Ok, Garbler.Entries, Garbler.AllLabels, AndsBefore, Shares;
      hide Canonical;
      ghost var k := wid - ref.n;
      StepFacts(k);
      var sa, la := ReadOperand(i0);
      var sb, lb := ReadOperand(i1);
      w := Store(XorShare(sa, sb), Xor(la, lb));
      CachedGoesOn(ref.n, ref.gs, k, c0, Const0);
      CachedGoesOn(ref.n, ref.gs, k, c1, Const1);
    }

    method NotGate(i: nat) returns (w: nat)
      requires Valid() && wid < ref.n + |ref.gs| && ref.gs[wid - ref.n] == Gate(i, 0, wid, NotOp)
      modifies this, s`wireSlot, s`labelSlot
      ensures Valid() && w == old(wid) && wid == w + 1 && c0 == old(c0) && c1 == old(c1)
    {
      hide PlanOk, SlotsOk, StreamIs, Cached, Garbler.Ok, Garbler.Entries, Garbler.AllLabels, AndsBefore, Shares;
      hide Canonical;
      ghost var k := wid - ref.n;
      StepFacts(k);
      var sa, la := ReadOperand(i);
      w := Store(sa, Xor(la, s.delta));
      CachedGoesOn(ref.n, ref.gs, k, c0, Const0);
      CachedGoesOn(ref.n, ref.gs, k, c1, Const1);
    }

    /** The garbler's half-gate computation: the output's zero label, the two ciphertexts and the parity bit. */
    method GarbleAnd(a0: Block, b0: Block, sa: Share, sb: Share, sg: Share, sig: Share) returns (out: Block, e: Entry)
      modifies s`tweak
      ensures s.tweak == old(s.tweak) + 1
      ensures out == AndLabel(s.h, old(s.tweak), a0, b0, sa, sb, sg, sig, s.delta)
      ensures e == AndEntry(s.h, old(s.tweak), a0, b0, sa, sb, sg, sig, s.delta)
    {
      hide Xor, Sel;
      var d := s.delta;
      var buf := s.HashCir([a0, Xor(a0, d), b0, Xor(b0, d)]);
      var g0 := Xor(Xor(Xor(buf[0], buf[1]), sb.key), Sel(Bit(sb), d));
      var g1 := Xor(Xor(Xor(Xor(buf[2], buf[3]), a0), sa.key), Sel(Bit(sa), d));
      out := Xor(Xor(Xor(Xor(Xor(buf[0], buf[2]), sig.key), Sel(Bit(sig), d)), sg.key), Sel(Bit(sg), d));
      e := Entry(g0, g1, Lsb1(out));
    }

    /** Read the operands of the AND at gate `k` and garble it. */
    method ComputeAnd(i0: nat, i1: nat, ghost k: nat) returns (out: Block, e: Entry)
      requires PlanOk() && SlotsOk(k) && k < |ref.gs| && wid == ref.n + k && ref.gs[k] == Gate(i0, i1, wid, AndOp)
      requires ai == s.tweak == AndsBefore(ref.gs, k)
      modifies s`tweak
      ensures s.tweak == old(s.tweak) + 1
      ensures out == ref.AllLabels()[wid] && ref.Entries(k + 1) == ref.Entries(k) + [e]
    {
      hide PlanOk, SlotsOk, Garbler.Ok, Garbler.Entries, Garbler.AllLabels, AndsBefore, Shares, Canonical, AndLabel;
      hide AndEntry;
      AndStepFacts(k);
      var sa, a0 := ReadOperand(i0);
      var sb, b0 := ReadOperand(i1);
      var sg := ReadOutputShare();
      out, e := GarbleAnd(a0, b0, sa, sb, sg, s.sigma[ai]);
    }

    lemma AndCounts(k: nat)
      requires PlanOk() && k < |ref.gs| && ref.gs[k].op == AndOp
      ensures ref.Ok() && |ref.AllLabels()| == ref.n + |ref.gs|
      ensures AndsBefore(ref.gs, k + 1) == AndsBefore(ref.gs, k) + 1
      ensures |ref.Entries(k)| < NumAnds(ref.gs)
    {
      hide Garbler.AllLabels, Garbler.Entries;
      AndStepFacts(k);
    }

    method AndGate(i0: nat, i1: nat) returns (w: nat)
      requires Valid() && wid < ref.n + |ref.gs| && ref.gs[wid - ref.n] == Gate(i0, i1, wid, AndOp)
      modifies this, s`labelSlot, s`tweak
      ensures Valid() && w == old(wid) && wid == w + 1 && c0 == old(c0) && c1 == old(c1)
    {
      hide PlanOk, SlotsOk, StreamIs, Cached, Garbler.Ok, Garbler.Entries, Garbler.AllLabels, AndsBefore, Shares;
      hide Canonical, AndLabel, AndEntry;
      ghost var k := wid - ref.n;
      AndCounts(k);
      var out, e := ComputeAnd(i0, i1, k);
      w := StoreLabel(out);
      Stage(e, ref.Entries(k), NumAnds(ref.gs));
      CachedGoesOn(ref.n, ref.gs, k, c0, Const0);
      CachedGoesOn(ref.n, ref.gs, k, c1, Const1);
      ai := ai + 1;
    }

    /** The pass's numbering and caches are those of the recording `r`. */
    ghost predicate At(r: Recording)
      reads `wid, `c0, `c1
    {
      wid == ref.n + |r.gates| && c0 == r.c0 && c1 == r.c1
    }

    /** Dispatch one call of a body over the scratch map from values to wires. */
    method Apply(g: Gate, scratch: seq<nat>, ghost r: Recording) returns (w: nat)
      requires Valid() && At(r) && r.ids == scratch && RecordingOk(ref.n, r)
      requires !g.IsConst() ==> g.in0 < |scratch| && (g.op != NotOp ==> g.in1 < |scratch|)
      requires r.Step(ref.n, g).gates <= ref.gs
      modifies this, s`wireSlot, s`labelSlot, s`tweak
      ensures Valid() && At(r.Step(ref.n, g)) && r.Step(ref.n, g).ids == scratch + [w]
    {
      hide Valid, RecordingOk;
      assert |r.Step(ref.n, g).gates| > |r.gates| ==> ref.gs[|r.gates|] == r.Step(ref.n, g).gates[|r.gates|];
      match g.op {
        case Const0 => w := PublicBit(false);
        case Const1 => w := PublicBit(true);
        case AndOp => w := AndGate(scratch[g.in0], scratch[g.in1]);
        case XorOp => w := XorGate(scratch[g.in0], scratch[g.in1]);
        case NotOp => w := NotGate(scratch[g.in0]);
      }
    }

    /** Drive the pass over a body that records to the stream it was prepared for. */
    method Run(calls: seq<Gate>)
      requires Valid() && ref.n == s.numInputs && Ordered(ref.n, calls) && ref.gs == Stream(ref.n, calls)
      requires wid == ref.n && c0 == c1 == -1
      modifies this, s`wireSlot, s`labelSlot, s`tweak
      ensures Valid() && wid == ref.n + |ref.gs|
    {
      hide Valid, RecordingOk;
      var scratch := seq(s.numInputs, i => i);
      for k := 0 to |calls|
        invariant Valid() && At(Record(ref.n, calls, k)) && scratch == Record(ref.n, calls, k).ids
      {
        NextCall(ref.n, calls, k);
        var w := Apply(calls[k], scratch, Record(ref.n, calls, k));
        scratch := scratch + [w];
      }
    }

    /** What the finished pass leaves behind. */
    lemma Finished()
      requires Valid() && wid == ref.n + |ref.gs|
      ensures |s.wireSlot| == |s.labelSlot| == s.numSlots && |s.phys| == ref.n + |ref.gs|
      ensures SlotsHold(s.wireSlot, s.phys, ref.n + |ref.gs|, Shares())
      ensures SlotsHold(s.labelSlot, s.phys, ref.n + |ref.gs|, ref.AllLabels())
      ensures StreamIs(ref.Entries(|ref.gs|), Capacity(NumAnds(ref.gs)))
    {
      hide SlotsHold, Shares, Garbler.AllLabels, Garbler.Entries, AndsBefore, StreamIs, Canonical, Cached, Allocated;
    }

    /** What gate `k` does to everything the garbler keeps track of. */
    lemma {:induction false} StepFacts(k: nat)
      requires PlanOk() && k < |ref.gs|
      ensures ref.Ok() && ref.delta == s.delta && ref.h == s.h && ref.sigma == s.sigma
      ensures var sh, ls, g, n := Shares(), ref.AllLabels(), ref.gs[k], ref.n;
        && |sh| == |ls| == n + |ref.gs|
        && (!g.IsConst() ==> g.in0 < n + k && (g.op != NotOp ==> g.in1 < n + k))
        && (g.IsConst() ==> sh[n + k] == NO_SHARE && ls[n + k] == if g.op == Const1 then ref.delta else ZERO)
        && (g.op == XorOp ==> sh[n + k] == XorShare(sh[g.in0], sh[g.in1]) && ls[n + k] == Xor(ls[g.in0], ls[g.in1]))
        && (g.op == NotOp ==> sh[n + k] == sh[g.in0] && ls[n + k] == Xor(ls[g.in0], ref.delta))
        && (g.op != AndOp ==> AndsBefore(ref.gs, k + 1) == AndsBefore(ref.gs, k) && ref.Entries(k + 1) == ref.Entries(k))
    {
      hide AndLabel, AndEntry, Xor, ShareOf, Garbler.EntryAt;
      SharesStep(ref.n, ref.gs, ref.shares, ref.lg, k);
    }

    /** The AND at gate `k` adds one entry, computed from its operands' labels and shares and its own sigma share. */
    lemma {:induction false} AndStepFacts(k: nat)
      requires PlanOk() && k < |ref.gs| && ref.gs[k].op == AndOp
      ensures ref.Ok() && ref.delta == s.delta && ref.h == s.h && ref.sigma == s.sigma
      ensures var sh, ls, g, n, t := Shares(), ref.AllLabels(), ref.gs[k], ref.n, AndsBefore(ref.gs, k);
        && |sh| == |ls| == n + |ref.gs| && g.in0 < n + k && g.in1 < n + k
        && AndsBefore(ref.gs, k + 1) == t + 1
        && t < |ref.sigma| == NumAnds(ref.gs) && |ref.Entries(k)| == t
        && ls[n + k] == AndLabel(ref.h, t, ls[g.in0], ls[g.in1], sh[g.in0], sh[g.in1], sh[n + k], ref.sigma[t], ref.delta)
        && ref.Entries(k + 1) == ref.Entries(k)
             + [AndEntry(ref.h, t, ls[g.in0], ls[g.in1], sh[g.in0], sh[g.in1], sh[n + k], ref.sigma[t], ref.delta)]
    {
      hide AndLabel, AndEntry, Xor, ShareOf, Canonical;
      AndsBeforeMonotone(ref.gs, k, |ref.gs|);
    }
  }

  /** What the sender writes for a published slot. */
  function Payload(c: Chunk): seq<Item>
    requires 2 * c.n <= |c.g| && c.n <= |c.b|
  {
    seq(2 * c.n, i requires 0 <= i < 2 * c.n => Row(c.g[i])) + seq(c.n, i requires 0 <= i < c.n => Flag(c.b[i]))
  }

  lemma PayloadIsFrame(c: Chunk)
    requires 2 * c.n <= |c.g| && c.n <= |c.b|
    ensures Payload(c) == Frame(c.Filled())
  {
    var es := c.Filled();
    forall j | 0 <= j < 3 * c.n
      ensures Payload(c)[j] == Frame(es)[j]
    {
      FrameReadsBack(es, if j < 2 * c.n then j / 2 else j - 2 * c.n);
      assert j < 2 * c.n ==> j == 2 * (j / 2) || j == 2 * (j / 2) + 1;
    }
  }
}
