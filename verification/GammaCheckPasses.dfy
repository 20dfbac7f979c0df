/** Pass 3 at the garbler: re-propagate the opened masks from the evaluator's AND masks and recompute the witnesses
    (AG2PCGammaCheckPass). */
module GammaCheckPasses {
  import opened Blocks
  import opened Shares
  import opened Circuits
  import opened Recordings
  import opened Cells
  import opened RunStates

  class GammaCheckPass {
    const s: RunState
    var wid: nat
    var ai: nat
    var c0: int
    var c1: int
    ghost const outs: seq<nat>
    ghost const ref: Checker

    ghost predicate PlanOk()
      reads s`phys, s`numSlots, s`sigma, s`numAnds, s`lambdaAnd
    {
      && ref.Ok() && Canonical(ref.n, ref.gs)
      && ref.n == s.numInputs && ref.sigma == s.sigma && ref.received <= s.lambdaAnd
      && s.numAnds == NumAnds(ref.gs)
      && |s.phys| == ref.n + |ref.gs| && Allocated(ref.n, ref.gs, outs, s.phys, s.numSlots)
    }

    ghost predicate CountersOk(k: nat)
      reads `ai, `c0, `c1
    {
      && k <= |ref.gs|
      && ai == AndsBefore(ref.gs, k)
      && Cached(ref.n, ref.gs, k, c0, Const0) && Cached(ref.n, ref.gs, k, c1, Const1)
    }

    ghost predicate SlotsOk(k: nat)
      reads s`phys, s`numSlots, s`wireSlot, s`maskInput
    {
      && ref.Ok() && k <= |ref.gs| && |s.phys| == ref.n + |ref.gs|
      && |s.wireSlot| == |s.maskInput| == s.numSlots
      && SharesReady(ref.n, ref.gs, s.wireSlot, s.phys, ref.n + k, Shares())
      && SlotsHold(s.maskInput, s.phys, ref.n + k, ref.AllMasks())
    }

    ghost predicate WitnessOk(k: nat)
      reads s`m1t
    {
      && ref.Ok() && k <= |ref.gs|
      && |s.m1t| >= NumAnds(ref.gs) && ref.Witnesses(k) <= s.m1t
    }

    ghost function Shares(): (sh: seq<Share>)
      requires ref.Ok()
      ensures |sh| == ref.n + |ref.gs|
    {
      AllShares(ref.n, ref.gs, ref.shares, ref.lg)
    }

    ghost predicate Valid()
      reads this, s
    {
      && PlanOk() && ref.n <= wid <= ref.n + |ref.gs|
      && CountersOk(wid - ref.n) && SlotsOk(wid - ref.n) && WitnessOk(wid - ref.n)
    }

    constructor (s: RunState, ghost outs: seq<nat>, ghost ref: Checker)
      requires ref.Ok() && Canonical(ref.n, ref.gs)
      requires ref.n == s.numInputs && ref.sigma == s.sigma && ref.received <= s.lambdaAnd
      requires s.numAnds == NumAnds(ref.gs) <= |s.m1t|
      requires |s.phys| == ref.n + |ref.gs| && Allocated(ref.n, ref.gs, outs, s.phys, s.numSlots)
      requires |s.wireSlot| == |s.maskInput| == s.numSlots
      requires SharesReady(ref.n, ref.gs, s.wireSlot, s.phys, ref.n, AllShares(ref.n, ref.gs, ref.shares, ref.lg))
      requires SlotsHold(s.maskInput, s.phys, ref.n, ref.AllMasks())
      ensures this.s == s && this.outs == outs && this.ref == ref
      ensures Valid() && wid == ref.n && c0 == c1 == -1
    {
      this.s, this.outs, this.ref := s, outs, ref;
      wid, ai, c0, c1 := s.numInputs, 0, -1, -1;
    }

    /** `wslot(i)` and `minp(i)`: an operand of the next gate still finds its state in its slot. */
    method ReadOperand(i: nat) returns (share: Share, mask: bool)
      requires PlanOk() && ref.n <= wid < ref.n + |ref.gs| && SlotsOk(wid - ref.n) && ref.gs[wid - ref.n].Reads(i)
      ensures i < wid && share == Shares()[i] && mask == ref.AllMasks()[i]
    {
      hide AllShares, Checker.AllMasks;
      OperandIsCurrent(ref.n, ref.gs, outs, s.phys, s.numSlots, wid - ref.n, i);
      share, mask := s.wireSlot[s.phys[i]], s.maskInput[s.phys[i]];
    }

    /** Store the share and mask of the next linear gate or constant. */
    method Store(share: Share, mask: bool) returns (w: nat)
      requires PlanOk() && ref.n <= wid < ref.n + |ref.gs| && SlotsOk(wid - ref.n)
      requires share == Shares()[wid] && mask == ref.AllMasks()[wid]
      modifies this`wid, s`wireSlot, s`maskInput
      ensures w == old(wid) && wid == w + 1 && SlotsOk(wid - ref.n)
    {
      hide AllShares, Checker.AllMasks, SharesReady, SlotsHold;
      w, wid := wid, wid + 1;
      SharesWritten(ref.n, ref.gs, outs, s.wireSlot, s.phys, s.numSlots, w, Shares());
      WriteHolds(s.maskInput, s.maskInput[s.phys[w] := mask], s.phys, s.phys, w, ref.AllMasks());
      s.wireSlot := s.wireSlot[s.phys[w] := share];
      s.maskInput := s.maskInput[s.phys[w] := mask];
    }

    /** Store the received mask of the next AND; its share is already in its slot and is returned. */
    method StoreMask(mask: bool) returns (w: nat, share: Share)
      requires PlanOk() && ref.n <= wid < ref.n + |ref.gs| && SlotsOk(wid - ref.n)
      requires ref.gs[wid - ref.n].op == AndOp && mask == ref.AllMasks()[wid]
      modifies this`wid, s`maskInput
      ensures w == old(wid) && wid == w + 1 && SlotsOk(wid - ref.n) && share == Shares()[w]
    {
      hide AllShares, Checker.AllMasks, SharesReady, SlotsHold;
      w, wid := wid, wid + 1;
      SharesPassAnd(ref.n, ref.gs, outs, s.wireSlot, s.phys, s.numSlots, w, Shares());
      WriteHolds(s.maskInput, s.maskInput[s.phys[w] := mask], s.phys, s.phys, w, ref.AllMasks());
      s.maskInput := s.maskInput[s.phys[w] := mask];
      share := s.wireSlot[s.phys[w]];
    }

    method PublicBit(v: bool) returns (w: nat)
      requires Valid()
      requires var c, op := if v then c1 else c0, if v then Const1 else Const0;
        c >= 0 || (wid < ref.n + |ref.gs| && ref.gs[wid - ref.n] == Gate(0, 0, wid, op))
      modifies this, s`wireSlot, s`maskInput
      ensures Valid()
      ensures var c := if v then old(c1) else old(c0);
        if c >= 0 then w == c && wid == old(wid) && c0 == old(c0) && c1 == old(c1)
        else w == old(wid) && wid == w + 1 && c0 == (if v then old(c0) else w) && c1 == (if v then w else old(c1))
    {
      hide PlanOk, SlotsOk, WitnessOk, Cached, Checker.Ok, Checker.AllMasks, AndsBefore, Shares, Canonical;
      var c := if v then c1 else c0;
      if c >= 0 {
        return c;
      }
      ghost var k := wid - ref.n;
      StepFacts(k);
      w := Store(NO_SHARE, v);
      CachedAnew(ref.n, ref.gs, k, if v then Const1 else Const0);
      if v {
        CachedGoesOn(ref.n, ref.gs, k, c0, Const0);
        c1 := w;
      } else {
        CachedGoesOn(ref.n, ref.gs, k, c1, Const1);
        c0 := w;
      }
    }

    method XorGate(i0: nat, i1: nat) returns (w: nat)
      requires Valid() && wid < ref.n + |ref.gs| && ref.gs[wid - ref.n] == Gate(i0, i1, wid, XorOp)
      modifies this, s`wireSlot, s`maskInput
      ensures Valid() && w == old(wid) && wid == w + 1 && c0 == old(c0) && c1 == old(c1)
    {
      hide PlanOk, SlotsOk, WitnessOk, Cached, Checker.Ok, Checker.AllMasks, AndsBefore, Shares, Canonical;
      ghost var k := wid - ref.n;
      StepFacts(k);
      var sa, a := ReadOperand(i0);
      var sb, b := ReadOperand(i1);
      w := Store(XorShare(sa, sb), a != b);
      CachedGoesOn(ref.n, ref.gs, k, c0, Const0);
      CachedGoesOn(ref.n, ref.gs, k, c1, Const1);
    }

    method NotGate(i: nat) returns (w: nat)
      requires Valid() && wid < ref.n + |ref.gs| && ref.gs[wid - ref.n] == Gate(i, 0, wid, NotOp)
      modifies this, s`wireSlot, s`maskInput
      ensures Valid() && w == old(wid) && wid == w + 1 && c0 == old(c0) && c1 == old(c1)
    {
      hide PlanOk, SlotsOk, WitnessOk, Cached, Checker.Ok, Checker.AllMasks, AndsBefore, Shares, Canonical;
      ghost var k := wid - ref.n;
      StepFacts(k);
      var sa, a := ReadOperand(i);
      w := Store(sa, !a);
      CachedGoesOn(ref.n, ref.gs, k, c0, Const0);
      CachedGoesOn(ref.n, ref.gs, k, c1, Const1);
    }

    method RecordWitness(m: Block, ghost k: nat)
      requires WitnessOk(k) && ref.Ok() && k < |ref.gs| && ref.gs[k].op == AndOp && ai == AndsBefore(ref.gs, k) < NumAnds(ref.gs)
      requires m == ref.WitnessAt(k)
      modifies s`m1t
      ensures WitnessOk(k + 1)
    {
      hide Checker.WitnessAt, Checker.Ok;
      s.m1t := s.m1t[ai := m];
    }

    method AndGate(i0: nat, i1: nat) returns (w: nat)
      requires Valid() && wid < ref.n + |ref.gs| && ref.gs[wid - ref.n] == Gate(i0, i1, wid, AndOp)
      modifies this, s`maskInput, s`m1t
      ensures Valid() && w == old(wid) && wid == w + 1 && c0 == old(c0) && c1 == old(c1)
    {
      hide PlanOk, SlotsOk, WitnessOk, Cached, Checker.Ok, Checker.AllMasks, AndsBefore, Shares, Canonical;
      hide Checker.WitnessAt, CheckWitness;
      ghost var k := wid - ref.n;
      AndStepFacts(k);
      var sa, a := ReadOperand(i0);
      var sb, b := ReadOperand(i1);
      var sg;
      w, sg := StoreMask(s.lambdaAnd[ai]);
      RecordWitness(CheckWitness(a, b, sa, sb, sg, s.sigma[ai]), k);
      CachedGoesOn(ref.n, ref.gs, k, c0, Const0);
      CachedGoesOn(ref.n, ref.gs, k, c1, Const1);
      ai := ai + 1;
    }

    /** The pass's numbering and caches are those of the recording `r`. */
    ghost predicate At(r: Recording)
      reads `wid, `c0, `c1
    {
      wid == ref.n + |r.gates| && c0 == r.c0 && c1 == r.c1
    }

    /** Dispatch one call of a body over the scratch map from values to wires. */
    method Apply(g: Gate, scratch: seq<nat>, ghost r: Recording) returns (w: nat)
      requires Valid() && At(r) && r.ids == scratch && RecordingOk(ref.n, r)
      requires !g.IsConst() ==> g.in0 < |scratch| && (g.op != NotOp ==> g.in1 < |scratch|)
      requires r.Step(ref.n, g).gates <= ref.gs
      modifies this, s`wireSlot, s`maskInput, s`m1t
      ensures Valid() && At(r.Step(ref.n, g)) && r.Step(ref.n, g).ids == scratch + [w]
    {
      hide Valid, RecordingOk;
      assert |r.Step(ref.n, g).gates| > |r.gates| ==> ref.gs[|r.gates|] == r.Step(ref.n, g).gates[|r.gates|];
      match g.op {
        case Const0 => w := PublicBit(false);
        case Const1 => w := PublicBit(true);
        case AndOp => w := AndGate(scratch[g.in0], scratch[g.in1]);
        case XorOp => w := XorGate(scratch[g.in0], scratch[g.in1]);
        case NotOp => w := NotGate(scratch[g.in0]);
      }
    }

    /** Drive the pass over a body that records to the stream it was prepared for. */
    method Run(calls: seq<Gate>)
      requires Valid() && ref.n == s.numInputs && Ordered(ref.n, calls) && ref.gs == Stream(ref.n, calls)
      requires wid == ref.n && c0 == c1 == -1
      modifies this, s`wireSlot, s`maskInput, s`m1t
      ensures Valid() && wid == ref.n + |ref.gs|
    {
      hide Valid, RecordingOk;
      var scratch := seq(s.numInputs, i => i);
      for k := 0 to |calls|
        invariant Valid() && At(Record(ref.n, calls, k)) && scratch == Record(ref.n, calls, k).ids
      {
        NextCall(ref.n, calls, k);
        var w := Apply(calls[k], scratch, Record(ref.n, calls, k));
        scratch := scratch + [w];
      }
    }

    /** What the finished pass leaves behind. */
    lemma Finished()
      requires Valid() && wid == ref.n + |ref.gs|
      ensures |s.wireSlot| == |s.maskInput| == s.numSlots && |s.phys| == ref.n + |ref.gs|
      ensures SlotsHold(s.wireSlot, s.phys, ref.n + |ref.gs|, Shares())
      ensures SlotsHold(s.maskInput, s.phys, ref.n + |ref.gs|, ref.AllMasks())
      ensures ref.Witnesses(|ref.gs|) <= s.m1t
    {
      hide SlotsHold, Shares, Checker.AllMasks, Checker.Witnesses, AndsBefore, Canonical, Cached, Allocated;
    }

    lemma {:induction false} StepFacts(k: nat)
      requires PlanOk() && k < |ref.gs| && ref.gs[k].op != AndOp
      ensures ref.Ok()
      ensures var sh, ms, g, n := Shares(), ref.AllMasks(), ref.gs[k], ref.n;
        && |sh| == |ms| == n + |ref.gs|
        && (!g.IsConst() ==> g.in0 < n + k && (g.op != NotOp ==> g.in1 < n + k))
        && (g.IsConst() ==> sh[n + k] == NO_SHARE && ms[n + k] == (g.op == Const1))
        && (g.op == XorOp ==> sh[n + k] == XorShare(sh[g.in0], sh[g.in1]) && ms[n + k] == (ms[g.in0] != ms[g.in1]))
        && (g.op == NotOp ==> sh[n + k] == sh[g.in0] && ms[n + k] == !ms[g.in0])
        && AndsBefore(ref.gs, k + 1) == AndsBefore(ref.gs, k)
      ensures WitnessOk(k) ==> WitnessOk(k + 1)
    {
      hide Checker.WitnessAt;
      SharesStep(ref.n, ref.gs, ref.shares, ref.lg, k);
    }

    lemma {:induction false} AndStepFacts(k: nat)
      requires PlanOk() && k < |ref.gs| && ref.gs[k].op == AndOp
      ensures ref.Ok() && ref.sigma == s.sigma
      ensures var sh, ms, g, n, t := Shares(), ref.AllMasks(), ref.gs[k], ref.n, AndsBefore(ref.gs, k);
        && |sh| == |ms| == n + |ref.gs| && g.in0 < n + k && g.in1 < n + k
        && t < NumAnds(ref.gs) == |ref.sigma| == |ref.received| <= |s.lambdaAnd|
        && ms[n + k] == s.lambdaAnd[t]
        && ref.WitnessAt(k) == CheckWitness(ms[g.in0], ms[g.in1], sh[g.in0], sh[g.in1], sh[n + k], ref.sigma[t])
      ensures AndsBefore(ref.gs, k + 1) == AndsBefore(ref.gs, k) + 1
    {
      hide CheckWitness, Checker.AllMasks, AllShares;
      AndsBeforeMonotone(ref.gs, k, |ref.gs|);
      ref.MaskAndShareAt(ref.gs[k].in0);
      ref.MaskAndShareAt(ref.gs[k].in1);
      ref.MaskAndShareAt(ref.n + k);
    }
  }
}
