/** Pass 1: slot assignment and mask collection (AG2PCSlotMaskPass). */
module SlotMaskPasses {
  import opened Blocks
  import opened Shares
  import opened Circuits
  import opened Recordings
  import opened Cells
  import opened RunStates
  import opened Allocators
  import opened TriplePools

  /** Fresh AND masks are drawn in batches of this many. */
  const LG_BATCH: nat := 16384

  /** Shares drawn from the COT session to serve `ands` fresh masks. */
  function DrawnFor(ands: nat): nat {
    (ands + LG_BATCH - 1) / LG_BATCH * LG_BATCH
  }

  /** A whole number of batches is what serving that many masks takes. */
  lemma DrawnIs(used: nat, off: nat, buffered: nat)
    requires off <= used && (if buffered == 0 then used == 0 else buffered == LG_BATCH && 1 <= off <= LG_BATCH && (used - off) % LG_BATCH == 0)
    ensures (used - off) + buffered == DrawnFor(used)
  {
  }

  lemma BatchUsedUp(used: nat, off: nat, buffered: nat)
    requires off == buffered <= used && (if buffered == 0 then used == 0 else buffered == LG_BATCH && (used - off) % LG_BATCH == 0)
    ensures used % LG_BATCH == 0
  {
  }

  class SlotMaskPass {
    const s: RunState
    const fpre: TriplePool
    var wid: nat
    var ai: nat
    var gi: nat
    var freelist: seq<int>
    var lgBuf: seq<Share>
    var lgOff: nat
    var c0: int
    var c1: int
    /** The gate stream the pass will see, its outputs, the inputs loaded, and the masks the session will yield. */
    ghost const plan: seq<Gate>
    ghost const outs: seq<nat>
    ghost const ins: seq<Share>
    ghost const masks: seq<bool>
    ghost const lg: nat -> Share
    ghost const drawn0: nat

    /** `used` masks have been handed out, and they were the session's next ones, in order. */
    ghost predicate DrawsOk(used: nat)
      reads `lgBuf, `lgOff, fpre`drawn
    {
      && (forall i: nat :: lg(i) == fpre.cot(drawn0 + i))
      && lgOff <= |lgBuf| && lgOff <= used
      && (if lgBuf == [] then used == 0 else |lgBuf| == LG_BATCH && 1 <= lgOff && (used - lgOff) % LG_BATCH == 0)
      && fpre.drawn == drawn0 + (used - lgOff) + |lgBuf|
      && forall j | 0 <= j < |lgBuf| :: lgBuf[j] == lg(used - lgOff + j)
    }

    /** The stream the pass is run on, fixed for the whole pass. */
    ghost predicate PlanOk()
      reads s`lastUse, s`persist, s`numWires, s`numAnds
    {
      && Canonical(s.numInputs, plan) && |ins| == |masks| == s.numInputs
      && s.LivenessDone(plan, outs)
    }

    /** Counters and constant caches after the first `k` gates. */
    ghost predicate CountersOk(k: nat)
      reads `gi, `ai, `c0, `c1
    {
      && k <= |plan|
      && gi == GateIndex(plan, k) && ai == AndsBefore(plan, k)
      && Cached(s.numInputs, plan, k, c0, Const0) && Cached(s.numInputs, plan, k, c1, Const1)
    }

    /** The allocator's state is `a`, and every wire placed so far that still owns its slot finds its own state there. */
    ghost predicate SlotsAre(a: Allocator)
      reads `wid, `freelist, s`phys, s`numSlots, s`wireSlot, s`maskInput
    {
      && Canonical(s.numInputs, plan) && |ins| == |masks| == s.numInputs
      && wid <= |s.phys| == s.numInputs + |plan|
      && Allocator(s.phys[..wid], s.numSlots, freelist) == a
      && |s.wireSlot| == |s.maskInput| == s.numSlots
      && SlotsHold(s.wireSlot, s.phys, wid, Shares())
      && SlotsHold(s.maskInput, s.phys, wid, AllInitialMasks(s.numInputs, plan, masks))
    }

    ghost predicate RepsOk(k: nat)
      reads s`repA, s`repB
    {
      && Canonical(s.numInputs, plan) && |ins| == s.numInputs && k <= |plan|
      && s.repA == OperandShares(plan, Shares(), s.numInputs, false, k)
      && s.repB == OperandShares(plan, Shares(), s.numInputs, true, k)
    }

    ghost function Shares(): (sh: seq<Share>)
      requires Canonical(s.numInputs, plan) && |ins| == s.numInputs
      ensures |sh| == s.numInputs + |plan|
    {
      AllShares(s.numInputs, plan, ins, lg)
    }

    ghost predicate Valid()
      reads this, s, fpre
    {
      && PlanOk() && s.numInputs <= wid <= s.numInputs + |plan|
      && CountersOk(wid - s.numInputs)
      && SlotsAre(AllocAt(s.numInputs, plan, outs, wid - s.numInputs))
      && RepsOk(wid - s.numInputs)
      && DrawsOk(ai)
    }

    constructor (s: RunState, fpre: TriplePool, ghost plan: seq<Gate>, ghost outs: seq<nat>)
      requires Canonical(s.numInputs, plan) && s.LivenessDone(plan, outs)
      requires |s.phys| == s.numInputs + |plan| && s.numSlots == s.numInputs == |s.wireSlot| == |s.maskInput|
      requires forall w | 0 <= w < s.numInputs :: s.phys[w] == w
      modifies s`repA, s`repB
      ensures this.s == s && this.fpre == fpre && this.plan == plan && this.outs == outs
      ensures ins == old(s.wireSlot) && masks == old(s.maskInput) && drawn0 == fpre.drawn
      ensures Valid() && wid == s.numInputs && c0 == c1 == -1 && lg == FreshMasks(fpre.cot, fpre.drawn)
    {
      this.s, this.fpre, this.plan, this.outs := s, fpre, plan, outs;
      wid, ai, gi, freelist, lgBuf, lgOff, c0, c1 := s.numInputs, 0, 0, [], [], 0, -1, -1;
      ins, masks, drawn0 := s.wireSlot, s.maskInput, fpre.drawn;
      lg := FreshMasks(fpre.cot, fpre.drawn);
      new;
      s.repA, s.repB := [], [];
    }

    /** The next fresh output mask; a batch is drawn when the buffer is used up. */
    method NextLambdaGamma(ghost used: nat) returns (lam: Share)
      requires DrawsOk(used)
      modifies this`lgBuf, this`lgOff, fpre`drawn, fpre`mintedSinceCheck
      ensures lam == lg(used) && DrawsOk(used + 1)
    {
      hide DrawsOk, Buffered;
      var empty := lgOff >= |lgBuf|;
      if empty {
        Refill(used);
      } else {
        StillBuffered(used);
      }
      lam := TakeMask(used);
    }

    lemma StillBuffered(used: nat)
      requires DrawsOk(used) && lgOff < |lgBuf|
      ensures Buffered(used)
    {
    }

    /** The next mask of a buffer that has one. */
    method TakeMask(ghost used: nat) returns (lam: Share)
      requires Buffered(used)
      modifies this`lgOff
      ensures lam == lg(used) && DrawsOk(used + 1)
    {
      lam, lgOff := lgBuf[lgOff], lgOff + 1;
    }

    /** `used` masks have been handed out and the buffer holds the next one. */
    ghost predicate Buffered(used: nat)
      reads `lgBuf, `lgOff, fpre`drawn
    {
      && (forall i: nat :: lg(i) == fpre.cot(drawn0 + i))
      && lgOff < |lgBuf| == LG_BATCH && lgOff <= used && (used - lgOff) % LG_BATCH == 0
      && fpre.drawn == drawn0 + (used - lgOff) + |lgBuf|
      && forall j | 0 <= j < |lgBuf| :: lgBuf[j] == lg(used - lgOff + j)
    }

    method Refill(ghost used: nat)
      requires DrawsOk(used) && lgOff >= |lgBuf|
      modifies this`lgBuf, this`lgOff, fpre`drawn, fpre`mintedSinceCheck
      ensures Buffered(used)
    {
      BatchUsedUp(used, lgOff, |lgBuf|);
      lgBuf := fpre.Draw(LG_BATCH);
      lgOff := 0;
    }

    /** Assign a physical slot to the newly emitted wire `id`. */
    method AllocSlot(id: nat) returns (slot: int)
      requires id < |s.phys| == |s.persist|
      modifies this`freelist, s`phys, s`numSlots, s`wireSlot, s`maskInput
      requires |s.wireSlot| == |s.maskInput| == s.numSlots
      ensures s.phys == old(s.phys)[id := slot]
      ensures Allocator(s.phys[..id + 1], s.numSlots, freelist)
           == old(Allocator(s.phys[..id], s.numSlots, freelist)).Take(s.persist[id])
      ensures |s.wireSlot| == |s.maskInput| == s.numSlots
      ensures s.wireSlot[..old(s.numSlots)] == old(s.wireSlot) && s.maskInput[..old(s.numSlots)] == old(s.maskInput)
    {
      if !s.persist[id] && freelist != [] {
        slot, freelist := freelist[|freelist| - 1], freelist[..|freelist| - 1];
      } else {
        slot, s.numSlots := s.numSlots, s.numSlots + 1;
        s.wireSlot := s.wireSlot + [NO_SHARE];
        s.maskInput := s.maskInput + [false];
      }
      s.phys := s.phys[id := slot];
      assert s.phys[..id + 1] == old(s.phys)[..id] + [slot];
    }

    /** Recycle a fabric slot at its last read: `w` is an operand of gate `k`, and `a` is the allocator's state. */
    method FreeIfDead(w: nat, ghost k: nat, ghost a: Allocator)
      requires PlanOk() && k < |plan| && gi == GateIndex(plan, k) && w < wid && SlotsAre(a)
      modifies this`freelist
      ensures SlotsAre(Allocators.FreeIfDead(s.numInputs, plan, outs, k, a, w))
    {
      hide LastUse, GateIndex, SlotsHold, Shares, AllInitialMasks, Persists, Canonical;
      if !s.persist[w] && s.lastUse[w] == gi {
        assert s.phys[w] == s.phys[..wid][w];
        freelist := freelist + [s.phys[w]];
      }
    }

    /** Place the next wire: allocate its slot and store its share and initial mask. */
    method Place(share: Share, mask: bool) returns (w: nat)
      requires PlanOk() && s.numInputs <= wid < s.numInputs + |plan|
      requires SlotsAre(AllocAt(s.numInputs, plan, outs, wid - s.numInputs))
      requires share == Shares()[wid] && mask == (plan[wid - s.numInputs].op == Const1)
      modifies this`wid, this`freelist, s`phys, s`numSlots, s`wireSlot, s`maskInput
      ensures w == old(wid) && wid == w + 1
      ensures SlotsAre(AllocAt(s.numInputs, plan, outs, w - s.numInputs).Take(Persists(s.numInputs, plan, outs, w)))
    {
      hide AllocAt, Ordered, ConstsUnique, SlotsHold, AllShares, AllInitialMasks, LastUse, Persists;
      w, wid := wid, wid + 1;
      ghost var phys0, wires0, masks0 := s.phys, s.wireSlot, s.maskInput;
      var slot := AllocSlot(w);
      assert s.phys[..wid][w] == slot && s.phys[..w] == phys0[..w];
      TakeStaysInRange(s.numInputs, plan, outs, w - s.numInputs);
      s.wireSlot := s.wireSlot[slot := share];
      s.maskInput := s.maskInput[slot := mask];
      InitialMasksStep(s.numInputs, plan, masks, w - s.numInputs);
      WriteHolds(wires0, s.wireSlot, phys0, s.phys, w, Shares());
      WriteHolds(masks0, s.maskInput, phys0, s.phys, w, AllInitialMasks(s.numInputs, plan, masks));
    }

    /** `wslot(i)`: an operand of the next gate still finds its share in its slot. */
    method ReadShare(i: nat) returns (x: Share)
      requires PlanOk() && s.numInputs <= wid < s.numInputs + |plan| && plan[wid - s.numInputs].Reads(i)
      requires SlotsAre(AllocAt(s.numInputs, plan, outs, wid - s.numInputs))
      ensures i < wid && x == Shares()[i]
    {
      hide AllocAt, AllShares, LastUse, Persists, FreelistOk, Retires, ConstsUnique, GateIndex;
      ghost var n, k := s.numInputs, wid - s.numInputs;
      AllocationIsSound(n, plan, outs, k);
      OperandIsCurrent(n, plan, outs, s.phys[..wid], s.numSlots, k, i);
      CurrentInPrefix(s.phys, i, wid);
      x := s.wireSlot[s.phys[i]];
    }

    /** Free the operands of the gate just placed that it reads last; `both` says it has a second, different operand. */
    method FreeOperands(i0: nat, i1: nat, both: bool)
      requires PlanOk() && s.numInputs < wid <= s.numInputs + |plan| && gi == GateIndex(plan, wid - s.numInputs - 1)
      requires var g := plan[wid - s.numInputs - 1];
        && !g.IsConst() && g.in0 == i0 && (g.op != NotOp ==> g.in1 == i1) && both == (g.op != NotOp && i1 != i0)
      requires SlotsAre(AllocAt(s.numInputs, plan, outs, wid - s.numInputs - 1).Take(Persists(s.numInputs, plan, outs, wid - 1)))
      modifies this`freelist
      ensures SlotsAre(AllocAt(s.numInputs, plan, outs, wid - s.numInputs))
    {
      hide SlotsAre, AllocAt, Allocators.FreeIfDead, GateIndex, Persists, LastUse;
      ghost var n, k := s.numInputs, wid - s.numInputs - 1;
      ghost var a := AllocAt(n, plan, outs, k).Take(Persists(n, plan, outs, n + k));
      AllocStep(n, plan, outs, k);
      assert plan[k].in0 < n + k && (both ==> plan[k].in1 < n + k);
      hide PlanOk, Ordered, ConstsUnique, Allocator.Take;
      FreeIfDead(i0, k, a);
      if both {
        FreeIfDead(i1, k, Allocators.FreeIfDead(n, plan, outs, k, a, i0));
      }
    }

    /** Place the output of the next AND, XOR or NOT, then free the operands it reads last. */
    method PlaceGate(share: Share, i0: nat, i1: nat, both: bool) returns (w: nat)
      requires PlanOk() && s.numInputs <= wid < s.numInputs + |plan| && gi == GateIndex(plan, wid - s.numInputs)
      requires var g := plan[wid - s.numInputs];
        && !g.IsConst() && g.in0 == i0 && (g.op != NotOp ==> g.in1 == i1) && both == (g.op != NotOp && i1 != i0)
      requires SlotsAre(AllocAt(s.numInputs, plan, outs, wid - s.numInputs)) && share == Shares()[wid]
      modifies this`wid, this`freelist, s`phys, s`numSlots, s`wireSlot, s`maskInput
      ensures w == old(wid) && wid == w + 1 && SlotsAre(AllocAt(s.numInputs, plan, outs, wid - s.numInputs))
    {
      hide SlotsAre, AllocAt, GateIndex, Shares, Canonical, Persists, LastUse, Allocator.Take;
      w := Place(share, false);
      FreeOperands(i0, i1, both);
    }

    /** Record the operand shares of the AND at gate `k`. */
    method PushOperands(a: Share, b: Share, ghost k: nat)
      requires RepsOk(k) && k < |plan| && plan[k].op == AndOp && a == Shares()[plan[k].in0] && b == Shares()[plan[k].in1]
      modifies s`repA, s`repB
      ensures RepsOk(k + 1)
    {
      hide Shares;
      s.repA, s.repB := s.repA + [a], s.repB + [b];
    }

    method PublicBit(v: bool) returns (w: nat)
      requires Valid()
      requires var c, op := if v then c1 else c0, if v then Const1 else Const0;
        c >= 0 || (wid < s.numInputs + |plan| && plan[wid - s.numInputs] == Gate(0, 0, wid, op))
      modifies this, s`phys, s`numSlots, s`wireSlot, s`maskInput
      ensures Valid()
      ensures var c := if v then old(c1) else old(c0);
        if c >= 0 then w == c && wid == old(wid) && c0 == old(c0) && c1 == old(c1)
        else w == old(wid) && wid == w + 1 && c0 == (if v then old(c0) else w) && c1 == (if v then w else old(c1))
    {
      hide SlotsAre, DrawsOk, Cached, PlanOk, AllocAt, GateIndex, AndsBefore, OperandShares, Shares, Canonical;
      ghost var n, k := s.numInputs, wid - s.numInputs;
      var c := if v then c1 else c0;
      if c >= 0 {
        return c;
      }
      StepFacts(k);
      w := Place(NO_SHARE, v);
      CachedAnew(n, plan, k, if v then Const1 else Const0);
      if v {
        CachedGoesOn(n, plan, k, c0, Const0);
        c1 := w;
      } else {
        CachedGoesOn(n, plan, k, c1, Const1);
        c0 := w;
      }
    }

    /** Collect the operand shares of the next AND and draw the share of its output mask. */
    method CollectAnd(i0: nat, i1: nat) returns (lam: Share)
      requires PlanOk() && s.numInputs <= wid < s.numInputs + |plan| && plan[wid - s.numInputs] == Gate(i0, i1, wid, AndOp)
      requires SlotsAre(AllocAt(s.numInputs, plan, outs, wid - s.numInputs)) && RepsOk(wid - s.numInputs) && DrawsOk(ai)
      modifies this`lgBuf, this`lgOff, s`repA, s`repB, fpre`drawn, fpre`mintedSinceCheck
      ensures lam == lg(ai) && RepsOk(wid - s.numInputs + 1) && DrawsOk(ai + 1)
    {
      hide RepsOk, SlotsAre, DrawsOk, AllocAt, Shares, LastUse, Persists;
      var a := ReadShare(i0);
      var b := ReadShare(i1);
      PushOperands(a, b, wid - s.numInputs);
      lam := NextLambdaGamma(ai);
    }

    method AndGate(i0: nat, i1: nat) returns (w: nat)
      requires Valid() && wid < s.numInputs + |plan| && plan[wid - s.numInputs] == Gate(i0, i1, wid, AndOp)
      modifies this, s`phys, s`numSlots, s`wireSlot, s`maskInput, s`repA, s`repB, fpre`drawn, fpre`mintedSinceCheck
      ensures Valid() && w == old(wid) && wid == w + 1 && c0 == old(c0) && c1 == old(c1)
    {
      hide RepsOk, SlotsAre, DrawsOk, Cached, PlanOk, AllocAt, GateIndex, AndsBefore, OperandShares, Shares, Canonical;
      ghost var n, k := s.numInputs, wid - s.numInputs;
      StepFacts(k);
      var lam := CollectAnd(i0, i1);
      w := PlaceGate(lam, i0, i1, i1 != i0);
      CachedGoesOn(n, plan, k, c0, Const0);
      CachedGoesOn(n, plan, k, c1, Const1);
      gi, ai := gi + 1, ai + 1;
    }

    method XorGate(i0: nat, i1: nat) returns (w: nat)
      requires Valid() && wid < s.numInputs + |plan| && plan[wid - s.numInputs] == Gate(i0, i1, wid, XorOp)
      modifies this, s`phys, s`numSlots, s`wireSlot, s`maskInput
      ensures Valid() && w == old(wid) && wid == w + 1 && c0 == old(c0) && c1 == old(c1)
    {
      hide SlotsAre, DrawsOk, Cached, PlanOk, AllocAt, GateIndex, AndsBefore, OperandShares, Shares, Canonical;
      ghost var n, k := s.numInputs, wid - s.numInputs;
      StepFacts(k);
      var a := ReadShare(i0);
      var b := ReadShare(i1);
      w := PlaceGate(XorShare(a, b), i0, i1, i1 != i0);
      CachedGoesOn(n, plan, k, c0, Const0);
      CachedGoesOn(n, plan, k, c1, Const1);
      gi := gi + 1;
    }

    method NotGate(i: nat) returns (w: nat)
      requires Valid() && wid < s.numInputs + |plan| && plan[wid - s.numInputs] == Gate(i, 0, wid, NotOp)
      modifies this, s`phys, s`numSlots, s`wireSlot, s`maskInput
      ensures Valid() && w == old(wid) && wid == w + 1 && c0 == old(c0) && c1 == old(c1)
    {
      hide SlotsAre, DrawsOk, Cached, PlanOk, AllocAt, GateIndex, AndsBefore, OperandShares, Shares, Canonical;
      ghost var n, k := s.numInputs, wid - s.numInputs;
      StepFacts(k);
      var a := ReadShare(i);
      w := PlaceGate(a, i, 0, false);
      CachedGoesOn(n, plan, k, c0, Const0);
      CachedGoesOn(n, plan, k, c1, Const1);
      gi := gi + 1;
    }

    /** The pass's numbering and caches are those of the recording `r`. */
    ghost predicate At(r: Recording)
      reads `wid, `c0, `c1
    {
      wid == s.numInputs + |r.gates| && c0 == r.c0 && c1 == r.c1
    }

    /** Dispatch one call of a body over the scratch map from values to wires. */
    method Apply(g: Gate, scratch: seq<nat>, ghost r: Recording) returns (w: nat)
      requires Valid() && At(r) && r.ids == scratch && RecordingOk(s.numInputs, r)
      requires !g.IsConst() ==> g.in0 < |scratch| && (g.op != NotOp ==> g.in1 < |scratch|)
      requires r.Step(s.numInputs, g).gates <= plan
      modifies this, s`phys, s`numSlots, s`wireSlot, s`maskInput, s`repA, s`repB, fpre`drawn, fpre`mintedSinceCheck
      ensures Valid() && At(r.Step(s.numInputs, g)) && r.Step(s.numInputs, g).ids == scratch + [w]
    {
      hide Valid, RecordingOk;
      assert |r.Step(s.numInputs, g).gates| > |r.gates| ==> plan[|r.gates|] == r.Step(s.numInputs, g).gates[|r.gates|];
      match g.op {
        case Const0 => w := PublicBit(false);
        case Const1 => w := PublicBit(true);
        case AndOp => w := AndGate(scratch[g.in0], scratch[g.in1]);
        case XorOp => w := XorGate(scratch[g.in0], scratch[g.in1]);
        case NotOp => w := NotGate(scratch[g.in0]);
      }
    }

    /** Drive the pass over a body that records to the planned stream. */
    method Run(calls: seq<Gate>)
      requires Valid() && Ordered(s.numInputs, calls) && plan == Stream(s.numInputs, calls)
      requires wid == s.numInputs && c0 == c1 == -1
      modifies this, s`phys, s`numSlots, s`wireSlot, s`maskInput, s`repA, s`repB, fpre`drawn, fpre`mintedSinceCheck
      ensures Valid() && wid == s.numInputs + |plan|
    {
      hide Valid, RecordingOk;
      var scratch := seq(s.numInputs, i => i);
      for k := 0 to |calls|
        invariant Valid() && At(Record(s.numInputs, calls, k)) && scratch == Record(s.numInputs, calls, k).ids
      {
        NextCall(s.numInputs, calls, k);
        var w := Apply(calls[k], scratch, Record(s.numInputs, calls, k));
        scratch := scratch + [w];
      }
    }

    /** Commit final per-run storage sizes. */
    method CommitSizes()
      requires Valid() && wid == s.numInputs + |plan|
      requires |s.labelSlot| <= s.numSlots && |s.evalSlot| <= s.numSlots
      modifies s`numAnds, s`sigma, s`labelSlot, s`evalSlot
      ensures Valid() && s.numAnds == old(s.numAnds)
      ensures s.party == 1 ==> |s.labelSlot| == s.numSlots && old(s.labelSlot) <= s.labelSlot && s.evalSlot == old(s.evalSlot)
      ensures s.party != 1 ==> |s.evalSlot| == s.numSlots && old(s.evalSlot) <= s.evalSlot && s.labelSlot == old(s.labelSlot)
    {
      hide SlotsAre, RepsOk, DrawsOk, Cached, Canonical, CountersOk, LastUse, AllocAt, GateIndex, AndsBefore, Persists;
      AllAndsSeen();
      s.numAnds := ai;
      s.sigma := seq(if ai < 1 then 1 else ai, _ => NO_SHARE);
      if s.party == 1 {
        s.labelSlot := s.labelSlot + seq(s.numSlots - |s.labelSlot|, _ => ZERO);
      } else {
        s.evalSlot := s.evalSlot + seq(s.numSlots - |s.evalSlot|, _ => ZERO);
      }
    }

    /** The pass and liveness count the same ANDs, and every input owns a slot. */
    lemma AllAndsSeen()
      requires Valid() && wid == s.numInputs + |plan|
      ensures s.numAnds == ai
    {
      hide SlotsAre, RepsOk, DrawsOk, Cached, Canonical, LastUse, AllocAt, GateIndex, Persists;
    }

    /** What the finished pass leaves behind. */
    lemma Finished()
      requires Valid() && wid == s.numInputs + |plan|
      ensures |s.phys| == s.numInputs + |plan| && Allocated(s.numInputs, plan, outs, s.phys, s.numSlots)
      ensures s.numInputs <= s.numSlots == |s.wireSlot| == |s.maskInput|
      ensures SlotsHold(s.wireSlot, s.phys, s.numInputs + |plan|, Shares())
      ensures SlotsHold(s.maskInput, s.phys, s.numInputs + |plan|, AllInitialMasks(s.numInputs, plan, masks))
      ensures RepsOk(|plan|) && s.LivenessDone(plan, outs)
      ensures Ordered(s.numInputs, plan) && s.phys == AllocAt(s.numInputs, plan, outs, |plan|).phys
      ensures s.numSlots == s.numInputs + |Permanent(s.numInputs, plan, outs, |plan|)| + Peak(s.numInputs, plan, outs, |plan|)
      ensures fpre.drawn == drawn0 + DrawnFor(NumAnds(plan)) && forall i: nat :: lg(i) == fpre.cot(drawn0 + i)
    {
      hide Cached, OperandShares, AllInitialMasks, AllShares, SlotsHold, GateIndex, LastUse, Persists, AllocAt, Allocated;
      var n := s.numInputs;
      AllocationIsSound(n, plan, outs, |plan|);
      FootprintIsExact(n, plan, outs, |plan|);
      assert s.phys[..wid] == s.phys;
      DrawnIs(ai, lgOff, |lgBuf|);
    }

    /** What gate `k` does to everything the pass keeps track of. */
    lemma {:induction false} StepFacts(k: nat)
      requires PlanOk() && k < |plan|
      ensures Ordered(s.numInputs, plan)
      ensures var sh, g, n := Shares(), plan[k], s.numInputs;
        && g.out == n + k && (!g.IsConst() ==> g.in0 < n + k && (g.op != NotOp ==> g.in1 < n + k))
        && (g.IsConst() ==> sh[n + k] == NO_SHARE)
        && (g.op == AndOp ==> sh[n + k] == lg(AndsBefore(plan, k)))
        && (g.op == XorOp ==> sh[n + k] == XorShare(sh[g.in0], sh[g.in1]))
        && (g.op == NotOp ==> sh[n + k] == sh[g.in0])
        && (g.IsConst() ==> AllocAt(n, plan, outs, k + 1) == AllocAt(n, plan, outs, k).Take(Persists(n, plan, outs, n + k)))
        && GateIndex(plan, k + 1) == GateIndex(plan, k) + (if g.IsConst() then 0 else 1)
        && AndsBefore(plan, k + 1) == AndsBefore(plan, k) + (if g.op == AndOp then 1 else 0)
        && OperandShares(plan, sh, n, false, k + 1)
             == OperandShares(plan, sh, n, false, k) + (if g.op == AndOp then [sh[g.in0]] else [])
        && OperandShares(plan, sh, n, true, k + 1)
             == OperandShares(plan, sh, n, true, k) + (if g.op == AndOp then [sh[g.in1]] else [])
    {
      hide AllShares, LastUse, Persists, Allocator.Take;
      SharesStep(s.numInputs, plan, ins, lg, k);
    }
  }

  lemma TakeStaysInRange(n: nat, gs: seq<Gate>, outs: seq<nat>, k: nat)
    requires Ordered(n, gs) && k < |gs|
    ensures var a := AllocAt(n, gs, outs, k);
            var t := a.Take(Persists(n, gs, outs, n + k));
            a.numSlots <= t.numSlots && 0 <= t.phys[n + k] < t.numSlots
  {
    AllocationIsSound(n, gs, outs, k);
    TakeIsSound(n, gs, outs, k, AllocAt(n, gs, outs, k));
  }
}
