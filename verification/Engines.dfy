/** The engine: one circuit through all passes at both parties (engine.h). */
module Engines {
  import opened Blocks
  import opened Shares
  import opened Circuits
  import opened Recordings
  import opened Cells
  import opened AndFreeRuns
  import opened HalfGates
  import opened MaskOffsets
  import opened GammaChecks
  import opened RunStates
  import opened Allocators
  import opened BucketSizes
  import opened Buckets
  import opened TriplePools
  import opened Framing
  import opened LivenessPasses
  import opened SlotMaskPasses
  import opened GarblePasses
  import opened EvaluatePasses
  import opened GammaCheckPasses
  import opened SecureWireBundles

  /** The wire ids of the values `outs` of a body. */
  function OutIds(n: nat, calls: seq<Gate>, outs: seq<nat>): (ids: seq<nat>)
    requires Ordered(n, calls) && forall i | 0 <= i < |outs| :: outs[i] < n + |calls|
    ensures |ids| == |outs|
  {
    seq(|outs|, i requires 0 <= i < |outs| => Record(n, calls, |calls|).ids[outs[i]])
  }

  ghost predicate Body(n: nat, calls: seq<Gate>, outs: seq<nat>) {
    Ordered(n, calls) && forall i | 0 <= i < |outs| :: outs[i] < n + |calls|
  }

  lemma {:induction false} OutIdsInRange(n: nat, calls: seq<Gate>, outs: seq<nat>)
    requires Body(n, calls, outs)
    ensures Canonical(n, Stream(n, calls))
    ensures forall i | 0 <= i < |outs| :: OutIds(n, calls, outs)[i] < n + |Stream(n, calls)|
  {
    hide Record;
    RecordIsCanonical(n, calls, |calls|);
    IdsInRange(n, Record(n, calls, |calls|));
  }

  /** What a party's run state is after liveness, input load and the slot/mask pass over the stream `gs`. */
  ghost predicate Prepared(st: RunState, win: SecureWires, gs: seq<Gate>, ids: seq<nat>, lg: nat -> Share)
    reads st
  {
    && Canonical(st.numInputs, gs) && |win.bundle| == |win.masks| == st.numInputs
    && st.LivenessDone(gs, ids)
    && |st.phys| == st.numInputs + |gs| && Allocated(st.numInputs, gs, ids, st.phys, st.numSlots)
    && st.numInputs <= st.numSlots == |st.wireSlot| == |st.maskInput|
    && SlotsHold(st.wireSlot, st.phys, st.numInputs + |gs|, AllShares(st.numInputs, gs, win.bundle, lg))
    && SlotsHold(st.maskInput, st.phys, st.numInputs + |gs|, AllInitialMasks(st.numInputs, gs, win.masks))
    && st.repA == OperandShares(gs, AllShares(st.numInputs, gs, win.bundle, lg), st.numInputs, false, |gs|)
    && st.repB == OperandShares(gs, AllShares(st.numInputs, gs, win.bundle, lg), st.numInputs, true, |gs|)
    && (if st.party == 1
        then |st.labelSlot| == st.numSlots && st.labelSlot[..st.numInputs] == win.label0
        else |st.evalSlot| == st.numSlots && st.evalSlot[..st.numInputs] == win.evalLabel)
  }

  /** Pass 0. */
  method RunLiveness(pool: TriplePool, n: nat, calls: seq<Gate>, outs: seq<nat>) returns (st: RunState, ids: seq<nat>)
    requires Body(n, calls, outs)
    ensures fresh(st) && st.party == pool.party && st.delta == pool.delta && st.numInputs == n
    ensures ids == OutIds(n, calls, outs) && Canonical(n, Stream(n, calls)) && st.LivenessDone(Stream(n, calls), ids)
  {
    hide Record, Canonical, LastUse, Persists;
    st := new RunState(pool.party, pool.delta, n);
    var lp := new LivenessPass(st);
    var scratch := lp.Run(calls);
    ids := seq(|outs|, i requires 0 <= i < |outs| => scratch[outs[i]]);
    OutIdsInRange(n, calls, outs);
    assert ids == OutIds(n, calls, outs);
    lp.Commit(ids);
  }

  /** Inputs occupy slots `0 .. n`. */
  method LoadInputs(st: RunState, win: SecureWires)
    requires win.WellShaped(st.party) && st.numInputs == |win.masks| <= st.numWires
    modifies st`phys, st`numSlots, st`wireSlot, st`maskInput, st`labelSlot, st`evalSlot
    ensures st.numSlots == st.numInputs && |st.phys| == st.numWires
    ensures forall w | 0 <= w < st.numInputs :: st.phys[w] == w
    ensures st.wireSlot == win.bundle && st.maskInput == win.masks
    ensures st.labelSlot == (if st.party == 1 then win.label0 else [])
    ensures st.evalSlot == (if st.party == 1 then [] else win.evalLabel)
  {
    var n := st.numInputs;
    st.phys := seq(st.numWires, w => if w < n then w else -1);
    st.numSlots := n;
    st.wireSlot, st.maskInput := win.bundle, win.masks;
    st.labelSlot := if st.party == 1 then win.label0 else [];
    st.evalSlot := if st.party == 1 then [] else win.evalLabel;
  }

  /** Pass 1. */
  method RunSlotMask(st: RunState, pool: TriplePool, win: SecureWires, calls: seq<Gate>, ghost ids: seq<nat>)
    returns (ghost lg: nat -> Share)
    requires Ordered(st.numInputs, calls) && Canonical(st.numInputs, Stream(st.numInputs, calls))
    requires win.WellShaped(st.party) && st.numInputs == |win.masks|
    requires st.LivenessDone(Stream(st.numInputs, calls), ids)
    requires st.numSlots == st.numInputs && |st.phys| == st.numWires
    requires forall w | 0 <= w < st.numInputs :: st.phys[w] == w
    requires st.wireSlot == win.bundle && st.maskInput == win.masks
    requires st.labelSlot == (if st.party == 1 then win.label0 else [])
    requires st.evalSlot == (if st.party == 1 then [] else win.evalLabel)
    modifies st, pool`drawn, pool`mintedSinceCheck
    ensures Prepared(st, win, Stream(st.numInputs, calls), ids, lg)
    ensures lg == FreshMasks(pool.cot, old(pool.drawn))
    ensures pool.drawn == old(pool.drawn) + DrawnFor(NumAnds(Stream(st.numInputs, calls)))
    ensures Footprint(st, Stream(st.numInputs, calls), ids)
  {
    hide LastUse, Persists, Record, AllShares, AllInitialMasks, OperandShares, Ordered, ConstsUnique, SlotsHold, AllocAt;
    hide Allocated, SlotMaskPass.Valid, Prepared, Footprint, Permanent, Peak, FreshMasks, AndsBefore;
    var sp := new SlotMaskPass(st, pool, Stream(st.numInputs, calls), ids);
    sp.Run(calls);
    lg := sp.lg;
    sp.Finished();
    sp.CommitSizes();
    sp.Finished();
    PreparedFromPass(sp, win);
  }

  lemma PreparedFromPass(sp: SlotMaskPass, win: SecureWires)
    requires sp.Valid() && sp.wid == sp.s.numInputs + |sp.plan| && sp.ins == win.bundle && sp.masks == win.masks
    requires |win.bundle| == |win.masks| == sp.s.numInputs && Canonical(sp.s.numInputs, sp.plan)
    requires if sp.s.party == 1
             then |sp.s.labelSlot| == sp.s.numSlots && win.label0 <= sp.s.labelSlot && |win.label0| == sp.s.numInputs
             else |sp.s.evalSlot| == sp.s.numSlots && win.evalLabel <= sp.s.evalSlot && |win.evalLabel| == sp.s.numInputs
    ensures Prepared(sp.s, win, sp.plan, sp.outs, sp.lg) && Footprint(sp.s, sp.plan, sp.outs)
  {
    hide LastUse, Persists, AllShares, AllInitialMasks, OperandShares, Ordered, ConstsUnique, SlotsHold, AllocAt;
    hide Allocated, SlotMaskPass.Valid, Permanent, Peak, AndsBefore;
    sp.Finished();
  }

  /** The slot map is the allocator's, and the slot count is exactly the inputs, the permanent outputs, and the peak of
      recyclable wires held at once. */
  ghost predicate Footprint(st: RunState, gs: seq<Gate>, ids: seq<nat>)
    reads st`numSlots, st`phys
  {
    && Ordered(st.numInputs, gs) && st.phys == AllocAt(st.numInputs, gs, ids, |gs|).phys
    && st.numSlots == st.numInputs + |Permanent(st.numInputs, gs, ids, |gs|)| + Peak(st.numInputs, gs, ids, |gs|)
  }

  /** Liveness, input load, and slot assignment with mask collection: the part both parties do alike. */
  method Prepare(pool: TriplePool, win: SecureWires, calls: seq<Gate>, outs: seq<nat>)
    returns (st: RunState, ids: seq<nat>, ghost lg: nat -> Share)
    requires win.WellShaped(pool.party) && Body(|win.masks|, calls, outs)
    modifies pool`drawn, pool`mintedSinceCheck
    ensures fresh(st) && st.party == pool.party && st.delta == pool.delta && st.numInputs == |win.masks|
    ensures ids == OutIds(|win.masks|, calls, outs)
    ensures Prepared(st, win, Stream(|win.masks|, calls), ids, lg)
    ensures lg == FreshMasks(pool.cot, old(pool.drawn))
    ensures pool.drawn == old(pool.drawn) + DrawnFor(NumAnds(Stream(|win.masks|, calls)))
    ensures Footprint(st, Stream(|win.masks|, calls), ids)
  {
    hide Canonical, Prepared, Footprint, Stream, OutIds;
    st, ids := RunLiveness(pool, |win.masks|, calls, outs);
    LoadInputs(st, win);
    lg := RunSlotMask(st, pool, win, calls, ids);
  }

  /** Input slots are the first `n`, so a slot array that starts with the inputs' state holds it. */
  lemma InputsHold<T>(n: nat, gs: seq<Gate>, ids: seq<nat>, slots: seq<T>, phys: seq<int>, numSlots: nat, ins: seq<T>, vals: seq<T>)
    requires Allocated(n, gs, ids, phys, numSlots) && |phys| == n + |gs| == |vals| && n <= |slots|
    requires slots[..n] == ins && |ins| == n && forall w | 0 <= w < n :: vals[w] == ins[w]
    ensures SlotsHold(slots, phys, n, vals)
  {
    forall w | 0 <= w < n
      ensures slots[phys[w]] == vals[w]
    {
      assert slots[..n][w] == slots[w];
    }
  }

  /** A run over a body's stream from an input bundle, as the garbler's reference sees it. */
  ghost function GarblerOf(n: nat, gs: seq<Gate>, win: SecureWires, lg: nat -> Share, sigma: seq<Share>, d: Block, h: TweakedHash): Garbler {
    Garbler(n, gs, win.bundle, win.label0, lg, sigma, d, h)
  }

  /** The garbler's pass, ready to run. */
  method StartGarbler(st: RunState, win: SecureWires, calls: seq<Gate>, ghost ids: seq<nat>, ghost lg: nat -> Share,
                      sigma: seq<Share>, h: TweakedHash, ghost g: Garbler)
    returns (gp: GarblePass)
    requires Ordered(st.numInputs, calls) && Prepared(st, win, Stream(st.numInputs, calls), ids, lg) && st.party == 1
    requires win.WellShaped(1) && |sigma| == NumAnds(Stream(st.numInputs, calls))
    requires g == GarblerOf(st.numInputs, Stream(st.numInputs, calls), win, lg, sigma, st.delta, h)
    modifies st`sigma, st`h, st`tweak
    ensures st.sigma == sigma && g.Ok() && fresh(gp) && gp.s == st && gp.ref == g
    ensures gp.Valid() && gp.wid == g.n && gp.c0 == gp.c1 == -1
  {
    hide Ordered, ConstsUnique, AllShares, AllInitialMasks, OperandShares, LastUse, Persists, Record, Garbler.Entries;
    hide SlotsHold;
    hide Allocated, Framed, GarblePass.Valid, Garbler.AllLabels;
    st.sigma := sigma;
    st.SetS(h);
    SharesRestart(g.n, g.gs, ids, st.wireSlot, st.phys, st.numSlots, AllShares(g.n, g.gs, win.bundle, lg));
    InputLabels(g);
    InputsHold(g.n, g.gs, ids, st.labelSlot, st.phys, st.numSlots, win.label0, g.AllLabels());
    gp := new GarblePass(st, ids, g);
  }

  /** The garbler's phase: ship every AND. */
  method GarblerPhase(st: RunState, win: SecureWires, calls: seq<Gate>, ghost ids: seq<nat>, ghost lg: nat -> Share,
                      sigma: seq<Share>, h: TweakedHash, ghost g: Garbler)
    returns (items: seq<Item>)
    requires Ordered(st.numInputs, calls) && Prepared(st, win, Stream(st.numInputs, calls), ids, lg) && st.party == 1
    requires win.WellShaped(1) && |sigma| == NumAnds(Stream(st.numInputs, calls))
    requires g == GarblerOf(st.numInputs, Stream(st.numInputs, calls), win, lg, sigma, st.delta, h)
    modifies st`sigma, st`h, st`tweak, st`wireSlot, st`labelSlot, st`m1t, st`lambdaAnd
    ensures GarblerDone(st, win, ids, g) && items == Framed(g.Entries(|g.gs|))
  {
    hide GarblePass.Valid, GarblePass.StreamIs, Record, Garbler.Entries, Garbler.AllLabels, SlotsHold, Framed, Allocated;
    hide AllShares, AllInitialMasks, OperandShares, LastUse, Persists, Ordered, ConstsUnique;
    WitnessBuffers(st);
    var gp := StartGarbler(st, win, calls, ids, lg, sigma, h, g);
    gp.Run(calls);
    gp.Finished();
    gp.End(g.Entries(|g.gs|), Capacity(NumAnds(g.gs)));
    items := gp.sent;
  }

  lemma InputLabels(g: Garbler)
    requires g.Ok()
    ensures forall w | 0 <= w < g.n :: g.AllLabels()[w] == g.labels[w]
  {
  }

  /** The evaluator's pass, ready to run. */
  method StartEvaluator(st: RunState, win: SecureWires, calls: seq<Gate>, ghost ids: seq<nat>, ghost lg: nat -> Share,
                        sigma: seq<Share>, h: TweakedHash, items: seq<Item>, ghost e: Evaluator)
    returns (ep: EvaluatePass)
    requires Ordered(st.numInputs, calls) && Prepared(st, win, Stream(st.numInputs, calls), ids, lg) && st.party != 1
    requires win.WellShaped(2) && |sigma| == NumAnds(Stream(st.numInputs, calls)) == |e.stream| && items == Framed(e.stream)
    requires e == Evaluator(st.numInputs, Stream(st.numInputs, calls), win.bundle, win.evalLabel, win.masks, lg, sigma,
                            st.delta, h, e.stream)
    requires |st.lambdaAnd| >= st.numAnds && |st.m1t| >= st.numAnds
    modifies st`sigma, st`h, st`tweak
    ensures e.Ok() && fresh(ep) && ep.s == st && ep.ref == e
    ensures ep.Valid() && ep.wid == e.n && ep.c0 == ep.c1 == -1
  {
    hide Ordered, ConstsUnique, AllShares, AllInitialMasks, OperandShares, LastUse, Persists, Record, SlotsHold;
    hide Allocated, Framed, EvaluatePass.Valid, Evaluator.AllLabels, Evaluator.AllMasks;
    st.sigma := sigma;
    st.SetS(h);
    SharesRestart(e.n, e.gs, ids, st.wireSlot, st.phys, st.numSlots, AllShares(e.n, e.gs, win.bundle, lg));
    InputCells(e);
    InputsHold(e.n, e.gs, ids, st.evalSlot, st.phys, st.numSlots, win.evalLabel, e.AllLabels());
    MasksRestart(e.n, e.gs, ids, st.maskInput, st.phys, st.numSlots, win.masks, e.AllMasks());
    ep := new EvaluatePass(st, items, ids, e);
  }

  /** The evaluator's phase over whatever stream arrived. */
  method EvaluatorPhase(st: RunState, win: SecureWires, calls: seq<Gate>, ghost ids: seq<nat>, ghost lg: nat -> Share,
                        sigma: seq<Share>, h: TweakedHash, items: seq<Item>, ghost e: Evaluator)
    requires Ordered(st.numInputs, calls) && Prepared(st, win, Stream(st.numInputs, calls), ids, lg) && st.party != 1
    requires win.WellShaped(2) && |sigma| == NumAnds(Stream(st.numInputs, calls)) == |e.stream| && items == Framed(e.stream)
    requires e == Evaluator(st.numInputs, Stream(st.numInputs, calls), win.bundle, win.evalLabel, win.masks, lg, sigma,
                            st.delta, h, e.stream)
    modifies st`sigma, st`h, st`tweak, st`wireSlot, st`evalSlot, st`maskInput, st`lambdaAnd, st`m1t
    ensures EvaluatorDone(st, ids, e)
  {
    hide EvaluatePass.Valid, Record, Evaluator.AllLabels, Evaluator.AllMasks, SlotsHold, Framed, Allocated;
    hide AllShares, AllInitialMasks, OperandShares, LastUse, Persists, Ordered, ConstsUnique;
    WitnessBuffers(st);
    var ep := StartEvaluator(st, win, calls, ids, lg, sigma, h, items, e);
    ep.Run(calls);
    ep.Finished();
  }

  lemma InputCells(e: Evaluator)
    requires e.Ok()
    ensures forall w | 0 <= w < e.n :: e.AllLabels()[w] == e.labels[w] && e.AllMasks()[w] == e.masks[w]
  {
  }

  /** Input masks survive the slot/mask pass. */
  lemma MasksRestart(n: nat, gs: seq<Gate>, ids: seq<nat>, slots: seq<bool>, phys: seq<int>, numSlots: nat, ins: seq<bool>, vals: seq<bool>)
    requires Allocated(n, gs, ids, phys, numSlots) && |phys| == n + |gs| == |vals| && |ins| == n
    requires SlotsHold(slots, phys, n + |gs|, AllInitialMasks(n, gs, ins)) && forall w | 0 <= w < n :: vals[w] == ins[w]
    ensures SlotsHold(slots, phys, n, vals)
  {
    forall w | 0 <= w < n
      ensures 0 <= phys[w] < |slots| && slots[phys[w]] == vals[w]
    {
      PersistentIsAlone(n, gs, ids, phys, numSlots, w);
      assert Current(phys, w, n + |gs|);
    }
  }

  /** The garbler's half of the c_gamma check, from the AND masks it received. */
  method CheckPhase(st: RunState, win: SecureWires, calls: seq<Gate>, ghost ids: seq<nat>, ghost lg: nat -> Share,
                    received: seq<bool>, ghost c: Checker)
    requires Ordered(st.numInputs, calls) && Canonical(st.numInputs, Stream(st.numInputs, calls))
    requires win.WellShaped(1) && |win.masks| == st.numInputs && st.numAnds == NumAnds(c.gs) == |st.sigma| == |received|
    requires c == Checker(st.numInputs, Stream(st.numInputs, calls), win.bundle, win.masks, lg, st.sigma, received)
    requires |st.phys| == c.n + |c.gs| && Allocated(c.n, c.gs, ids, st.phys, st.numSlots)
    requires |st.wireSlot| == |st.maskInput| == st.numSlots && |st.m1t| >= st.numAnds
    requires SlotsHold(st.wireSlot, st.phys, c.n + |c.gs|, AllShares(c.n, c.gs, win.bundle, lg))
    requires SlotsHold(st.maskInput, st.phys, c.n + |c.gs|, AllInitialMasks(c.n, c.gs, win.masks))
    modifies st`lambdaAnd, st`wireSlot, st`maskInput, st`m1t
    ensures c.Ok()
    ensures |st.wireSlot| == |st.maskInput| == st.numSlots
    ensures SlotsHold(st.wireSlot, st.phys, c.n + |c.gs|, AllShares(c.n, c.gs, win.bundle, lg))
    ensures SlotsHold(st.maskInput, st.phys, c.n + |c.gs|, c.AllMasks())
    ensures c.Witnesses(|c.gs|) <= st.m1t
  {
    hide Ordered, ConstsUnique, AllShares, AllInitialMasks, LastUse, Persists, Record, SlotsHold, Allocated;
    hide GammaCheckPass.Valid, Checker.AllMasks;
    st.lambdaAnd := received;
    SharesRestart(c.n, c.gs, ids, st.wireSlot, st.phys, st.numSlots, AllShares(c.n, c.gs, win.bundle, lg));
    CheckerInputs(c);
    MasksRestart(c.n, c.gs, ids, st.maskInput, st.phys, st.numSlots, win.masks, c.AllMasks());
    var pp := new GammaCheckPass(st, ids, c);
    pp.Run(calls);
    pp.Finished();
  }

  lemma CheckerInputs(c: Checker)
    requires c.Ok()
    ensures forall w | 0 <= w < c.n :: c.AllMasks()[w] == c.masks[w]
  {
  }

  /** Gather one slot array at the output wires, which own their slots to the end. */
  method GatherSlots<T>(slots: seq<T>, phys: seq<int>, ids: seq<nat>, ghost n: nat, ghost gs: seq<Gate>, ghost numSlots: nat,
                        ghost vals: seq<T>)
    returns (out: seq<T>)
    requires Allocated(n, gs, ids, phys, numSlots) && |phys| == n + |gs| == |vals|
    requires SlotsHold(slots, phys, n + |gs|, vals) && forall i | 0 <= i < |ids| :: ids[i] < n + |gs|
    ensures |out| == |ids| && forall i | 0 <= i < |ids| :: out[i] == vals[ids[i]]
  {
    hide LastUse;
    out := [];
    for i := 0 to |ids|
      invariant |out| == i && forall j | 0 <= j < i :: out[j] == vals[ids[j]]
    {
      assert Persists(n, gs, ids, ids[i]);
      PersistentIsAlone(n, gs, ids, phys, numSlots, ids[i]);
      assert Current(phys, ids[i], n + |gs|);
      out := out + [slots[phys[ids[i]]]];
    }
  }

  /** The plaintext values of a body's outputs. */
  function Outputs(n: nat, calls: seq<Gate>, x: seq<bool>, outs: seq<nat>): (y: seq<bool>)
    requires Body(n, calls, outs) && |x| == n
    ensures |y| == |outs|
  {
    seq(|outs|, i requires 0 <= i < |outs| => Plain(n, calls, x, outs[i]))
  }

  /** Recording a recording: the recording of a body, replayed, is the stream the body itself emits, with the same output
      wires. */
  lemma RecordingReplaysItself(n: nat, calls: seq<Gate>, outs: seq<nat>)
    requires Body(n, calls, outs)
    ensures var gs, ids := Stream(n, calls), OutIds(n, calls, outs);
      && Body(n, gs, ids) && Canonical(n, gs)
      && Stream(n, gs) == gs
      && OutIds(n, gs, ids) == ids
  {
    hide Record;
    OutIdsInRange(n, calls, outs);
    RecordingIsIdempotent(n, calls);
    CanonicalReplaysAsItself(n, Stream(n, calls), |Stream(n, calls)|);
  }

  /** `p` is the recording of a body, up to the operands its operations ignore. */
  ghost predicate IsRecordingOf(p: Program, calls: seq<Gate>, outs: seq<nat>) {
    && Body(p.numInputs, calls, outs)
    && |p.gates| == |Stream(p.numInputs, calls)| && p.numWires == p.numInputs + |p.gates|
    && (forall j | 0 <= j < |p.gates| :: SameGate(Stream(p.numInputs, calls)[j], p.gates[j]))
    && p.outputs == OutIds(p.numInputs, calls, outs)
  }

  /** The stored programs that are accepted are exactly the recordings of bodies, whatever wires those output. */
  lemma AcceptedIffRecorded(p: Program)
    ensures CanonicalProgram(p) <==> exists calls, outs :: IsRecordingOf(p, calls, outs)
  {
    hide Record;
    var n := p.numInputs;
    if CanonicalProgram(p) {
      CanonicalReplaysAsItself(n, p.gates, |p.gates|);
      assert IsRecordingOf(p, p.gates, p.outputs);
    }
    if calls, outs :| IsRecordingOf(p, calls, outs) {
      OutIdsInRange(n, calls, outs);
      SameGatesCanonical(n, Stream(n, calls), p.gates);
    }
  }

  lemma SameGatesCanonical(n: nat, gs: seq<Gate>, p: seq<Gate>)
    requires Canonical(n, gs) && |p| == |gs| && forall j | 0 <= j < |p| :: SameGate(gs[j], p[j])
    ensures Canonical(n, p)
  {
  }

  /** Each sigma share hides the AND of the two operand shares recorded for its gate. */
  ghost predicate SigmasHide(g: Garbler, e: Evaluator)
    requires g.Ok() && e.Ok() && g.n == e.n && g.gs == e.gs
  {
    var sh1, sh2 := AllShares(g.n, g.gs, g.shares, g.lg), AllShares(e.n, e.gs, e.shares, e.lg);
    forall t | 0 <= t < NumAnds(g.gs) :: ProductAt(g.sigma[t], e.sigma[t],
      OperandShares(g.gs, sh1, g.n, false, |g.gs|)[t], OperandShares(g.gs, sh2, g.n, false, |g.gs|)[t],
      OperandShares(g.gs, sh1, g.n, true, |g.gs|)[t], OperandShares(g.gs, sh2, g.n, true, |g.gs|)[t])
  }

  ghost predicate ProductAt(s1: Share, s2: Share, a1: Share, a2: Share, b1: Share, b2: Share) {
    Hidden(s1, s2) == (Hidden(a1, a2) && Hidden(b1, b2))
  }

  /** The two parties' references for one run are joint. */
  lemma RunIsJoint(g: Garbler, e: Evaluator, in1: SecureWires, in2: SecureWires, x: seq<bool>)
    requires g.Ok() && e.Ok() && g.n == e.n && g.gs == e.gs && g.h == e.h && GoodDeltas(g.delta, e.delta)
    requires Encode(in1, in2, g.delta, e.delta, x) && |x| == g.n
    requires g.shares == in1.bundle && g.labels == in1.label0
    requires e.shares == in2.bundle && e.labels == in2.evalLabel && e.masks == in2.masks
    requires forall i: nat :: Paired(g.lg(i), e.lg(i), g.delta, e.delta)
    requires AllPaired(g.sigma, e.sigma, g.delta, e.delta)
    requires SigmasHide(g, e)
    ensures Joint(g, e) && Inputs(g, e) == x
  {
    hide Paired, Xor, Hidden, OperandShares, ShareOf;
    forall k | 0 <= k < |g.gs| && g.gs[k].op == AndOp
      ensures SigmaOk(g, e, k)
    {
      AndsBeforeMonotone(g.gs, k, |g.gs|);
      OperandShareAt(g.gs, AllShares(g.n, g.gs, g.shares, g.lg), g.n, false, k, |g.gs|);
      OperandShareAt(g.gs, AllShares(g.n, g.gs, g.shares, g.lg), g.n, true, k, |g.gs|);
      OperandShareAt(g.gs, AllShares(e.n, e.gs, e.shares, e.lg), g.n, false, k, |g.gs|);
      OperandShareAt(g.gs, AllShares(e.n, e.gs, e.shares, e.lg), g.n, true, k, |g.gs|);
    }
    forall w | 0 <= w < g.n
      ensures Paired(g.shares[w], e.shares[w], g.delta, e.delta) && e.labels[w] == Xor(g.labels[w], Sel(e.masks[w], g.delta))
      ensures Inputs(g, e)[w] == x[w]
    {
      assert WireOk(in1.bundle[w], in2.bundle[w], in1.label0[w], in2.evalLabel[w], in2.masks[w], g.delta, e.delta, x[w]);
    }
  }

  lemma {:induction false} OperandShareAt(gs: seq<Gate>, shares: seq<Share>, n: nat, second: bool, k: nat, upTo: nat)
    requires Ordered(n, gs) && |shares| == n + |gs| && k < upTo <= |gs| && gs[k].op == AndOp
    ensures AndsBefore(gs, k) < AndsBefore(gs, upTo)
    ensures OperandShares(gs, shares, n, second, upTo)[AndsBefore(gs, k)] == shares[if second then gs[k].in1 else gs[k].in0]
    decreases upTo
  {
    if k + 1 < upTo {
      OperandShareAt(gs, shares, n, second, k, upTo - 1);
    }
  }

  /** Operand shares of both parties are correlated entry by entry. */
  lemma {:induction false} OperandSharesPaired(n: nat, gs: seq<Gate>, in1: seq<Share>, in2: seq<Share>, lg1: nat -> Share, lg2: nat -> Share,
                                               d1: Block, d2: Block, second: bool, k: nat)
    requires Ordered(n, gs) && |in1| == |in2| == n && k <= |gs|
    requires forall i | 0 <= i < n :: Paired(in1[i], in2[i], d1, d2)
    requires forall i: nat :: Paired(lg1(i), lg2(i), d1, d2)
    ensures AllPaired(OperandShares(gs, AllShares(n, gs, in1, lg1), n, second, k),
                      OperandShares(gs, AllShares(n, gs, in2, lg2), n, second, k), d1, d2)
  {
    hide Paired, ShareOf;
    if k > 0 {
      OperandSharesPaired(n, gs, in1, in2, lg1, lg2, d1, d2, second, k - 1);
      var g := gs[k - 1];
      if g.op == AndOp {
        SharesArePaired(n, gs, in1, in2, lg1, lg2, d1, d2, if second then g.in1 else g.in0);
      }
    }
  }

  /** The randomness and hashes of one run: the triple hash, the half-gate hash, and the public coins for the shifts. */
  datatype RunSeed = RunSeed(triples: TweakedHash, halfGate: TweakedHash, coin: nat -> nat)

  /** Every output of an AND-free stream is an input or a constant, or there is an AND. */
  predicate MasksTravel(n: nat, gs: seq<Gate>, ids: seq<nat>)
    requires forall i | 0 <= i < |ids| :: ids[i] < n + |gs|
  {
    NumAnds(gs) > 0 || forall i | 0 <= i < |ids| :: InputOrConst(n, gs, ids[i])
  }

  /** What the garbler holds after its phase: shares and labels of every wire that owns its slot, and the masks the
      slot/mask pass left. */
  ghost predicate GarblerDone(st: RunState, win: SecureWires, ids: seq<nat>, g: Garbler)
    reads st
  {
    && g.Ok() && st.numInputs == g.n == |win.masks| && |st.phys| == g.n + |g.gs|
    && Allocated(g.n, g.gs, ids, st.phys, st.numSlots)
    && |st.wireSlot| == |st.labelSlot| == |st.maskInput| == st.numSlots
    && SlotsHold(st.wireSlot, st.phys, g.n + |g.gs|, AllShares(g.n, g.gs, g.shares, g.lg))
    && SlotsHold(st.labelSlot, st.phys, g.n + |g.gs|, g.AllLabels())
    && SlotsHold(st.maskInput, st.phys, g.n + |g.gs|, AllInitialMasks(g.n, g.gs, win.masks))
    && st.numAnds == NumAnds(g.gs) == |st.sigma| <= |st.m1t| && st.sigma == g.sigma
  }

  /** What the evaluator holds after its phase. */
  ghost predicate EvaluatorDone(st: RunState, ids: seq<nat>, e: Evaluator)
    reads st
  {
    && e.Ok() && st.numInputs == e.n && |st.phys| == e.n + |e.gs|
    && Allocated(e.n, e.gs, ids, st.phys, st.numSlots)
    && |st.wireSlot| == |st.evalSlot| == |st.maskInput| == st.numSlots
    && SlotsHold(st.wireSlot, st.phys, e.n + |e.gs|, AllShares(e.n, e.gs, e.shares, e.lg))
    && SlotsHold(st.evalSlot, st.phys, e.n + |e.gs|, e.AllLabels())
    && SlotsHold(st.maskInput, st.phys, e.n + |e.gs|, e.AllMasks())
    && st.numAnds == NumAnds(e.gs)
    && e.AndMasks(|e.gs|) <= st.lambdaAnd && e.Witnesses(|e.gs|) <= st.m1t
  }

  lemma LinkedPairs(p1: TriplePool, p2: TriplePool, at: nat)
    requires Linked(p1, p2)
    ensures forall i: nat :: Paired(FreshMasks(p1.cot, at)(i), FreshMasks(p2.cot, at)(i), p1.delta, p2.delta)
  {
    hide Paired;
  }

  /** The triple generation of a run: over the operand shares of its ANDs, from position `at` of the COT session on. */
  ghost function TripleCall(p1: TriplePool, p2: TriplePool, n: nat, gs: seq<Gate>, in1: SecureWires, in2: SecureWires,
                            lg1: nat -> Share, lg2: nat -> Share, at: nat, seed: RunSeed): Call
    requires Ordered(n, gs) && |in1.bundle| == |in2.bundle| == n
  {
    var sh1, sh2 := AllShares(n, gs, in1.bundle, lg1), AllShares(n, gs, in2.bundle, lg2);
    Call(seed.triples, NumAnds(gs), p1.delta, p2.delta, p1.cot, p2.cot, at,
         OperandShares(gs, sh1, n, false, |gs|), OperandShares(gs, sh1, n, true, |gs|),
         OperandShares(gs, sh2, n, false, |gs|), OperandShares(gs, sh2, n, true, |gs|), seed.coin, HONEST)
  }

  /** The sigma shares of an untampered call, with the least sufficient bucket. */
  ghost predicate SigmasOf(c: Call, ssp: nat, sigma1: seq<Share>, sigma2: seq<Share>) {
    if c.len == 0 then sigma1 == sigma2 == []
    else c.Shapes() && exists b: nat :: Least(c.len, ssp, b) && b > 0 && sigma1 == c.Sigma1(b - 1) && sigma2 == c.Sigma2(b - 1)
  }

  /** What the two references of a run are: over the input bundles, with the output masks the COT session yields from `at` on, and
      the sigma shares that bucketing makes of the shares after those. */
  ghost predicate Prescribed(g: Garbler, e: Evaluator, p1: TriplePool, p2: TriplePool, in1: SecureWires, in2: SecureWires,
                             n: nat, gs: seq<Gate>, at: nat, seed: RunSeed) {
    && Ordered(n, gs) && |in1.bundle| == |in2.bundle| == n
    && g == GarblerOf(n, gs, in1, FreshMasks(p1.cot, at), g.sigma, p1.delta, seed.halfGate)
    && e == Evaluator(n, gs, in2.bundle, in2.evalLabel, in2.masks, FreshMasks(p2.cot, at), e.sigma, p2.delta, seed.halfGate, e.stream)
    && SigmasOf(TripleCall(p1, p2, n, gs, in1, in2, FreshMasks(p1.cot, at), FreshMasks(p2.cot, at),
                           at + DrawnFor(NumAnds(gs)), seed), p1.ssp, g.sigma, e.sigma)
  }

  /** The passes before the triples, at both parties. */
  method PrepareBoth(p1: TriplePool, p2: TriplePool, in1: SecureWires, in2: SecureWires, calls: seq<Gate>, outs: seq<nat>,
                     ghost x: seq<bool>)
    returns (st1: RunState, st2: RunState, ids: seq<nat>, ghost lg1: nat -> Share, ghost lg2: nat -> Share)
    requires Linked(p1, p2) && Encode(in1, in2, p1.delta, p2.delta, x) && Body(|x|, calls, outs)
    modifies p1`drawn, p1`mintedSinceCheck, p2`drawn, p2`mintedSinceCheck
    ensures Linked(p1, p2) && fresh(st1) && fresh(st2) && st1 != st2
    ensures st1.party == 1 && st2.party == 2 && st1.numInputs == st2.numInputs == |x|
    ensures st1.delta == p1.delta && st2.delta == p2.delta
    ensures ids == OutIds(|x|, calls, outs)
    ensures Prepared(st1, in1, Stream(|x|, calls), ids, lg1) && Prepared(st2, in2, Stream(|x|, calls), ids, lg2)
    ensures forall i: nat :: Paired(lg1(i), lg2(i), p1.delta, p2.delta)
    ensures lg1 == FreshMasks(p1.cot, old(p1.drawn)) && lg2 == FreshMasks(p2.cot, old(p1.drawn))
    ensures p1.drawn == old(p1.drawn) + DrawnFor(NumAnds(Stream(|x|, calls)))
    ensures Footprint(st1, Stream(|x|, calls), ids) && Footprint(st2, Stream(|x|, calls), ids)
  {
    hide Prepared, Footprint, Stream, OutIds, Paired, WireOk, Body, DrawnFor, NumAnds;
    var ids2;
    st1, ids, lg1 := Prepare(p1, in1, calls, outs);
    st2, ids2, lg2 := Prepare(p2, in2, calls, outs);
    LinkedPairs(p1, p2, old(p1.drawn));
  }

  /** Allocate the c_gamma witness buffers. */
  method WitnessBuffers(st: RunState)
    modifies st`m1t, st`lambdaAnd
    ensures |st.m1t| >= st.numAnds && |st.lambdaAnd| >= st.numAnds
  {
    var room := if st.numAnds < 1 then 1 else st.numAnds;
    st.m1t, st.lambdaAnd := seq(room, _ => ZERO), seq(room, _ => false);
  }

  lemma {:induction false} PreparedOperandsPaired(st1: RunState, st2: RunState, in1: SecureWires, in2: SecureWires, gs: seq<Gate>, ids: seq<nat>,
                                                  lg1: nat -> Share, lg2: nat -> Share, d1: Block, d2: Block, x: seq<bool>)
    requires Prepared(st1, in1, gs, ids, lg1) && Prepared(st2, in2, gs, ids, lg2) && st1.numInputs == st2.numInputs == |x|
    requires Encode(in1, in2, d1, d2, x) && forall i: nat :: Paired(lg1(i), lg2(i), d1, d2)
    ensures st1.numAnds == st2.numAnds == NumAnds(gs) == |st1.repA| == |st1.repB|
    ensures AllPaired(st1.repA, st2.repA, d1, d2) && AllPaired(st1.repB, st2.repB, d1, d2)
  {
    hide Paired, OperandShares, AllShares, SlotsHold, Allocated, LastUse, Persists, AllInitialMasks;
    forall i | 0 <= i < |x|
      ensures Paired(in1.bundle[i], in2.bundle[i], d1, d2)
    {
      assert WireOk(in1.bundle[i], in2.bundle[i], in1.label0[i], in2.evalLabel[i], in2.masks[i], d1, d2, x[i]);
    }
    OperandSharesPaired(|x|, gs, in1.bundle, in2.bundle, lg1, lg2, d1, d2, false, |gs|);
    OperandSharesPaired(|x|, gs, in1.bundle, in2.bundle, lg1, lg2, d1, d2, true, |gs|);
  }

  /** The function-dependent AND shares, and with them the two parties' references for the rest of the run. */
  method MakeTriples(p1: TriplePool, p2: TriplePool, st1: RunState, st2: RunState, in1: SecureWires, in2: SecureWires,
                     ghost gs: seq<Gate>, ghost ids: seq<nat>, ghost lg1: nat -> Share, ghost lg2: nat -> Share,
                     seed: RunSeed, ghost x: seq<bool>)
    returns (sigma1: seq<Share>, sigma2: seq<Share>, ghost g: Garbler, ghost e: Evaluator)
    requires Linked(p1, p2) && Encode(in1, in2, p1.delta, p2.delta, x) && st1.numInputs == st2.numInputs == |x|
    requires st1.delta == p1.delta && st2.delta == p2.delta
    requires Prepared(st1, in1, gs, ids, lg1) && Prepared(st2, in2, gs, ids, lg2)
    requires forall i: nat :: Paired(lg1(i), lg2(i), p1.delta, p2.delta)
    modifies p1`drawn, p1`mintedSinceCheck, p2`drawn, p2`mintedSinceCheck
    ensures Linked(p1, p2) && |sigma1| == |sigma2| == NumAnds(gs)
    ensures |in1.bundle| == |in2.bundle| == |x| && Ordered(|x|, gs)
    ensures SigmasOf(TripleCall(p1, p2, |x|, gs, in1, in2, lg1, lg2, old(p1.drawn), seed), p1.ssp, sigma1, sigma2)
    ensures g == GarblerOf(|x|, gs, in1, lg1, sigma1, st1.delta, seed.halfGate) && g.Ok()
    ensures e == Evaluator(|x|, gs, in2.bundle, in2.evalLabel, in2.masks, lg2, sigma2, st2.delta, seed.halfGate,
                           g.Entries(|gs|))
    ensures |e.stream| == NumAnds(gs) && Joint(g, e) && Inputs(g, e) == x
  {
    hide Paired, OperandShares, AllShares, SlotsHold, Allocated, LastUse, Persists, AllInitialMasks, Garbler.Entries;
    hide WireOk, Hidden;
    PreparedOperandsPaired(st1, st2, in1, in2, gs, ids, lg1, lg2, p1.delta, p2.delta, x);
    var ok, bucket;
    ghost var mitc, call;
    ok, bucket, sigma1, sigma2, mitc, call :=
      ComputeInplace(p1, p2, seed.triples, seed.coin, st1.numAnds, st1.repA, st1.repB, st2.repA, st2.repB, HONEST);
    g := GarblerOf(|x|, gs, in1, lg1, sigma1, st1.delta, seed.halfGate);
    e := Evaluator(|x|, gs, in2.bundle, in2.evalLabel, in2.masks, lg2, sigma2, st2.delta, seed.halfGate, g.Entries(|gs|));
    RunIsJoint(g, e, in1, in2, x);
  }

  /** Liveness to the end of the garbler's pass: both parties prepared, the triples made, and the ciphertexts shipped. */
  method GarbleSide(p1: TriplePool, p2: TriplePool, in1: SecureWires, in2: SecureWires, calls: seq<Gate>, outs: seq<nat>,
                    seed: RunSeed, ghost x: seq<bool>)
    returns (st1: RunState, st2: RunState, ids: seq<nat>, sigma2: seq<Share>, items: seq<Item>, ghost lg2: nat -> Share,
             ghost g: Garbler, ghost e: Evaluator)
    requires Linked(p1, p2) && Encode(in1, in2, p1.delta, p2.delta, x) && Body(|x|, calls, outs)
    modifies p1`drawn, p1`mintedSinceCheck, p2`drawn, p2`mintedSinceCheck
    ensures Linked(p1, p2) && fresh(st1) && fresh(st2) && st1 != st2
    ensures st1.party == 1 && st2.party == 2 && st1.numInputs == st2.numInputs == |x|
    ensures ids == OutIds(|x|, calls, outs) && g.n == |x| && g.gs == Stream(|x|, calls)
    ensures GarblerDone(st1, in1, ids, g) && Prepared(st2, in2, Stream(|x|, calls), ids, lg2) && st2.delta == p2.delta
    ensures |sigma2| == NumAnds(Stream(|x|, calls)) == |e.stream|
    ensures g.Ok() && items == Framed(g.Entries(|g.gs|))
    ensures e == Evaluator(|x|, g.gs, in2.bundle, in2.evalLabel, in2.masks, lg2, sigma2, p2.delta, seed.halfGate, g.Entries(|g.gs|))
    ensures Joint(g, e) && Inputs(g, e) == x
    ensures g.delta == p1.delta && g.shares == in1.bundle && g.lg == FreshMasks(p1.cot, old(p1.drawn))
    ensures Prescribed(g, e, p1, p2, in1, in2, |x|, Stream(|x|, calls), old(p1.drawn), seed)
  {
    hide Stream, OutIds, Paired, WireOk, Linked, GarblerDone, Prepared, Ordered, ConstsUnique, Framed;
    hide Garbler.Entries, Joint, Inputs, NumAnds, Garbler.Ok, Prescribed, SigmasOf, TripleCall;
    ghost var lg1;
    st1, st2, ids, lg1, lg2 := PrepareBoth(p1, p2, in1, in2, calls, outs, x);
    var sigma1;
    sigma1, sigma2, g, e := MakeTriples(p1, p2, st1, st2, in1, in2, Stream(|x|, calls), ids, lg1, lg2, seed, x);
    IsPrescribed(g, e, p1, p2, in1, in2, |x|, Stream(|x|, calls), old(p1.drawn), seed, lg1, lg2);
    items := GarblerPhase(st1, in1, calls, ids, lg1, sigma1, seed.halfGate, g);
  }

  lemma IsPrescribed(g: Garbler, e: Evaluator, p1: TriplePool, p2: TriplePool, in1: SecureWires, in2: SecureWires,
                     n: nat, gs: seq<Gate>, at: nat, seed: RunSeed, lg1: nat -> Share, lg2: nat -> Share)
    requires Ordered(n, gs) && |in1.bundle| == |in2.bundle| == n
    requires lg1 == FreshMasks(p1.cot, at) && lg2 == FreshMasks(p2.cot, at)
    requires g == GarblerOf(n, gs, in1, lg1, g.sigma, p1.delta, seed.halfGate)
    requires e == Evaluator(n, gs, in2.bundle, in2.evalLabel, in2.masks, lg2, e.sigma, p2.delta, seed.halfGate, e.stream)
    requires SigmasOf(TripleCall(p1, p2, n, gs, in1, in2, lg1, lg2, at + DrawnFor(NumAnds(gs)), seed), p1.ssp, g.sigma, e.sigma)
    ensures Prescribed(g, e, p1, p2, in1, in2, n, gs, at, seed)
  {
    hide SigmasOf, TripleCall, NumAnds, Ordered;
  }

  lemma PrescribedAnyStream(g: Garbler, e: Evaluator, p1: TriplePool, p2: TriplePool, in1: SecureWires, in2: SecureWires,
                            n: nat, gs: seq<Gate>, at: nat, seed: RunSeed, received: seq<Entry>)
    requires Prescribed(g, e, p1, p2, in1, in2, n, gs, at, seed)
    ensures Prescribed(g, e.(stream := received), p1, p2, in1, in2, n, gs, at, seed)
  {
    hide SigmasOf, TripleCall, NumAnds, Ordered;
  }

  /** Liveness to garble/evaluate at both parties. */
  method GarbleAndEvaluate(p1: TriplePool, p2: TriplePool, in1: SecureWires, in2: SecureWires, calls: seq<Gate>, outs: seq<nat>,
                           seed: RunSeed, ghost x: seq<bool>)
    returns (st1: RunState, st2: RunState, ids: seq<nat>, ghost g: Garbler, ghost e: Evaluator)
    requires Linked(p1, p2) && Encode(in1, in2, p1.delta, p2.delta, x) && Body(|x|, calls, outs)
    modifies p1`drawn, p1`mintedSinceCheck, p2`drawn, p2`mintedSinceCheck
    ensures Linked(p1, p2) && fresh(st1) && fresh(st2) && st1 != st2
    ensures st1.party == 1 && st2.party == 2 && st1.numInputs == st2.numInputs == |x|
    ensures ids == OutIds(|x|, calls, outs) && g.n == |x| && g.gs == Stream(|x|, calls)
    ensures GarblerDone(st1, in1, ids, g) && EvaluatorDone(st2, ids, e) && e.n == g.n && e.gs == g.gs
    ensures g.Ok() && e.stream == g.Entries(|g.gs|) && Joint(g, e) && Inputs(g, e) == x
    ensures g.delta == p1.delta && e.delta == p2.delta && g.shares == in1.bundle && e.masks == in2.masks
    ensures g.lg == FreshMasks(p1.cot, old(p1.drawn))
    ensures Prescribed(g, e, p1, p2, in1, in2, |x|, g.gs, old(p1.drawn), seed)
  {
    hide Stream, OutIds, WireOk, Linked, GarblerDone, EvaluatorDone, Prepared, Ordered, ConstsUnique, Framed;
    hide Garbler.Entries, Joint, Inputs, NumAnds, Garbler.Ok, Prescribed, SigmasOf, TripleCall;
    var sigma2, items;
    ghost var lg2;
    st1, st2, ids, sigma2, items, lg2, g, e := GarbleSide(p1, p2, in1, in2, calls, outs, seed, x);
    EvaluatorPhase(st2, in2, calls, ids, lg2, sigma2, seed.halfGate, items, e);
  }

  /** The same when `received` arrives in place of what was shipped. */
  method GarbleAndReceive(p1: TriplePool, p2: TriplePool, in1: SecureWires, in2: SecureWires, calls: seq<Gate>, outs: seq<nat>,
                          seed: RunSeed, received: seq<Entry>, ghost x: seq<bool>)
    returns (st1: RunState, st2: RunState, ids: seq<nat>, ghost g: Garbler, ghost e: Evaluator)
    requires Linked(p1, p2) && Encode(in1, in2, p1.delta, p2.delta, x) && Body(|x|, calls, outs)
    requires |received| == NumAnds(Stream(|x|, calls))
    modifies p1`drawn, p1`mintedSinceCheck, p2`drawn, p2`mintedSinceCheck
    ensures Linked(p1, p2) && fresh(st1) && fresh(st2) && st1 != st2
    ensures st1.party == 1 && st2.party == 2 && st1.numInputs == st2.numInputs == |x|
    ensures ids == OutIds(|x|, calls, outs) && g.n == |x| && g.gs == Stream(|x|, calls)
    ensures GarblerDone(st1, in1, ids, g) && EvaluatorDone(st2, ids, e) && e.n == g.n && e.gs == g.gs
    ensures g.Ok() && e.stream == received && Joint(g, e) && Inputs(g, e) == x
    ensures g.delta == p1.delta && e.delta == p2.delta && g.shares == in1.bundle && e.masks == in2.masks
    ensures g.lg == FreshMasks(p1.cot, old(p1.drawn))
    ensures Prescribed(g, e, p1, p2, in1, in2, |x|, g.gs, old(p1.drawn), seed)
  {
    hide Stream, OutIds, WireOk, Linked, GarblerDone, EvaluatorDone, Prepared, Ordered, ConstsUnique, Framed;
    hide Garbler.Entries, Joint, Inputs, NumAnds, Garbler.Ok, Prescribed, SigmasOf, TripleCall;
    var sigma2, items;
    ghost var lg2, honest;
    st1, st2, ids, sigma2, items, lg2, g, honest := GarbleSide(p1, p2, in1, in2, calls, outs, seed, x);
    e := honest.(stream := received);
    JointIgnoresStream(g, honest, received);
    PrescribedAnyStream(g, honest, p1, p2, in1, in2, |x|, g.gs, old(p1.drawn), seed, received);
    EvaluatorPhase(st2, in2, calls, ids, lg2, sigma2, seed.halfGate, Framed(received), e);
  }

  /** Nothing that makes two runs joint depends on the ciphertexts. */
  lemma JointIgnoresStream(g: Garbler, e: Evaluator, received: seq<Entry>)
    requires Joint(g, e) && |received| == |e.stream|
    ensures Joint(g, e.(stream := received)) && Inputs(g, e.(stream := received)) == Inputs(g, e)
  {
    hide Paired, Hidden, Xor, ShareOf;
    var e' := e.(stream := received);
    forall k | 0 <= k < |g.gs| && g.gs[k].op == AndOp
      ensures SigmaOk(g, e', k)
    {
      assert SigmaOk(g, e, k);
    }
  }

  /** Gather the garbler's output bundle. */
  method GatherGarbler(st: RunState, ids: seq<nat>, ghost n: nat, ghost gs: seq<Gate>,
                       ghost shares: seq<Share>, ghost labels: seq<Block>, ghost masks: seq<bool>)
    returns (out: SecureWires)
    requires Allocated(n, gs, ids, st.phys, st.numSlots) && |st.phys| == n + |gs| == |shares| == |labels| == |masks|
    requires SlotsHold(st.wireSlot, st.phys, n + |gs|, shares) && SlotsHold(st.labelSlot, st.phys, n + |gs|, labels)
    requires SlotsHold(st.maskInput, st.phys, n + |gs|, masks) && forall i | 0 <= i < |ids| :: ids[i] < n + |gs|
    ensures |out.masks| == |out.bundle| == |out.label0| == |ids| && out.evalLabel == []
    ensures forall i | 0 <= i < |ids| ::
      out.masks[i] == masks[ids[i]] && out.bundle[i] == shares[ids[i]] && out.label0[i] == labels[ids[i]]
  {
    hide Allocated, SlotsHold;
    var m := GatherSlots(st.maskInput, st.phys, ids, n, gs, st.numSlots, masks);
    var b := GatherSlots(st.wireSlot, st.phys, ids, n, gs, st.numSlots, shares);
    var l := GatherSlots(st.labelSlot, st.phys, ids, n, gs, st.numSlots, labels);
    out := SecureWires(m, b, l, []);
  }

  /** Gather the evaluator's output bundle. */
  method GatherEvaluator(st: RunState, ids: seq<nat>, ghost e: Evaluator) returns (out: SecureWires)
    requires EvaluatorDone(st, ids, e) && forall i | 0 <= i < |ids| :: ids[i] < e.n + |e.gs|
    ensures e.Ok() && |out.masks| == |out.bundle| == |out.evalLabel| == |ids| && out.label0 == []
    ensures forall i | 0 <= i < |ids| ::
      out.masks[i] == e.Cell(ids[i]).mask && out.bundle[i] == e.ShareAt(ids[i]) && out.evalLabel[i] == e.Cell(ids[i]).lab
  {
    hide Allocated, SlotsHold, Evaluator.Cell, Evaluator.AllLabels, Evaluator.AllMasks, AllShares, ShareOf;
    var m := GatherSlots(st.maskInput, st.phys, ids, e.n, e.gs, st.numSlots, e.AllMasks());
    var b := GatherSlots(st.wireSlot, st.phys, ids, e.n, e.gs, st.numSlots, AllShares(e.n, e.gs, e.shares, e.lg));
    var l := GatherSlots(st.evalSlot, st.phys, ids, e.n, e.gs, st.numSlots, e.AllLabels());
    out := SecureWires(m, b, [], l);
    forall i | 0 <= i < |ids|
      ensures out.masks[i] == e.Cell(ids[i]).mask && out.bundle[i] == e.ShareAt(ids[i]) && out.evalLabel[i] == e.Cell(ids[i]).lab
    {
      e.CellsAt(ids[i]);
    }
  }

  /** Output bundles gathered from a joint, honestly garbled run encode the plaintext outputs. */
  lemma OutputsEncode(g: Garbler, e: Evaluator, n: nat, calls: seq<Gate>, outs: seq<nat>, x: seq<bool>,
                      out1: SecureWires, out2: SecureWires)
    requires Body(n, calls, outs) && |x| == n && g.n == n && g.gs == Stream(n, calls)
    requires Joint(g, e) && Inputs(g, e) == x && e.stream == g.Entries(|g.gs|)
    requires forall i | 0 <= i < |outs| :: OutIds(n, calls, outs)[i] < n + |g.gs|
    requires |out1.masks| == |out1.bundle| == |out1.label0| == |outs| && out1.evalLabel == []
    requires |out2.masks| == |out2.bundle| == |out2.evalLabel| == |outs| && out2.label0 == []
    requires forall i | 0 <= i < |outs| ::
      out1.bundle[i] == g.ShareAt(OutIds(n, calls, outs)[i]) && out1.label0[i] == g.Label(OutIds(n, calls, outs)[i])
    requires forall i | 0 <= i < |outs| :: var w := OutIds(n, calls, outs)[i];
      out2.masks[i] == e.Cell(w).mask && out2.bundle[i] == e.ShareAt(w) && out2.evalLabel[i] == e.Cell(w).lab
    ensures Encode(out1, out2, g.delta, e.delta, Outputs(n, calls, x, outs))
  {
    hide Paired, Xor, Hidden, Evaluator.Cell, Garbler.Label, ShareOf, Record, Garbler.Entries, Inputs;
    forall i | 0 <= i < |outs|
      ensures WireOk(out1.bundle[i], out2.bundle[i], out1.label0[i], out2.evalLabel[i], out2.masks[i], g.delta, e.delta,
                     Outputs(n, calls, x, outs)[i])
    {
      var w := OutIds(n, calls, outs)[i];
      EvaluationIsCorrect(g, e, w);
      SharesArePaired(n, g.gs, g.shares, e.shares, g.lg, e.lg, g.delta, e.delta, w);
      RecordKeepsMeaning(n, calls, x, outs[i]);
    }
  }

  /** The end of the garbler's path: the c_gamma check when there is an AND, and the opened masks it leaves, whatever ciphertexts
      the evaluator received. The check passes exactly when the witnesses fit at every AND, and the garbler's masks then differ
      from the evaluator's exactly where `OutputOff` says. */
  method OpenMasks(st1: RunState, st2: RunState, in1: SecureWires, calls: seq<Gate>, ghost ids: seq<nat>,
                   ghost g: Garbler, ghost e: Evaluator)
    returns (ok: bool, ghost masks: seq<bool>)
    requires Ordered(g.n, calls) && g.gs == Stream(g.n, calls) && Canonical(g.n, g.gs) && in1.WellShaped(1)
    requires st1 != st2 && GarblerDone(st1, in1, ids, g) && EvaluatorDone(st2, ids, e) && e.n == g.n && e.gs == g.gs
    requires Joint(g, e) && g.shares == in1.bundle
    modifies st1`lambdaAnd, st1`wireSlot, st1`maskInput, st1`m1t
    ensures |masks| == g.n + |g.gs|
    ensures SlotsHold(st1.wireSlot, st1.phys, g.n + |g.gs|, AllShares(g.n, g.gs, g.shares, g.lg))
    ensures SlotsHold(st1.maskInput, st1.phys, g.n + |g.gs|, masks)
    ensures ok <==> AllFit(g, e, in1.masks)
    ensures forall w | 0 <= w < |masks| :: masks[w] == (e.Cell(w).mask != OutputOff(g.n, g.gs, in1.masks, e.masks, w))
  {
    hide SlotsHold, Allocated, AllShares, AllInitialMasks, Evaluator.Cell, Evaluator.Witnesses, Evaluator.AndMasks;
    hide Checker.AllMasks, AllFit, OutputOff;
    hide Ordered, ConstsUnique, Joint, Garbler.Entries, Checker.Witnesses, Stream, Garbler.AllLabels;
    hide Evaluator.AllLabels, Evaluator.AllMasks;
    ok, masks := true, AllInitialMasks(g.n, g.gs, in1.masks);
    if st1.numAnds > 0 {
      var received := st2.lambdaAnd[..st1.numAnds];
      assert received == e.AndMasks(|e.gs|);
      ghost var c := Checker(g.n, g.gs, in1.bundle, in1.masks, g.lg, st1.sigma, received);
      CheckPhase(st1, in1, calls, ids, g.lg, received, c);
      ok := st1.m1t[..st1.numAnds] == st2.m1t[..st1.numAnds];
      masks := c.AllMasks();
      CheckPassesIff(g, e, c);
      CheckerMasks(g, e, c);
    } else {
      NothingToFit(g, e, in1.masks);
      InitialMasksOff(e, in1.masks);
    }
  }

  lemma CheckerMasks(g: Garbler, e: Evaluator, c: Checker)
    requires Rechecks(g, e, c) && NumAnds(g.gs) > 0
    ensures |c.masks| == |e.masks| == g.n && Ordered(g.n, g.gs)
    ensures forall w | 0 <= w < g.n + |g.gs| :: c.AllMasks()[w] == (e.Cell(w).mask != OutputOff(g.n, g.gs, c.masks, e.masks, w))
  {
    hide Evaluator.Cell, Checker.AllMasks, ShareOf, Offset, Evaluator.AndMasks, NumAnds;
    forall w | 0 <= w < g.n + |g.gs|
      ensures c.AllMasks()[w] == (e.Cell(w).mask != OutputOff(g.n, g.gs, c.masks, e.masks, w))
    {
      CheckerMaskOff(g, e, c, w);
      c.MaskAndShareAt(w);
    }
  }

  lemma NothingToFit(g: Garbler, e: Evaluator, m1: seq<bool>)
    requires Joint(g, e) && |m1| == g.n && NumAnds(g.gs) == 0
    ensures AllFit(g, e, m1) && AllRight(g, e)
  {
    hide Joint, NumAnds, WitnessFits, MaskIsRight;
    JointFacts(g, e);
    forall k | 0 <= k < |g.gs|
      ensures g.gs[k].op != AndOp
    {
      NoAndAt(g.gs, k);
    }
  }

  lemma InitialMasksOff(e: Evaluator, m1: seq<bool>)
    requires e.Ok() && NumAnds(e.gs) == 0 && |m1| == e.n
    ensures forall w | 0 <= w < e.n + |e.gs| ::
      AllInitialMasks(e.n, e.gs, m1)[w] == (e.Cell(w).mask != OutputOff(e.n, e.gs, m1, e.masks, w))
  {
    hide Evaluator.Cell, NumAnds, Offset, Plain;
    forall w | 0 <= w < e.n + |e.gs|
      ensures AllInitialMasks(e.n, e.gs, m1)[w] == (e.Cell(w).mask != OutputOff(e.n, e.gs, m1, e.masks, w))
    {
      EvaluatorMaskIsLinear(e, w);
    }
  }

  /** Two honest parties pass the c_gamma check of this body over inputs with the opened masks `m1` and `m2`. */
  ghost predicate RunUndisturbed(n: nat, calls: seq<Gate>, m1: seq<bool>, m2: seq<bool>, ins: seq<Share>, lg: nat -> Share)
    requires Ordered(n, calls) && |m1| == |m2| == |ins| == n
  {
    RecordIsCanonical(n, calls, |calls|);
    Undisturbed(n, Stream(n, calls), Differences(m1, m2), ins, lg)
  }

  /** The opened masks `o1`, `o2` of the outputs of a body differ exactly where `OutputOff` says. */
  ghost predicate RunOutputsOff(n: nat, calls: seq<Gate>, outs: seq<nat>, m1: seq<bool>, m2: seq<bool>, o1: seq<bool>, o2: seq<bool>)
    requires Body(n, calls, outs) && |m1| == |m2| == n
  {
    OutIdsInRange(n, calls, outs);
    && |o1| == |o2| == |outs|
    && forall i | 0 <= i < |outs| :: (o1[i] != o2[i]) == OutputOff(n, Stream(n, calls), m1, m2, OutIds(n, calls, outs)[i])
  }

  /** Argument `i` of a body reaches no AND through XOR and NOT gates. */
  ghost predicate ReachesNoAnd(n: nat, calls: seq<Gate>, i: nat)
    requires Ordered(n, calls)
  {
    RecordIsCanonical(n, calls, |calls|);
    FeedsNoAnd(n, Stream(n, calls), i)
  }

  /** The check of a run cannot fail when every argument is agreed on or reaches no AND linearly. */
  lemma SafeArgumentsPass(n: nat, calls: seq<Gate>, m1: seq<bool>, m2: seq<bool>, ins: seq<Share>, lg: nat -> Share)
    requires Ordered(n, calls) && |m1| == |m2| == |ins| == n
    requires forall i | 0 <= i < n :: m1[i] == m2[i] || ReachesNoAnd(n, calls, i)
    ensures RunUndisturbed(n, calls, m1, m2, ins, lg)
  {
    hide Undisturbed, FeedsNoAnd, Record, RecordingOk;
    RecordIsCanonical(n, calls, |calls|);
    RecordedOrdered(n, Record(n, calls, |calls|));
    SafeArgumentsDoNotDisturb(n, Stream(n, calls), Differences(m1, m2), ins, lg);
  }

  /** Agreed inputs never fail the check. */
  lemma AgreedRunPasses(n: nat, calls: seq<Gate>, m: seq<bool>, ins: seq<Share>, lg: nat -> Share)
    requires Ordered(n, calls) && |m| == |ins| == n
    ensures RunUndisturbed(n, calls, m, m, ins, lg)
  {
    hide Ordered, RunUndisturbed, ReachesNoAnd;
    SafeArgumentsPass(n, calls, m, m, ins, lg);
  }

  lemma RecordedOrdered(n: nat, r: Recording)
    requires RecordingOk(n, r)
    ensures Canonical(n, r.gates) && Ordered(n, r.gates)
  {
  }

  /** From agreed inputs the outputs agree when the run has an AND or outputs only inputs and constants, and without an AND
      exactly when the circuit sends the input masks to 0 at every other output. */
  lemma AgreedOutputs(n: nat, calls: seq<Gate>, outs: seq<nat>, m: seq<bool>, o1: seq<bool>, o2: seq<bool>)
    requires Body(n, calls, outs) && |m| == n && RunOutputsOff(n, calls, outs, m, m, o1, o2)
    ensures OutputMasksTravel(n, calls, outs) ==> o1 == o2
    ensures NumAnds(Stream(n, calls)) == 0 ==> (o1 == o2 <==> OutputsComeOutRight(n, calls, outs, m))
  {
    hide NumAnds, OutputOff, InputOrConst, OutIds, Stream, Plain, ConstsUnique;
    OutIdsInRange(n, calls, outs);
    var gs, ids := Stream(n, calls), OutIds(n, calls, outs);
    forall i | 0 <= i < |outs|
      ensures o1[i] != o2[i] <==> NumAnds(gs) == 0 && !InputOrConst(n, gs, ids[i]) && Plain(n, gs, m, ids[i])
    {
      AgreedOutputOff(n, gs, m, ids[i]);
    }
    if o1 != o2 {
      var i :| 0 <= i < |outs| && o1[i] != o2[i];
    }
  }

  /** `MasksTravel` for the outputs of a body. */
  predicate OutputMasksTravel(n: nat, calls: seq<Gate>, outs: seq<nat>)
    requires Body(n, calls, outs)
  {
    OutIdsInRange(n, calls, outs);
    MasksTravel(n, Stream(n, calls), OutIds(n, calls, outs))
  }

  /** `MasksComeOutRight` for the outputs of a body. */
  ghost predicate OutputsComeOutRight(n: nat, calls: seq<Gate>, outs: seq<nat>, masks: seq<bool>)
    requires Body(n, calls, outs) && |masks| == n
  {
    OutIdsInRange(n, calls, outs);
    MasksComeOutRight(n, Stream(n, calls), OutIds(n, calls, outs), masks)
  }

  /** The bundles hold each output's own share, label and mask. */
  ghost predicate GatheredFrom(g: Garbler, e: Evaluator, ids: seq<nat>, out1: SecureWires, out2: SecureWires)
    requires g.Ok() && e.Ok() && g.n == e.n && g.gs == e.gs && forall i | 0 <= i < |ids| :: ids[i] < g.n + |g.gs|
  {
    && |out1.bundle| == |out1.label0| == |out2.masks| == |out2.bundle| == |out2.evalLabel| == |ids|
    && (forall i | 0 <= i < |ids| :: out1.bundle[i] == g.ShareAt(ids[i]) && out1.label0[i] == g.Label(ids[i]))
    && forall i | 0 <= i < |ids| ::
         out2.masks[i] == e.Cell(ids[i]).mask && out2.bundle[i] == e.ShareAt(ids[i]) && out2.evalLabel[i] == e.Cell(ids[i]).lab
  }

  /** The rest of a run, whatever ciphertexts the evaluator received: the c_gamma check, the COT check, and the outputs gathered
      from their slots. */
  method CheckAndGather(p1: TriplePool, p2: TriplePool, st1: RunState, st2: RunState, in1: SecureWires, calls: seq<Gate>,
                        ghost outs: seq<nat>, ids: seq<nat>, ghost g: Garbler, ghost e: Evaluator)
    returns (ok: bool, out1: SecureWires, out2: SecureWires, ands: nat)
    requires p1 != p2 && Body(g.n, calls, outs) && ids == OutIds(g.n, calls, outs) && g.gs == Stream(g.n, calls)
    requires in1.WellShaped(1) && st1 != st2 && GarblerDone(st1, in1, ids, g) && EvaluatorDone(st2, ids, e)
    requires e.n == g.n && e.gs == g.gs && Joint(g, e) && g.shares == in1.bundle
    modifies st1`lambdaAnd, st1`wireSlot, st1`maskInput, st1`m1t, p1`mintedSinceCheck, p2`mintedSinceCheck
    ensures |in1.masks| == |e.masks| == g.n && (ok <==> AllFit(g, e, in1.masks))
    ensures ok ==> !p1.mintedSinceCheck && !p2.mintedSinceCheck && ands == NumAnds(g.gs)
    ensures forall i | 0 <= i < |outs| :: ids[i] < g.n + |g.gs|
    ensures ok ==> |out1.masks| == |out1.bundle| == |out1.label0| == |outs| && out1.evalLabel == []
    ensures ok ==> |out2.masks| == |out2.bundle| == |out2.evalLabel| == |outs| && out2.label0 == []
    ensures ok ==> forall i | 0 <= i < |outs| :: out1.bundle[i] == g.ShareAt(ids[i]) && out1.label0[i] == g.Label(ids[i])
    ensures ok ==> forall i | 0 <= i < |outs| ::
      out2.masks[i] == e.Cell(ids[i]).mask && out2.bundle[i] == e.ShareAt(ids[i]) && out2.evalLabel[i] == e.Cell(ids[i]).lab
    ensures ok ==> RunOutputsOff(g.n, calls, outs, in1.masks, e.masks, out1.masks, out2.masks)
  {
    hide GarblerDone, Allocated, SlotsHold, AllShares, AllInitialMasks, Evaluator.Cell, ShareOf, Joint, AllFit, OutputOff;
    hide RunOutputsOff, Garbler.AllLabels, Garbler.Label, Ordered, ConstsUnique, Stream, Record, EvaluatorDone, NumAnds;
    OutIdsInRange(g.n, calls, outs);
    GarblerDoneFacts(st1, in1, ids, g);
    EvaluatorDoneFacts(st2, ids, e);
    ghost var masks1;
    ok, masks1 := OpenMasks(st1, st2, in1, calls, ids, g, e);
    out1, out2, ands := NO_WIRES, NO_WIRES, 0;
    if !ok {
      return;
    }
    p1.MaybeFlushCotCheck();
    p2.MaybeFlushCotCheck();
    out1 := GatherGarbler(st1, ids, g.n, g.gs, AllShares(g.n, g.gs, g.shares, g.lg), g.AllLabels(), masks1);
    out2 := GatherEvaluator(st2, ids, e);
    ands := st1.numAnds;
    GatheredCells(g, ids, out1);
    GatheredMasks(e, g.n, calls, outs, in1.masks, masks1, out1.masks, out2.masks);
  }

  lemma EvaluatorDoneFacts(st: RunState, ids: seq<nat>, e: Evaluator)
    requires EvaluatorDone(st, ids, e)
    ensures e.Ok() && |e.masks| == e.n
  {
  }

  /** A run in which `received` arrives in place of the ciphertexts and parity bits that were garbled. Over agreed input masks the
      run succeeds if and only if every AND mask the evaluator recovered is right, and then the outputs' shares and masks stand
      for the plaintext outputs, whatever arrived; only the evaluator's labels may be wrong. */
  method RunReceived(p1: TriplePool, p2: TriplePool, in1: SecureWires, in2: SecureWires, calls: seq<Gate>, outs: seq<nat>,
                     seed: RunSeed, received: seq<Entry>, ghost x: seq<bool>)
    returns (ok: bool, out1: SecureWires, out2: SecureWires, ghost g: Garbler, ghost e: Evaluator)
    requires Linked(p1, p2) && Encode(in1, in2, p1.delta, p2.delta, x) && Body(|x|, calls, outs) && Synced(in1, in2)
    requires |received| == NumAnds(Stream(|x|, calls))
    modifies p1`drawn, p1`mintedSinceCheck, p2`drawn, p2`mintedSinceCheck
    ensures Linked(p1, p2) && g.gs == Stream(|x|, calls) && e.stream == received && Joint(g, e) && Inputs(g, e) == x
    ensures Prescribed(g, e, p1, p2, in1, in2, |x|, g.gs, old(p1.drawn), seed)
    ensures ok <==> AllRight(g, e)
    ensures ok ==> out1.WellShaped(1) && out2.WellShaped(2)
    ensures ok ==> Blinds(out1, out2, p1.delta, p2.delta, Outputs(|x|, calls, x, outs))
    ensures ok && OutputMasksTravel(|x|, calls, outs) ==> Synced(out1, out2)
  {
    hide Paired, WireOk, GarblerDone, AllFit, AllRight, RunOutputsOff, OutputMasksTravel, Outputs;
    hide Evaluator.Cell, ShareOf, Joint, Garbler.Label, Garbler.Entries, Ordered, ConstsUnique, Stream, Record, Inputs;
    hide EvaluatorDone, NumAnds, OutIds, Blinds, Prescribed;
    var st1, st2, ids, ands;
    st1, st2, ids, g, e := GarbleAndReceive(p1, p2, in1, in2, calls, outs, seed, received, x);
    ok, out1, out2, ands := CheckAndGather(p1, p2, st1, st2, in1, calls, outs, ids, g, e);
    AgreedFitIff(g, e);
    if ok {
      RightOutputsBlind(g, e, |x|, calls, outs, x, out1, out2);
      AgreedOutputs(|x|, calls, outs, in1.masks, out1.masks, out2.masks);
    }
  }

  lemma RightOutputsBlind(g: Garbler, e: Evaluator, n: nat, calls: seq<Gate>, outs: seq<nat>, x: seq<bool>,
                          out1: SecureWires, out2: SecureWires)
    requires Body(n, calls, outs) && |x| == n && g.n == n && g.gs == Stream(n, calls)
    requires Joint(g, e) && Inputs(g, e) == x && AllRight(g, e)
    requires forall i | 0 <= i < |outs| :: OutIds(n, calls, outs)[i] < n + |g.gs|
    requires |out1.masks| == |out1.bundle| == |out2.masks| == |out2.bundle| == |outs|
    requires forall i | 0 <= i < |outs| :: var w := OutIds(n, calls, outs)[i];
      out1.bundle[i] == g.ShareAt(w) && out2.bundle[i] == e.ShareAt(w) && out2.masks[i] == e.Cell(w).mask
    ensures Blinds(out1, out2, g.delta, e.delta, Outputs(n, calls, x, outs))
  {
    hide Paired, Xor, Hidden, Evaluator.Cell, ShareOf, Record, Inputs, AllRight;
    forall i | 0 <= i < |outs|
      ensures BlindsAt(out1.bundle[i], out2.bundle[i], out2.masks[i], g.delta, e.delta, Outputs(n, calls, x, outs)[i])
    {
      var w := OutIds(n, calls, outs)[i];
      RightMasksDecode(g, e, w);
      SharesArePaired(n, g.gs, g.shares, e.shares, g.lg, e.lg, g.delta, e.delta, w);
      RecordKeepsMeaning(n, calls, x, outs[i]);
    }
  }

  /** One circuit through all passes at both parties: the engine's core. From well-formed inputs the outputs are well formed
      and stand for the plaintext outputs. Two honest parties fail their own c_gamma check exactly when the differences
      between their opened input masks disturb an AND, so never from agreed inputs; otherwise their masks of the outputs
      differ exactly where `OutputOff` says. From agreed inputs they agree whenever an AND made the garbler re-propagate or
      every output is an input or a constant; without an AND, exactly when the circuit sends the input masks to 0 at every
      other output. */
  method RunSource(p1: TriplePool, p2: TriplePool, in1: SecureWires, in2: SecureWires, calls: seq<Gate>, outs: seq<nat>,
                   seed: RunSeed, ghost x: seq<bool>)
    returns (ok: bool, out1: SecureWires, out2: SecureWires, ands: nat, ghost g: Garbler, ghost e: Evaluator)
    requires Linked(p1, p2) && Encode(in1, in2, p1.delta, p2.delta, x) && Body(|x|, calls, outs)
    modifies p1`drawn, p1`mintedSinceCheck, p2`drawn, p2`mintedSinceCheck
    ensures Linked(p1, p2)
    ensures Prescribed(g, e, p1, p2, in1, in2, |x|, Stream(|x|, calls), old(p1.drawn), seed) && g.Ok() && e.Ok()
    ensures e.stream == g.Entries(|g.gs|) && forall i | 0 <= i < |outs| :: OutIds(|x|, calls, outs)[i] < g.n + |g.gs|
    ensures ok ==> GatheredFrom(g, e, OutIds(|x|, calls, outs), out1, out2)
    ensures ok ==> !p1.mintedSinceCheck && !p2.mintedSinceCheck && ands == NumAnds(Stream(|x|, calls))
    ensures ok <==> RunUndisturbed(|x|, calls, in1.masks, in2.masks, in1.bundle, FreshMasks(p1.cot, old(p1.drawn)))
    ensures ok ==> Encode(out1, out2, p1.delta, p2.delta, Outputs(|x|, calls, x, outs))
    ensures ok ==> RunOutputsOff(|x|, calls, outs, in1.masks, in2.masks, out1.masks, out2.masks)
    ensures Synced(in1, in2) ==> ok
    ensures ok && Synced(in1, in2) && OutputMasksTravel(|x|, calls, outs) ==> Synced(out1, out2)
    ensures ok && Synced(in1, in2) && NumAnds(Stream(|x|, calls)) == 0 ==>
      (Synced(out1, out2) <==> OutputsComeOutRight(|x|, calls, outs, in1.masks))
  {
    hide Paired, WireOk, GarblerDone, Undisturbed, AllFit, RunOutputsOff, OutputMasksTravel, OutputsComeOutRight;
    hide Evaluator.Cell, ShareOf, Joint, Garbler.Label, Garbler.Entries, Ordered, ConstsUnique, Stream, Record, Inputs;
    hide EvaluatorDone, NumAnds, OutIds, Prescribed;
    var n := |in1.masks|;
    var st1, st2, ids;
    st1, st2, ids, g, e := GarbleAndEvaluate(p1, p2, in1, in2, calls, outs, seed, x);
    EvaluatorDoneFacts(st2, ids, e);
    ok, out1, out2, ands := CheckAndGather(p1, p2, st1, st2, in1, calls, outs, ids, g, e);
    HonestFitIff(g, e, in1.masks);
    if Synced(in1, in2) {
      AgreedRunPasses(n, calls, in1.masks, in1.bundle, g.lg);
    }
    if ok {
      OutputsEncode(g, e, n, calls, outs, x, out1, out2);
      if Synced(in1, in2) {
        AgreedOutputs(n, calls, outs, in1.masks, out1.masks, out2.masks);
      }
    }
  }

  lemma GarblerDoneFacts(st: RunState, win: SecureWires, ids: seq<nat>, g: Garbler)
    requires GarblerDone(st, win, ids, g)
    ensures g.Ok() && st.numAnds == NumAnds(g.gs) && |st.phys| == g.n + |g.gs|
    ensures Allocated(g.n, g.gs, ids, st.phys, st.numSlots)
    ensures SlotsHold(st.labelSlot, st.phys, g.n + |g.gs|, g.AllLabels())
  {
  }

  lemma GatheredCells(g: Garbler, ids: seq<nat>, out: SecureWires)
    requires g.Ok() && |out.bundle| == |out.label0| == |ids| && forall i | 0 <= i < |ids| :: ids[i] < g.n + |g.gs|
    requires forall i | 0 <= i < |ids| ::
      out.bundle[i] == AllShares(g.n, g.gs, g.shares, g.lg)[ids[i]] && out.label0[i] == g.AllLabels()[ids[i]]
    ensures forall i | 0 <= i < |ids| :: out.bundle[i] == g.ShareAt(ids[i]) && out.label0[i] == g.Label(ids[i])
  {
    hide ShareOf, Garbler.Label;
  }

  /** Where the gathered masks of the two parties differ. */
  lemma GatheredMasks(e: Evaluator, n: nat, calls: seq<Gate>, outs: seq<nat>, m1: seq<bool>, masks1: seq<bool>,
                      o1: seq<bool>, o2: seq<bool>)
    requires Body(n, calls, outs) && e.Ok() && e.n == n == |m1| && e.gs == Stream(n, calls) && |masks1| == n + |e.gs|
    requires |o1| == |o2| == |outs| && forall i | 0 <= i < |outs| :: OutIds(n, calls, outs)[i] < n + |e.gs|
    requires forall i | 0 <= i < |outs| ::
      o1[i] == masks1[OutIds(n, calls, outs)[i]] && o2[i] == e.Cell(OutIds(n, calls, outs)[i]).mask
    requires forall w | 0 <= w < |masks1| :: masks1[w] == (e.Cell(w).mask != OutputOff(n, e.gs, m1, e.masks, w))
    ensures RunOutputsOff(n, calls, outs, m1, e.masks, o1, o2)
  {
    hide NumAnds, Evaluator.Cell, OutputOff, Stream, OutIds;
  }

  datatype RunResult = Ran(out1: SecureWires, out2: SecureWires) | Refused | CheckFailed

  /** Can the engine run `prog` over these bundles at all? */
  ghost predicate Runnable(prog: Program, in1: SecureWires, in2: SecureWires) {
    && CanonicalProgram(prog)
    && in1.WellShaped(1) && in2.WellShaped(2)
    && |in1.masks| == |in2.masks| == prog.numInputs
  }

  /** A stored program: validated, not trusted. Bundles of the wrong shape or width are refused. */
  method RunProgram(p1: TriplePool, p2: TriplePool, prog: Program, in1: SecureWires, in2: SecureWires, seed: RunSeed,
                    ghost x: seq<bool>)
    returns (r: RunResult, ands: nat)
    requires Linked(p1, p2)
    requires in1.WellShaped(1) && in2.WellShaped(2) ==> Encode(in1, in2, p1.delta, p2.delta, x)
    modifies p1`drawn, p1`mintedSinceCheck, p2`drawn, p2`mintedSinceCheck
    ensures Linked(p1, p2)
    ensures r.Refused? <==> !Runnable(prog, in1, in2)
    ensures !r.Refused? ==> |x| == prog.numInputs == |in1.bundle| && Body(|x|, prog.gates, prog.outputs)
    ensures !r.Refused? ==> (r.CheckFailed? <==>
      !RunUndisturbed(|x|, prog.gates, in1.masks, in2.masks, in1.bundle, FreshMasks(p1.cot, old(p1.drawn))))
    ensures Synced(in1, in2) ==> !r.CheckFailed?
    ensures r.Ran? ==> ands == NumAnds(Stream(|x|, prog.gates)) && !p1.mintedSinceCheck && !p2.mintedSinceCheck
    ensures r.Refused? ==> p1.mintedSinceCheck == old(p1.mintedSinceCheck) && p2.mintedSinceCheck == old(p2.mintedSinceCheck)
    ensures r.Ran? ==> Encode(r.out1, r.out2, p1.delta, p2.delta, Outputs(|x|, prog.gates, x, prog.outputs))
    ensures r.Ran? ==> RunOutputsOff(|x|, prog.gates, prog.outputs, in1.masks, in2.masks, r.out1.masks, r.out2.masks)
    ensures r.Ran? && Synced(in1, in2) && OutputMasksTravel(|x|, prog.gates, prog.outputs) ==> Synced(r.out1, r.out2)
  {
    hide Encode, Linked, Outputs, OutputMasksTravel, Stream, NumAnds, Ordered, ConstsUnique, RunUndisturbed, RunOutputsOff;
    ands := 0;
    var canonical := RequireRecordCanonical(prog);
    if !canonical || !in1.WellShaped(1) || !in2.WellShaped(2)
       || |in1.masks| != prog.numInputs || |in2.masks| != prog.numInputs {
      return Refused, 0;
    }
    EncodedShapes(in1, in2, p1.delta, p2.delta, x);
    var ok, out1, out2;
    ghost var g, e;
    ok, out1, out2, ands, g, e := RunSource(p1, p2, in1, in2, prog.gates, prog.outputs, seed, x);
    r := if ok then Ran(out1, out2) else CheckFailed;
  }
}
