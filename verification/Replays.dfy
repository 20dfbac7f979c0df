/** Live replay equals recorded replay (engine.h, run_program): driving the passes over a body and over the
    body's recording gives the same runs. */
module Replays {
  import opened Blocks
  import opened Shares
  import opened Circuits
  import opened Recordings
  import opened Cells
  import opened RunStates
  import opened Allocators
  import opened TriplePools
  import opened Framing
  import opened SecureWireBundles
  import opened Engines

  /** Two runs placed their wires alike: same last uses and pins, slot map, slot count, and operand shares for the triples. */
  ghost predicate SamePlacement(a: RunState, b: RunState)
    reads a, b
  {
    && a.numInputs == b.numInputs && a.numAnds == b.numAnds && a.lastUse == b.lastUse && a.persist == b.persist
    && a.phys == b.phys && a.numSlots == b.numSlots && a.repA == b.repA && a.repB == b.repB
  }

  /** Every wire that still owns its slot finds the same value there in both slot arrays. */
  ghost predicate SameLive<T>(phys: seq<int>, a: seq<T>, b: seq<T>) {
    forall w | 0 <= w < |phys| && Current(phys, w, |phys|) :: 0 <= phys[w] < |a| && phys[w] < |b| && a[phys[w]] == b[phys[w]]
  }

  /** The next masks of two sessions at the same place are the same. */
  ghost predicate SamePool(p: TriplePool, q: TriplePool)
    reads p`drawn, q`drawn
  {
    p != q && p.party == q.party && p.delta == q.delta && p.cot == q.cot && p.drawn == q.drawn
  }

  lemma HeldAlike<T>(phys: seq<int>, a: seq<T>, b: seq<T>, vals: seq<T>)
    requires |phys| == |vals| && SlotsHold(a, phys, |phys|, vals) && SlotsHold(b, phys, |phys|, vals)
    ensures SameLive(phys, a, b)
  {
  }

  lemma PlacedAlike(a: RunState, b: RunState, win: SecureWires, gs: seq<Gate>, ids: seq<nat>, lg: nat -> Share)
    requires Prepared(a, win, gs, ids, lg) && Prepared(b, win, gs, ids, lg) && a.numInputs == b.numInputs
    requires Footprint(a, gs, ids) && Footprint(b, gs, ids)
    ensures SamePlacement(a, b) && SameLive(a.phys, a.wireSlot, b.wireSlot) && SameLive(a.phys, a.maskInput, b.maskInput)
  {
    hide AllShares, AllInitialMasks, OperandShares, LastUse, Persists, SlotsHold, Allocated, Permanent, Peak, Canonical, SameLive;
    HeldAlike(a.phys, a.wireSlot, b.wireSlot, AllShares(a.numInputs, gs, win.bundle, lg));
    HeldAlike(a.phys, a.maskInput, b.maskInput, AllInitialMasks(a.numInputs, gs, win.masks));
  }

  /** Liveness and slot/mask over a body and over its recording: the same output wires, placement, and live cells. */
  method PrepareBothWays(live: TriplePool, stored: TriplePool, win: SecureWires, calls: seq<Gate>, outs: seq<nat>)
    returns (a: RunState, b: RunState, ids: seq<nat>, ghost lg: nat -> Share)
    requires SamePool(live, stored) && win.WellShaped(live.party) && Body(|win.masks|, calls, outs)
    modifies live`drawn, live`mintedSinceCheck, stored`drawn, stored`mintedSinceCheck
    ensures SamePool(live, stored) && fresh(a) && fresh(b) && a != b && ids == OutIds(|win.masks|, calls, outs)
    ensures a.party == b.party == live.party && a.delta == b.delta == live.delta && a.numInputs == b.numInputs == |win.masks|
    ensures Prepared(a, win, Stream(|win.masks|, calls), ids, lg) && Prepared(b, win, Stream(|win.masks|, calls), ids, lg)
    ensures SamePlacement(a, b) && SameLive(a.phys, a.wireSlot, b.wireSlot) && SameLive(a.phys, a.maskInput, b.maskInput)
  {
    hide Prepared, Footprint, Stream, OutIds, Ordered, SamePlacement, SameLive, NumAnds, ConstsUnique, FreshMasks;
    var n := |win.masks|;
    RecordingReplaysItself(n, calls, outs);
    ghost var lg', ids';
    var rec, recIds := Stream(n, calls), OutIds(n, calls, outs);
    a, ids, lg := Prepare(live, win, calls, outs);
    b, ids', lg' := Prepare(stored, win, rec, recIds);
    PlacedAlike(a, b, win, rec, ids, lg);
  }

  /** The garbler: the same ciphertexts and parity bits on the wire, the same placement, and the same live shares and labels. */
  method GarbleBothWays(live: TriplePool, stored: TriplePool, win: SecureWires, calls: seq<Gate>, outs: seq<nat>,
                        sigma: seq<Share>, h: TweakedHash)
    returns (a: RunState, b: RunState, sentA: seq<Item>, sentB: seq<Item>, ghost ids: seq<nat>, ghost g: Garbler)
    requires SamePool(live, stored) && live.party == 1 && win.WellShaped(1) && Body(|win.masks|, calls, outs)
    requires |sigma| == NumAnds(Stream(|win.masks|, calls))
    modifies live`drawn, live`mintedSinceCheck, stored`drawn, stored`mintedSinceCheck
    ensures sentA == sentB && SamePlacement(a, b) && fresh(a) && fresh(b) && a != b
    ensures g.n == |win.masks| && g.gs == Stream(g.n, calls) && g.shares == win.bundle && g.sigma == sigma
    ensures GarblerDone(a, win, ids, g) && GarblerDone(b, win, ids, g)
    ensures SameLive(a.phys, a.wireSlot, b.wireSlot) && SameLive(a.phys, a.labelSlot, b.labelSlot)
    ensures SameLive(a.phys, a.maskInput, b.maskInput)
  {
    hide Prepared, Stream, OutIds, Ordered, ConstsUnique, NumAnds, GarblerDone, Framed, Garbler.Entries, SameLive;
    var n := |win.masks|;
    RecordingReplaysItself(n, calls, outs);
    ghost var lg;
    a, b, ids, lg := PrepareBothWays(live, stored, win, calls, outs);
    g := GarblerOf(n, Stream(n, calls), win, lg, sigma, a.delta, h);
    sentA := GarblerPhase(a, win, calls, ids, lg, sigma, h, g);
    sentB := GarblerPhase(b, win, Stream(n, calls), ids, lg, sigma, h, g);
    GarbledAlike(a, b, win, ids, g);
  }

  lemma GarbledAlike(a: RunState, b: RunState, win: SecureWires, ids: seq<nat>, g: Garbler)
    requires GarblerDone(a, win, ids, g) && GarblerDone(b, win, ids, g) && a.phys == b.phys
    ensures SameLive(a.phys, a.wireSlot, b.wireSlot) && SameLive(a.phys, a.labelSlot, b.labelSlot)
    ensures SameLive(a.phys, a.maskInput, b.maskInput)
  {
    hide AllShares, AllInitialMasks, SlotsHold, Allocated, SameLive, Garbler.AllLabels, NumAnds;
    HeldAlike(a.phys, a.wireSlot, b.wireSlot, AllShares(g.n, g.gs, g.shares, g.lg));
    HeldAlike(a.phys, a.labelSlot, b.labelSlot, g.AllLabels());
    HeldAlike(a.phys, a.maskInput, b.maskInput, AllInitialMasks(g.n, g.gs, win.masks));
  }

  /** The garbler's c_gamma re-check from the same received AND masks: the same witnesses to compare with the evaluator's, the
      same placement, and the same live shares and re-propagated masks. */
  method CheckBothWays(live: TriplePool, stored: TriplePool, win: SecureWires, calls: seq<Gate>, outs: seq<nat>,
                       sigma: seq<Share>, h: TweakedHash, received: seq<bool>)
    returns (a: RunState, b: RunState)
    requires SamePool(live, stored) && live.party == 1 && win.WellShaped(1) && Body(|win.masks|, calls, outs)
    requires |sigma| == NumAnds(Stream(|win.masks|, calls)) == |received|
    modifies live`drawn, live`mintedSinceCheck, stored`drawn, stored`mintedSinceCheck
    ensures SamePlacement(a, b)
    ensures a.numAnds <= |a.m1t| && a.numAnds <= |b.m1t| && a.m1t[..a.numAnds] == b.m1t[..a.numAnds]
    ensures SameLive(a.phys, a.wireSlot, b.wireSlot) && SameLive(a.phys, a.maskInput, b.maskInput)
  {
    hide Stream, OutIds, Ordered, ConstsUnique, AndsBefore, SameLive, SlotsHold, Allocated, Checker.AllMasks;
    hide AllShares, AllInitialMasks, Checker.Witnesses;
    var n, rec := |win.masks|, Stream(|win.masks|, calls);
    RecordingReplaysItself(n, calls, outs);
    var sentA, sentB;
    ghost var ids, g;
    a, b, sentA, sentB, ids, g := GarbleBothWays(live, stored, win, calls, outs, sigma, h);
    if a.numAnds > 0 {
      ghost var c := Checker(n, rec, win.bundle, win.masks, g.lg, sigma, received);
      CheckPhase(a, win, calls, ids, g.lg, received, c);
      CheckPhase(b, win, rec, ids, g.lg, received, c);
      CheckedAlike(a, b, c);
    }
  }

  lemma CheckedAlike(a: RunState, b: RunState, c: Checker)
    requires c.Ok() && |a.phys| == c.n + |c.gs| && a.phys == b.phys && a.numAnds == b.numAnds == NumAnds(c.gs)
    requires SlotsHold(a.wireSlot, a.phys, c.n + |c.gs|, AllShares(c.n, c.gs, c.shares, c.lg))
    requires SlotsHold(b.wireSlot, a.phys, c.n + |c.gs|, AllShares(c.n, c.gs, c.shares, c.lg))
    requires SlotsHold(a.maskInput, a.phys, c.n + |c.gs|, c.AllMasks())
    requires SlotsHold(b.maskInput, a.phys, c.n + |c.gs|, c.AllMasks())
    requires c.Witnesses(|c.gs|) <= a.m1t && c.Witnesses(|c.gs|) <= b.m1t
    ensures a.numAnds <= |a.m1t| && a.numAnds <= |b.m1t| && a.m1t[..a.numAnds] == b.m1t[..a.numAnds]
    ensures SameLive(a.phys, a.wireSlot, b.wireSlot) && SameLive(a.phys, a.maskInput, b.maskInput)
  {
    hide AllShares, SlotsHold, SameLive, Checker.AllMasks, Checker.Witnesses, AndsBefore;
    HeldAlike(a.phys, a.wireSlot, b.wireSlot, AllShares(c.n, c.gs, c.shares, c.lg));
    HeldAlike(a.phys, a.maskInput, b.maskInput, c.AllMasks());
  }

  /** The evaluator, over the same received stream: the same placement, the same live shares, labels and masks, and the same AND
      masks and witnesses for the check. */
  method EvaluateBothWays(live: TriplePool, stored: TriplePool, win: SecureWires, calls: seq<Gate>, outs: seq<nat>,
                          sigma: seq<Share>, h: TweakedHash, items: seq<Item>, ghost stream: seq<Entry>)
    returns (a: RunState, b: RunState)
    requires SamePool(live, stored) && live.party == 2 && win.WellShaped(2) && Body(|win.masks|, calls, outs)
    requires |sigma| == NumAnds(Stream(|win.masks|, calls)) == |stream| && items == Framed(stream)
    modifies live`drawn, live`mintedSinceCheck, stored`drawn, stored`mintedSinceCheck
    ensures SamePlacement(a, b) && SameLive(a.phys, a.wireSlot, b.wireSlot) && SameLive(a.phys, a.evalSlot, b.evalSlot)
    ensures SameLive(a.phys, a.maskInput, b.maskInput)
    ensures a.numAnds <= |a.lambdaAnd| && a.numAnds <= |b.lambdaAnd| && a.lambdaAnd[..a.numAnds] == b.lambdaAnd[..a.numAnds]
    ensures a.numAnds <= |a.m1t| && a.numAnds <= |b.m1t| && a.m1t[..a.numAnds] == b.m1t[..a.numAnds]
  {
    hide Prepared, Stream, OutIds, Ordered, ConstsUnique, NumAnds, EvaluatorDone, Framed, SameLive;
    var n := |win.masks|;
    RecordingReplaysItself(n, calls, outs);
    var ids;
    ghost var lg;
    a, b, ids, lg := PrepareBothWays(live, stored, win, calls, outs);
    ghost var e := Evaluator(n, Stream(n, calls), win.bundle, win.evalLabel, win.masks, lg, sigma, a.delta, h, stream);
    EvaluatorPhase(a, win, calls, ids, lg, sigma, h, items, e);
    EvaluatorPhase(b, win, Stream(n, calls), ids, lg, sigma, h, items, e);
    EvaluatedAlike(a, b, ids, e);
  }

  lemma EvaluatedAlike(a: RunState, b: RunState, ids: seq<nat>, e: Evaluator)
    requires EvaluatorDone(a, ids, e) && EvaluatorDone(b, ids, e) && a.phys == b.phys
    ensures SameLive(a.phys, a.wireSlot, b.wireSlot) && SameLive(a.phys, a.evalSlot, b.evalSlot)
    ensures SameLive(a.phys, a.maskInput, b.maskInput)
    ensures a.numAnds <= |a.lambdaAnd| && a.numAnds <= |b.lambdaAnd| && a.lambdaAnd[..a.numAnds] == b.lambdaAnd[..a.numAnds]
    ensures a.numAnds <= |a.m1t| && a.numAnds <= |b.m1t| && a.m1t[..a.numAnds] == b.m1t[..a.numAnds]
  {
    hide AllShares, SlotsHold, Allocated, SameLive, Evaluator.AllLabels, Evaluator.AllMasks, Evaluator.AndMasks, Evaluator.Witnesses;
    HeldAlike(a.phys, a.wireSlot, b.wireSlot, AllShares(e.n, e.gs, e.shares, e.lg));
    HeldAlike(a.phys, a.evalSlot, b.evalSlot, e.AllLabels());
    HeldAlike(a.phys, a.maskInput, b.maskInput, e.AllMasks());
  }
}
