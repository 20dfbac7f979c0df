/** What a flush does to the opened masks, read off the chunk it flushes: when its c_gamma check passes, and for which kept
    wires the two parties' masks then differ. */
module FlushMasks {
  import opened Blocks
  import opened Shares
  import opened Circuits
  import opened Cells
  import opened MaskOffsets
  import opened Recordings
  import opened Engines
  import opened FlushPlans
  import opened Flushes

  /** The difference a gate gives its output under the differences `v`: linear gates pass it on, the others drop it. */
  predicate GateOffset(g: Gate, v: nat -> bool) {
    match g.op
    case XorOp => v(g.in0) != v(g.in1)
    case NotOp => v(g.in0)
    case _ => false
  }

  /** The share of a gate's output; `drawn` is the one an AND takes. */
  function GateShare(g: Gate, v: nat -> Share, drawn: Share): Share {
    match g.op
    case AndOp => drawn
    case XorOp => XorShare(v(g.in0), v(g.in1))
    case NotOp => v(g.in0)
    case _ => NO_SHARE
  }

  /** Where the parties' masks differ after the chunk's first `k` gates, if they differ at `env` before it. */
  ghost function ChunkOffsets(gs: seq<Gate>, env: nat -> bool, k: nat): nat -> bool
    requires k <= |gs|
  {
    if k == 0 then env else
    var before := ChunkOffsets(gs, env, k - 1);
    (w: nat) => if w == gs[k - 1].out then GateOffset(gs[k - 1], before) else before(w)
  }

  /** The garbler's shares after the chunk's first `k` gates; the needed ANDs take the fresh masks `lg` in order. */
  ghost function ChunkShares(gs: seq<Gate>, keeps: seq<nat>, env: nat -> Share, lg: nat -> Share, k: nat): nat -> Share
    requires k <= |gs|
  {
    if k == 0 then env else
    var before := ChunkShares(gs, keeps, env, lg, k - 1);
    (w: nat) => if w == gs[k - 1].out then GateShare(gs[k - 1], before, lg(NeededAnds(gs, keeps, k - 1))) else before(w)
  }

  /** No needed AND of the chunk is disturbed by the differences `offs` over the garbler's shares `sh`. */
  ghost predicate NoneDisturbed(gs: seq<Gate>, keeps: seq<nat>, offs: nat -> bool, sh: nat -> Share) {
    forall k | 0 <= k < |gs| && gs[k].op == AndOp && Needed(gs, keeps, k) ::
      Sel(offs(gs[k].in0), sh(gs[k].in1).mac) == Sel(offs(gs[k].in1), sh(gs[k].in0).mac)
  }

  /** Two honest parties pass the c_gamma check of a flush, from the differences `offs` and the garbler's shares `sh` of the
      wires carried before. */
  ghost predicate ChunkUndisturbed(gs: seq<Gate>, keeps: seq<nat>, offs: nat -> bool, sh: nat -> Share, lg: nat -> Share) {
    NoneDisturbed(gs, keeps, ChunkOffsets(gs, offs, |gs|), ChunkShares(gs, keeps, sh, lg, |gs|))
  }

  ghost predicate DrivenByConst(gs: seq<Gate>, w: nat) {
    exists k | 0 <= k < |gs| :: gs[k].out == w && gs[k].IsConst()
  }

  /** Do the parties' masks of the kept wire `w` differ after a flush? With a needed AND, when a difference reached it; without
      one, when it is not a constant and the chunk computes 1 there from the evaluator's masks. */
  ghost predicate ChunkOutputOff(gs: seq<Gate>, keeps: seq<nat>, offs: nat -> bool, masks: nat -> bool, w: nat) {
    if NeededAnds(gs, keeps, |gs|) > 0 then ChunkOffsets(gs, offs, |gs|)(w)
    else !DrivenByConst(gs, w) && ChunkValues(gs, masks, |gs|)(w)
  }

  // ---- running a chunk in order ----

  ghost predicate OffsetsOf(gs: seq<Gate>, v: nat -> bool, k: nat)
    requires k <= |gs|
  {
    forall j | 0 <= j < k :: v(gs[j].out) == GateOffset(gs[j], v)
  }

  ghost predicate SharesOf(gs: seq<Gate>, keeps: seq<nat>, v: nat -> Share, lg: nat -> Share, k: nat)
    requires k <= |gs|
  {
    forall j | 0 <= j < k :: v(gs[j].out) == GateShare(gs[j], v, lg(NeededAnds(gs, keeps, j)))
  }

  lemma {:induction false} RunningOffsets(gs: seq<Gate>, env: nat -> bool, k: nat)
    requires Chunk(gs) && k <= |gs|
    ensures OffsetsOf(gs, ChunkOffsets(gs, env, k), k)
    ensures forall w: nat | (forall j | 0 <= j < k :: gs[j].out != w) :: ChunkOffsets(gs, env, k)(w) == env(w)
  {
    hide ConstsUnique, GateOffset;
    if k > 0 {
      RunningOffsets(gs, env, k - 1);
      var before, v := ChunkOffsets(gs, env, k - 1), ChunkOffsets(gs, env, k);
      forall j | 0 <= j < k
        ensures v(gs[j].out) == GateOffset(gs[j], v)
      {
        assert j < k - 1 ==> gs[j].out < gs[k - 1].out;
        SameOperandsSameOffset(gs[j], before, v);
      }
    }
  }

  lemma SameOperandsSameOffset(g: Gate, v: nat -> bool, w: nat -> bool)
    requires !g.IsConst() ==> v(g.in0) == w(g.in0) && (g.op != NotOp ==> v(g.in1) == w(g.in1))
    ensures GateOffset(g, v) == GateOffset(g, w)
  {
  }

  lemma {:induction false} RunningShares(gs: seq<Gate>, keeps: seq<nat>, env: nat -> Share, lg: nat -> Share, k: nat)
    requires Chunk(gs) && k <= |gs|
    ensures SharesOf(gs, keeps, ChunkShares(gs, keeps, env, lg, k), lg, k)
    ensures forall w: nat | (forall j | 0 <= j < k :: gs[j].out != w) :: ChunkShares(gs, keeps, env, lg, k)(w) == env(w)
  {
    hide ConstsUnique, GateShare, NeededAnds;
    if k > 0 {
      RunningShares(gs, keeps, env, lg, k - 1);
      var before, v := ChunkShares(gs, keeps, env, lg, k - 1), ChunkShares(gs, keeps, env, lg, k);
      forall j | 0 <= j < k
        ensures v(gs[j].out) == GateShare(gs[j], v, lg(NeededAnds(gs, keeps, j)))
      {
        assert j < k - 1 ==> gs[j].out < gs[k - 1].out;
        SameOperandsSameShare(gs[j], before, v, lg(NeededAnds(gs, keeps, j)));
      }
    }
  }

  lemma SameOperandsSameShare(g: Gate, v: nat -> Share, w: nat -> Share, drawn: Share)
    requires !g.IsConst() ==> v(g.in0) == w(g.in0) && (g.op != NotOp ==> v(g.in1) == w(g.in1))
    ensures GateShare(g, v, drawn) == GateShare(g, w, drawn)
  {
  }

  // ---- the plan's program against the chunk ----

  /** Each wire of the compacted program differs where the recorder id it renames does. */
  lemma {:induction false} PlanKeepsOffsets(gs: seq<Gate>, keeps: seq<nat>, plan: FlushPlan, kept: seq<nat>, origin: seq<nat>,
                                            v: nat -> bool, offs: seq<bool>, c: nat)
    requires Plans(gs, keeps, plan, kept, origin) && OffsetsOf(gs, v, |gs|) && c < |origin| && CanonicalProgram(plan.prog)
    requires |offs| == |plan.inputIds| && forall i | 0 <= i < |offs| :: offs[i] == v(plan.inputIds[i])
    ensures Offset(|offs|, plan.prog.gates, offs, c) == v(origin[c])
    decreases c
  {
    hide Needed, ConstsUnique;
    if c < |offs| {
      assert origin[..|offs|][c] == origin[c];
    } else {
      var g := plan.prog.gates[c - |offs|];
      assert Renamed(g, gs[kept[c - |offs|]], c, origin);
      if !g.IsConst() {
        PlanKeepsOffsets(gs, keeps, plan, kept, origin, v, offs, g.in0);
        if g.op != NotOp {
          PlanKeepsOffsets(gs, keeps, plan, kept, origin, v, offs, g.in1);
        }
      }
    }
  }

  /** Compacted gate `i` comes after exactly the needed ANDs before the gate it renames. */
  lemma AndsBeforeKept(gs: seq<Gate>, keeps: seq<nat>, plan: FlushPlan, kept: seq<nat>, origin: seq<nat>, i: nat)
    requires Plans(gs, keeps, plan, kept, origin) && i < |kept| == |plan.prog.gates|
    ensures kept[i] < |gs| && AndsBefore(plan.prog.gates, i) == NeededAnds(gs, keeps, kept[i])
  {
    hide Needed, Renamed;
    var j := AndsOfPrefix(gs, keeps, plan, kept, origin, kept[i]);
    assert j >= i;
  }

  /** Each wire of the compacted program has the garbler's share of the recorder id it renames. */
  lemma {:induction false} PlanKeepsShares(gs: seq<Gate>, keeps: seq<nat>, plan: FlushPlan, kept: seq<nat>, origin: seq<nat>,
                                           v: nat -> Share, lg: nat -> Share, ins: seq<Share>, c: nat)
    requires Plans(gs, keeps, plan, kept, origin) && SharesOf(gs, keeps, v, lg, |gs|) && c < |origin| && CanonicalProgram(plan.prog)
    requires |ins| == |plan.inputIds| && forall i | 0 <= i < |ins| :: ins[i] == v(plan.inputIds[i])
    ensures ShareOf(|ins|, plan.prog.gates, ins, lg, c) == v(origin[c])
    decreases c
  {
    hide Needed, ConstsUnique, NeededAnds, XorShare, AndsBefore;
    if c < |ins| {
      assert origin[..|ins|][c] == origin[c];
    } else {
      var g := plan.prog.gates[c - |ins|];
      assert Renamed(g, gs[kept[c - |ins|]], c, origin);
      AndsBeforeKept(gs, keeps, plan, kept, origin, c - |ins|);
      if g.op == XorOp || g.op == NotOp {
        PlanKeepsShares(gs, keeps, plan, kept, origin, v, lg, ins, g.in0);
        if g.op != NotOp {
          PlanKeepsShares(gs, keeps, plan, kept, origin, v, lg, ins, g.in1);
        }
      }
    }
  }

  /** The planned program is disturbed exactly when the chunk is. */
  lemma PlanUndisturbedIff(gs: seq<Gate>, keeps: seq<nat>, plan: FlushPlan, kept: seq<nat>, origin: seq<nat>,
                           v: nat -> bool, sh: nat -> Share, lg: nat -> Share, offs: seq<bool>, ins: seq<Share>)
    requires Plans(gs, keeps, plan, kept, origin) && CanonicalProgram(plan.prog)
    requires OffsetsOf(gs, v, |gs|) && SharesOf(gs, keeps, sh, lg, |gs|) && |offs| == |ins| == |plan.inputIds|
    requires forall i | 0 <= i < |offs| :: offs[i] == v(plan.inputIds[i]) && ins[i] == sh(plan.inputIds[i])
    ensures Undisturbed(|offs|, plan.prog.gates, offs, ins, lg) <==> NoneDisturbed(gs, keeps, v, sh)
  {
    hide Needed, ConstsUnique, OffsetsOf, SharesOf, Offset, ShareOf, Sel, Ordered;
    var n, cgs := |offs|, plan.prog.gates;
    forall i | 0 <= i < |cgs| && cgs[i].op == AndOp
      ensures kept[i] < |gs| && gs[kept[i]].op == AndOp && kept[i] in kept
      ensures UndisturbedAt(n, cgs, offs, ins, lg, i)
         <==> Sel(v(gs[kept[i]].in0), sh(gs[kept[i]].in1).mac) == Sel(v(gs[kept[i]].in1), sh(gs[kept[i]].in0).mac)
    {
      var g := cgs[i];
      assert Renamed(g, gs[kept[i]], n + i, origin);
      PlanKeepsOffsets(gs, keeps, plan, kept, origin, v, offs, g.in0);
      PlanKeepsOffsets(gs, keeps, plan, kept, origin, v, offs, g.in1);
      PlanKeepsShares(gs, keeps, plan, kept, origin, sh, lg, ins, g.in0);
      PlanKeepsShares(gs, keeps, plan, kept, origin, sh, lg, ins, g.in1);
    }
    forall k | 0 <= k < |gs| && gs[k].op == AndOp && Needed(gs, keeps, k)
      ensures exists i | 0 <= i < |cgs| :: kept[i] == k && cgs[i].op == AndOp
    {
      var i :| 0 <= i < |kept| && kept[i] == k;
      assert Renamed(cgs[i], gs[kept[i]], n + i, origin);
    }
  }

  // ---- a canonical program against its own replay ----

  ghost predicate SameGates(a: seq<Gate>, b: seq<Gate>) {
    |a| == |b| && forall j | 0 <= j < |a| :: SameGate(a[j], b[j])
  }

  lemma ReplayIsSame(n: nat, gs: seq<Gate>)
    requires Canonical(n, gs)
    ensures Canonical(n, Stream(n, gs)) && SameGates(Stream(n, gs), gs) && NumAnds(Stream(n, gs)) == NumAnds(gs)
  {
    hide ConstsUnique, Record, RecordingOk, NumAnds;
    RecordingIsIdempotent(n, gs);
    CanonicalReplaysAsItself(n, gs, |gs|);
    StreamAnds(n, gs);
  }

  lemma {:induction false} SameOffset(n: nat, a: seq<Gate>, b: seq<Gate>, offs: seq<bool>, w: nat)
    requires Ordered(n, a) && Ordered(n, b) && SameGates(a, b) && |offs| == n && w < n + |a|
    ensures Offset(n, a, offs, w) == Offset(n, b, offs, w)
    decreases w
  {
    if w >= n && !b[w - n].IsConst() {
      assert SameGate(a[w - n], b[w - n]);
      SameOffset(n, a, b, offs, b[w - n].in0);
      if b[w - n].op != NotOp {
        SameOffset(n, a, b, offs, b[w - n].in1);
      }
    } else if w >= n {
      assert SameGate(a[w - n], b[w - n]);
    }
  }

  lemma {:induction false} SamePlain(n: nat, a: seq<Gate>, b: seq<Gate>, x: seq<bool>, w: nat)
    requires Ordered(n, a) && Ordered(n, b) && SameGates(a, b) && |x| == n && w < n + |a|
    ensures Plain(n, a, x, w) == Plain(n, b, x, w)
    decreases w
  {
    if w >= n {
      assert SameGate(a[w - n], b[w - n]);
      if !b[w - n].IsConst() {
        SamePlain(n, a, b, x, b[w - n].in0);
        if b[w - n].op != NotOp {
          SamePlain(n, a, b, x, b[w - n].in1);
        }
      }
    }
  }

  lemma {:induction false} SameShare(n: nat, a: seq<Gate>, b: seq<Gate>, ins: seq<Share>, lg: nat -> Share, w: nat)
    requires Ordered(n, a) && Ordered(n, b) && SameGates(a, b) && |ins| == n && w < n + |a|
    ensures ShareOf(n, a, ins, lg, w) == ShareOf(n, b, ins, lg, w)
    decreases w
  {
    hide XorShare, AndsBefore;
    if w >= n {
      assert SameGate(a[w - n], b[w - n]);
      SameOpsSameAnds(a, b, w - n);
      if !b[w - n].IsConst() {
        SameShare(n, a, b, ins, lg, b[w - n].in0);
        if b[w - n].op != NotOp {
          SameShare(n, a, b, ins, lg, b[w - n].in1);
        }
      }
    }
  }

  lemma SameUndisturbed(n: nat, a: seq<Gate>, b: seq<Gate>, offs: seq<bool>, ins: seq<Share>, lg: nat -> Share)
    requires Ordered(n, a) && Ordered(n, b) && SameGates(a, b) && |offs| == |ins| == n
    ensures Undisturbed(n, a, offs, ins, lg) <==> Undisturbed(n, b, offs, ins, lg)
  {
    hide Offset, ShareOf, Sel;
    forall k | 0 <= k < |a| && a[k].op == AndOp
      ensures b[k].op == AndOp && (UndisturbedAt(n, a, offs, ins, lg, k) <==> UndisturbedAt(n, b, offs, ins, lg, k))
    {
      assert SameGate(a[k], b[k]);
      SameOffset(n, a, b, offs, b[k].in0);
      SameOffset(n, a, b, offs, b[k].in1);
      SameShare(n, a, b, ins, lg, b[k].in0);
      SameShare(n, a, b, ins, lg, b[k].in1);
    }
    forall k | 0 <= k < |b| && b[k].op == AndOp
      ensures a[k].op == AndOp
    {
      assert SameGate(a[k], b[k]);
    }
    hide UndisturbedAt, Ordered;
  }

  lemma SameOutputOff(n: nat, a: seq<Gate>, b: seq<Gate>, m1: seq<bool>, m2: seq<bool>, w: nat)
    requires Ordered(n, a) && Ordered(n, b) && SameGates(a, b) && NumAnds(a) == NumAnds(b) && |m1| == |m2| == n && w < n + |a|
    ensures OutputOff(n, a, m1, m2, w) == OutputOff(n, b, m1, m2, w)
  {
    hide NumAnds, Offset, Plain;
    SameOffset(n, a, b, Differences(m1, m2), w);
    SamePlain(n, a, b, m2, w);
    assert w >= n ==> SameGate(a[w - n], b[w - n]);
  }

  // ---- the run of a plan, in terms of the chunk ----

  /** The check of the planned run passes exactly when no needed AND of the chunk is disturbed. */
  lemma FlushPassesIff(gs: seq<Gate>, keeps: seq<nat>, plan: FlushPlan, kept: seq<nat>, origin: seq<nat>,
                       offs: nat -> bool, sh: nat -> Share, lg: nat -> Share, m1: seq<bool>, m2: seq<bool>, ins: seq<Share>)
    requires Chunk(gs) && Plans(gs, keeps, plan, kept, origin) && CanonicalProgram(plan.prog)
    requires forall i | 0 <= i < |plan.inputIds| :: !Local(gs, plan.inputIds[i])
    requires |m1| == |m2| == |ins| == |plan.inputIds|
    requires forall i | 0 <= i < |ins| :: (m1[i] != m2[i]) == offs(plan.inputIds[i]) && ins[i] == sh(plan.inputIds[i])
    ensures Ordered(|ins|, plan.prog.gates)
    ensures RunUndisturbed(|ins|, plan.prog.gates, m1, m2, ins, lg) <==> ChunkUndisturbed(gs, keeps, offs, sh, lg)
  {
    hide Needed, ConstsUnique, Plans, ChunkOffsets, ChunkShares, Undisturbed, NoneDisturbed, OffsetsOf, SharesOf;
    PlanShape(gs, keeps, plan, kept, origin);
    RunningOffsets(gs, offs, |gs|);
    RunningShares(gs, keeps, sh, lg, |gs|);
    var n, d := |ins|, Differences(m1, m2);
    forall i | 0 <= i < n
      ensures d[i] == ChunkOffsets(gs, offs, |gs|)(plan.inputIds[i]) && ins[i] == ChunkShares(gs, keeps, sh, lg, |gs|)(plan.inputIds[i])
    {
      assert !Local(gs, plan.inputIds[i]);
    }
    PlanUndisturbedIff(gs, keeps, plan, kept, origin, ChunkOffsets(gs, offs, |gs|), ChunkShares(gs, keeps, sh, lg, |gs|), lg, d, ins);
    ReplayIsSame(n, plan.prog.gates);
    SameUndisturbed(n, Stream(n, plan.prog.gates), plan.prog.gates, d, ins, lg);
  }

  lemma PlanShape(gs: seq<Gate>, keeps: seq<nat>, plan: FlushPlan, kept: seq<nat>, origin: seq<nat>)
    requires Plans(gs, keeps, plan, kept, origin)
    ensures plan.prog.numInputs == |plan.inputIds| && |plan.prog.outputs| == |plan.outputIds|
    ensures |origin| == |plan.inputIds| + |plan.prog.gates|
    ensures forall i | 0 <= i < |plan.outputIds| ::
      plan.prog.outputs[i] < |origin| && origin[plan.prog.outputs[i]] == plan.outputIds[i]
  {
    hide Needed, Renamed;
  }

  /** The masks of the planned run's outputs differ exactly where the chunk says. */
  lemma FlushOutputsOff(gs: seq<Gate>, keeps: seq<nat>, plan: FlushPlan, kept: seq<nat>, origin: seq<nat>,
                        offs: nat -> bool, masks: nat -> bool, m1: seq<bool>, m2: seq<bool>, o1: seq<bool>, o2: seq<bool>)
    requires Chunk(gs) && Plans(gs, keeps, plan, kept, origin) && CanonicalProgram(plan.prog)
    requires forall i | 0 <= i < |plan.inputIds| :: !Local(gs, plan.inputIds[i])
    requires forall i | 0 <= i < |plan.outputIds| :: Local(gs, plan.outputIds[i])
    requires |m1| == |m2| == |plan.inputIds|
    requires forall i | 0 <= i < |m1| :: (m1[i] != m2[i]) == offs(plan.inputIds[i]) && m2[i] == masks(plan.inputIds[i])
    requires Body(|m1|, plan.prog.gates, plan.prog.outputs)
    requires RunOutputsOff(|m1|, plan.prog.gates, plan.prog.outputs, m1, m2, o1, o2)
    ensures |o1| == |o2| == |plan.outputIds|
    ensures forall i | 0 <= i < |plan.outputIds| :: (o1[i] != o2[i]) == ChunkOutputOff(gs, keeps, offs, masks, plan.outputIds[i])
  {
    hide Needed, Plans, ChunkOutputOff, OutputOff, Local, Record, ConstsUnique;
    PlanShape(gs, keeps, plan, kept, origin);
    var n, cgs, outs := |m1|, plan.prog.gates, plan.prog.outputs;
    ReplayIsSame(n, cgs);
    CanonicalReplaysAsItself(n, cgs, |cgs|);
    forall i | 0 <= i < |plan.outputIds|
      ensures (o1[i] != o2[i]) == ChunkOutputOff(gs, keeps, offs, masks, plan.outputIds[i])
    {
      assert OutIds(n, cgs, outs)[i] == outs[i];
      SameOutputOff(n, Stream(n, cgs), cgs, m1, m2, outs[i]);
      OutputOffIff(gs, keeps, plan, kept, origin, offs, masks, m1, m2, i);
    }
  }

  lemma OutputOffIff(gs: seq<Gate>, keeps: seq<nat>, plan: FlushPlan, kept: seq<nat>, origin: seq<nat>,
                     offs: nat -> bool, masks: nat -> bool, m1: seq<bool>, m2: seq<bool>, i: nat)
    requires Chunk(gs) && Plans(gs, keeps, plan, kept, origin) && CanonicalProgram(plan.prog)
    requires forall j | 0 <= j < |plan.inputIds| :: !Local(gs, plan.inputIds[j])
    requires |m1| == |m2| == |plan.inputIds| && i < |plan.outputIds| && Local(gs, plan.outputIds[i])
    requires forall j | 0 <= j < |m1| :: (m1[j] != m2[j]) == offs(plan.inputIds[j]) && m2[j] == masks(plan.inputIds[j])
    ensures plan.prog.outputs[i] < |m1| + |plan.prog.gates|
    ensures OutputOff(|m1|, plan.prog.gates, m1, m2, plan.prog.outputs[i]) <==> ChunkOutputOff(gs, keeps, offs, masks, plan.outputIds[i])
  {
    hide Needed, Plans, Offset, Plain, NumAnds, NeededAnds, ChunkOffsets, ChunkValues, ConstsUnique, OffsetsOf;
    PlanShape(gs, keeps, plan, kept, origin);
    var n, cgs, c := |m1|, plan.prog.gates, plan.prog.outputs[i];
    PlanAnds(gs, keeps, plan, kept, origin);
    StreamAnds(n, cgs);
    RunningOffsets(gs, offs, |gs|);
    var d := Differences(m1, m2);
    forall j | 0 <= j < n
      ensures d[j] == ChunkOffsets(gs, offs, |gs|)(plan.inputIds[j])
    {
      assert !Local(gs, plan.inputIds[j]);
    }
    PlanKeepsOffsets(gs, keeps, plan, kept, origin, ChunkOffsets(gs, offs, |gs|), d, c);
    PlanKeepsMeaning(gs, keeps, plan, kept, origin, masks, m2, i);
    OutputIsGate(gs, keeps, plan, kept, origin, i);
  }

  /** An output of a plan is one of its gates, and a constant exactly when its recorder id is. */
  lemma OutputIsGate(gs: seq<Gate>, keeps: seq<nat>, plan: FlushPlan, kept: seq<nat>, origin: seq<nat>, i: nat)
    requires Chunk(gs) && Plans(gs, keeps, plan, kept, origin) && CanonicalProgram(plan.prog)
    requires forall j | 0 <= j < |plan.inputIds| :: !Local(gs, plan.inputIds[j])
    requires i < |plan.outputIds| && Local(gs, plan.outputIds[i])
    ensures var n, c := |plan.inputIds|, plan.prog.outputs[i];
      && n <= c < n + |plan.prog.gates|
      && (plan.prog.gates[c - n].IsConst() <==> DrivenByConst(gs, plan.outputIds[i]))
      && forall m | |m| == n :: plan.prog.gates[c - n].IsConst() ==>
           Plain(n, plan.prog.gates, m, c) == (plan.prog.gates[c - n].op == Const1)
  {
    hide Needed, Canonical, ConstsUnique;
    var n, c := |plan.inputIds|, plan.prog.outputs[i];
    assert forall j | 0 <= j < n :: origin[j] == plan.inputIds[j] by {
      assert forall j | 0 <= j < n :: origin[..n][j] == origin[j];
    }
    assert Renamed(plan.prog.gates[c - n], gs[kept[c - n]], c, origin);
  }

  // ---- agreed wires ----

  /** When the parties agree on everything the needed gates read from outside, no difference arises at any needed gate. */
  lemma {:induction false} NoOffsets(gs: seq<Gate>, keeps: seq<nat>, v: nat -> bool, k: nat)
    requires Chunk(gs) && OffsetsOf(gs, v, |gs|) && k < |gs| && Needed(gs, keeps, k)
    requires forall w | External(gs, keeps, w) :: !v(w)
    ensures forall w | gs[k].Reads(w) :: !v(w)
    ensures !v(gs[k].out)
  {
    hide ConstsUnique, Needed;
    forall w | gs[k].Reads(w)
      ensures !v(w)
    {
      if Local(gs, w) {
        var j :| 0 <= j < |gs| && gs[j].out == w;
        assert gs[j].out < gs[k].out;
        FeedsNeeded(gs, keeps, j, k);
        NoOffsets(gs, keeps, v, j);
      } else {
        assert External(gs, keeps, w);
      }
    }
  }

  /** A flush over agreed wires passes its check, and its kept wires are agreed on when a needed gate is an AND or they are
      all constants. */
  lemma AgreedFlush(gs: seq<Gate>, keeps: seq<nat>, offs: nat -> bool, sh: nat -> Share, lg: nat -> Share)
    requires Chunk(gs) && forall w | External(gs, keeps, w) :: !offs(w)
    ensures ChunkUndisturbed(gs, keeps, offs, sh, lg)
    ensures forall w, masks: nat -> bool | FlushTravels(gs, keeps) && w in keeps && Local(gs, w) ::
      !ChunkOutputOff(gs, keeps, offs, masks, w)
  {
    hide ConstsUnique, Needed, ChunkOffsets, ChunkShares, OffsetsOf, ChunkValues;
    RunningOffsets(gs, offs, |gs|);
    var v := ChunkOffsets(gs, offs, |gs|);
    forall w | External(gs, keeps, w)
      ensures !v(w)
    {
    }
    forall k | 0 <= k < |gs| && Needed(gs, keeps, k)
      ensures !v(gs[k].out) && (gs[k].op == AndOp ==> !v(gs[k].in0) && !v(gs[k].in1))
    {
      NoOffsets(gs, keeps, v, k);
      assert gs[k].op == AndOp ==> gs[k].Reads(gs[k].in0) && gs[k].Reads(gs[k].in1);
    }
    forall w, masks: nat -> bool | FlushTravels(gs, keeps) && w in keeps && Local(gs, w)
      ensures !ChunkOutputOff(gs, keeps, offs, masks, w)
    {
      var k :| 0 <= k < |gs| && gs[k].out == w;
      KeptIsNeeded(gs, keeps, k);
      if exists j | 0 <= j < |gs| :: Needed(gs, keeps, j) && gs[j].op == AndOp {
        SomeNeededAnd(gs, keeps);
      }
    }
  }

  lemma KeptIsNeeded(gs: seq<Gate>, keeps: seq<nat>, k: nat)
    requires k < |gs| && gs[k].out in keeps
    ensures Needed(gs, keeps, k)
  {
  }

  lemma SomeNeededAnd(gs: seq<Gate>, keeps: seq<nat>)
    requires exists j | 0 <= j < |gs| :: Needed(gs, keeps, j) && gs[j].op == AndOp
    ensures NeededAnds(gs, keeps, |gs|) > 0
  {
    hide Needed;
    var j :| 0 <= j < |gs| && Needed(gs, keeps, j) && gs[j].op == AndOp;
    NeededAndsGrow(gs, keeps, j, |gs|);
  }

  lemma {:induction false} NeededAndsGrow(gs: seq<Gate>, keeps: seq<nat>, j: nat, k: nat)
    requires j < k <= |gs| && Needed(gs, keeps, j) && gs[j].op == AndOp
    ensures NeededAnds(gs, keeps, k) > 0
    decreases k
  {
    hide Needed;
    if j + 1 < k {
      NeededAndsGrow(gs, keeps, j, k - 1);
    }
  }
}
