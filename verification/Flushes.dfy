/** What running a flush plan through the engine means for the chunk it was planned from. */
module Flushes {
  import opened Circuits
  import opened AndFreeRuns
  import opened Recordings
  import opened Engines
  import opened FlushPlans
  import opened CarriedStates

  /** A flush keeps the garbler's opened masks right when a needed gate is an AND, or when every kept wire of the chunk is a
      constant: both can be read off the chunk before the flush. */
  ghost predicate FlushTravels(gs: seq<Gate>, keeps: seq<nat>) {
    || (exists k | 0 <= k < |gs| :: Needed(gs, keeps, k) && gs[k].op == AndOp)
    || forall k | 0 <= k < |gs| && gs[k].out in keeps :: gs[k].IsConst()
  }

  lemma {:induction false} NoAndsIff(gs: seq<Gate>, k: nat)
    requires k <= |gs|
    ensures AndsBefore(gs, k) > 0 <==> exists j | 0 <= j < k :: gs[j].op == AndOp
  {
    if k > 0 {
      NoAndsIff(gs, k - 1);
    }
  }

  /** On a canonical program the side condition of a run reads off the program itself. */
  lemma {:induction false} TravelIff(n: nat, gs: seq<Gate>, outs: seq<nat>)
    requires Canonical(n, gs) && Body(n, gs, outs)
    ensures OutputMasksTravel(n, gs, outs) <==>
      (exists k | 0 <= k < |gs| :: gs[k].op == AndOp) || forall i | 0 <= i < |outs| :: InputOrConst(n, gs, outs[i])
  {
    hide Record, Canonical, Ordered, AndsBefore;
    OutIdsInRange(n, gs, outs);
    CanonicalReplaysAsItself(n, gs, |gs|);
    var st, ids := Stream(n, gs), OutIds(n, gs, outs);
    NoAndsIff(st, |st|);
    assert (exists j | 0 <= j < |st| :: st[j].op == AndOp) <==> exists j | 0 <= j < |gs| :: gs[j].op == AndOp by {
      if j :| 0 <= j < |st| && st[j].op == AndOp {
        assert SameGate(st[j], gs[j]);
      }
      if j :| 0 <= j < |gs| && gs[j].op == AndOp {
        assert SameGate(st[j], gs[j]);
      }
    }
    forall i | 0 <= i < |outs|
      ensures ids[i] == outs[i] && (InputOrConst(n, st, ids[i]) <==> InputOrConst(n, gs, outs[i]))
    {
      assert outs[i] >= n ==> SameGate(st[outs[i] - n], gs[outs[i] - n]);
    }
  }

  /** The side condition of a flush is exactly that of the run its plan stands for. */
  lemma FlushTravelsIff(gs: seq<Gate>, keeps: seq<nat>, plan: FlushPlan, kept: seq<nat>, origin: seq<nat>)
    requires Chunk(gs) && Plans(gs, keeps, plan, kept, origin)
    requires forall w :: w in plan.outputIds <==> w in keeps && Local(gs, w)
    requires forall i | 0 <= i < |plan.inputIds| :: !Local(gs, plan.inputIds[i])
    ensures CanonicalProgram(plan.prog) && Body(|plan.inputIds|, plan.prog.gates, plan.prog.outputs)
    ensures OutputMasksTravel(|plan.inputIds|, plan.prog.gates, plan.prog.outputs) <==> FlushTravels(gs, keeps)
  {
    PlanIsCanonical(gs, keeps, plan, kept, origin);
    var n, cgs, outs := |plan.inputIds|, plan.prog.gates, plan.prog.outputs;
    assert Body(n, cgs, outs);
    TravelIff(n, cgs, outs);
    hide OutputMasksTravel, Canonical, Needed, Plans, CanonicalProgram, Body, Local;
    AndsKeptIff(gs, keeps, plan, kept, origin);
    OutputsConstIff(gs, keeps, plan, kept, origin);
  }

  lemma AndsKeptIff(gs: seq<Gate>, keeps: seq<nat>, plan: FlushPlan, kept: seq<nat>, origin: seq<nat>)
    requires Plans(gs, keeps, plan, kept, origin)
    ensures (exists i | 0 <= i < |plan.prog.gates| :: plan.prog.gates[i].op == AndOp)
      <==> exists k | 0 <= k < |gs| :: Needed(gs, keeps, k) && gs[k].op == AndOp
  {
    hide Needed;
    var n, cgs := |plan.inputIds|, plan.prog.gates;
    if i :| 0 <= i < |cgs| && cgs[i].op == AndOp {
      assert Renamed(cgs[i], gs[kept[i]], n + i, origin) && kept[i] in kept;
    }
    if k :| 0 <= k < |gs| && Needed(gs, keeps, k) && gs[k].op == AndOp {
      var i :| 0 <= i < |kept| && kept[i] == k;
      assert Renamed(cgs[i], gs[kept[i]], n + i, origin);
    }
  }

  lemma OutputsConstIff(gs: seq<Gate>, keeps: seq<nat>, plan: FlushPlan, kept: seq<nat>, origin: seq<nat>)
    requires Chunk(gs) && Plans(gs, keeps, plan, kept, origin) && CanonicalProgram(plan.prog)
    requires forall w :: w in plan.outputIds <==> w in keeps && Local(gs, w)
    requires forall i | 0 <= i < |plan.inputIds| :: !Local(gs, plan.inputIds[i])
    ensures (forall i | 0 <= i < |plan.prog.outputs| :: InputOrConst(|plan.inputIds|, plan.prog.gates, plan.prog.outputs[i]))
      <==> forall k | 0 <= k < |gs| && gs[k].out in keeps :: gs[k].IsConst()
  {
    hide Needed, Canonical, ConstsUnique;
    var n, cgs, outs := |plan.inputIds|, plan.prog.gates, plan.prog.outputs;
    assert forall c | 0 <= c < n :: origin[c] == plan.inputIds[c] by {
      assert forall c | 0 <= c < n :: origin[..n][c] == origin[c];
    }
    forall i | 0 <= i < |outs|
      ensures outs[i] >= n && kept[outs[i] - n] < |gs| && gs[kept[outs[i] - n]].out == plan.outputIds[i]
      ensures InputOrConst(n, cgs, outs[i]) <==> gs[kept[outs[i] - n]].IsConst()
    {
      var c := outs[i];
      assert plan.outputIds[i] in plan.outputIds;
      assert Renamed(cgs[c - n], gs[kept[c - n]], c, origin);
    }
    if forall i | 0 <= i < |outs| :: InputOrConst(n, cgs, outs[i]) {
      forall k | 0 <= k < |gs| && gs[k].out in keeps
        ensures gs[k].IsConst()
      {
        assert gs[k].out in plan.outputIds;
        var i :| 0 <= i < |plan.outputIds| && plan.outputIds[i] == gs[k].out;
        assert InputOrConst(n, cgs, outs[i]);
      }
    }
  }

  /** Running the plan over the values of its inputs gives the values of its output ids. */
  lemma FlushOutputs(gs: seq<Gate>, keeps: seq<nat>, plan: FlushPlan, kept: seq<nat>, origin: seq<nat>, vals: seq<bool>)
    requires Chunk(gs) && Plans(gs, keeps, plan, kept, origin) && Explains(gs, ValueOf(vals))
    requires forall i | 0 <= i < |plan.inputIds| :: plan.inputIds[i] < |vals|
    requires forall i | 0 <= i < |plan.outputIds| :: plan.outputIds[i] < |vals|
    ensures CanonicalProgram(plan.prog) && Body(|plan.inputIds|, plan.prog.gates, plan.prog.outputs)
    ensures Outputs(|plan.inputIds|, plan.prog.gates, ValuesAt(vals, plan.inputIds), plan.prog.outputs)
            == ValuesAt(vals, plan.outputIds)
  {
    hide Needed, Compacts, Explains, ConstsUnique;
    PlanIsCanonical(gs, keeps, plan, kept, origin);
    var x := ValuesAt(vals, plan.inputIds);
    forall i | 0 <= i < |plan.outputIds|
      ensures Plain(|x|, plan.prog.gates, x, plan.prog.outputs[i]) == vals[plan.outputIds[i]]
    {
      PlanKeepsValues(gs, keeps, plan, kept, origin, ValueOf(vals), x, plan.prog.outputs[i]);
    }
  }

  /** The ANDs that dead-code elimination leaves among the first `k` gates of a chunk. */
  ghost function NeededAnds(gs: seq<Gate>, keeps: seq<nat>, k: nat): nat
    requires k <= |gs|
  {
    if k == 0 then 0
    else NeededAnds(gs, keeps, k - 1) + if Needed(gs, keeps, k - 1) && gs[k - 1].op == AndOp then 1 else 0
  }

  /** `i` compacted gates come from the first `k` gates of the chunk, with all their needed ANDs. */
  lemma {:induction false} AndsOfPrefix(gs: seq<Gate>, keeps: seq<nat>, plan: FlushPlan, kept: seq<nat>, origin: seq<nat>, k: nat)
    returns (i: nat)
    requires Plans(gs, keeps, plan, kept, origin) && k <= |gs|
    ensures i <= |kept| == |plan.prog.gates|
    ensures (forall j | 0 <= j < i :: kept[j] < k) && forall j | i <= j < |kept| :: kept[j] >= k
    ensures AndsBefore(plan.prog.gates, i) == NeededAnds(gs, keeps, k)
  {
    hide Needed;
    i := 0;
    if k > 0 {
      i := AndsOfPrefix(gs, keeps, plan, kept, origin, k - 1);
      if i < |kept| && kept[i] == k - 1 {
        assert kept[i] in kept && Renamed(plan.prog.gates[i], gs[kept[i]], |plan.inputIds| + i, origin);
        i := i + 1;
      }
    }
  }

  lemma AllKeptBelow(gs: seq<Gate>, kept: seq<nat>, i: nat)
    requires i <= |kept| && (forall j | 0 <= j < |kept| :: kept[j] < |gs|) && forall j | i <= j < |kept| :: kept[j] >= |gs|
    ensures i == |kept|
  {
    var last := if kept == [] then 0 else kept[|kept| - 1];
  }

  /** A plan's program has exactly the needed ANDs. */
  lemma PlanAnds(gs: seq<Gate>, keeps: seq<nat>, plan: FlushPlan, kept: seq<nat>, origin: seq<nat>)
    requires Plans(gs, keeps, plan, kept, origin) && CanonicalProgram(plan.prog)
    ensures NumAnds(Stream(|plan.inputIds|, plan.prog.gates)) == NeededAnds(gs, keeps, |gs|)
  {
    hide Needed, Canonical, Renamed;
    var i := AndsOfPrefix(gs, keeps, plan, kept, origin, |gs|);
    AllKeptBelow(gs, kept, i);
    StreamAnds(|plan.inputIds|, plan.prog.gates);
  }

  lemma {:induction false} SameOpsSameAnds(a: seq<Gate>, b: seq<Gate>, k: nat)
    requires k <= |a| && k <= |b| && forall j | 0 <= j < k :: a[j].op == b[j].op
    ensures AndsBefore(a, k) == AndsBefore(b, k)
  {
    if k > 0 {
      SameOpsSameAnds(a, b, k - 1);
    }
  }

  lemma StreamAnds(n: nat, gs: seq<Gate>)
    requires Canonical(n, gs)
    ensures NumAnds(Stream(n, gs)) == NumAnds(gs)
  {
    hide ConstsUnique, Record, AndsBefore;
    CanonicalReplaysAsItself(n, gs, |gs|);
    forall j | 0 <= j < |gs|
      ensures Stream(n, gs)[j].op == gs[j].op
    {
      assert SameGate(Record(n, gs, |gs|).gates[j], gs[j]);
    }
    SameOpsSameAnds(Stream(n, gs), gs, |gs|);
  }
}
