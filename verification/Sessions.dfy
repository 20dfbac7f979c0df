/** The session (ag2pc_session.h), both parties at once: inputs, recorded gates, flushes, runs and reveals over wire ids. */
module Sessions {
  import opened Blocks
  import opened Shares
  import opened Circuits
  import opened Recordings
  import opened Buckets
  import opened TriplePools
  import opened SecureWireBundles
  import opened Engines
  import opened Options
  import opened Protocols
  import opened FlushPlans
  import opened Flushes
  import opened FlushMasks
  import opened Recorders
  import opened CarriedStates

  ghost predicate AnyPending(v: View, keeps: seq<nat>) {
    exists i | 0 <= i < |keeps| :: keeps[i] in v.pending
  }

  /** The ANDs a flush garbles: those the kept wires need, and none when nothing pending is kept. */
  ghost function FlushAnds(v: View, keeps: seq<nat>): nat {
    if AnyPending(v, keeps) then NeededAnds(v.chunk, keeps, |v.chunk|) else 0
  }

  /** Every kept wire still exists, and so does everything the needed gates read from outside the chunk. */
  ghost predicate Flushable(v: View, keeps: seq<nat>) {
    && (forall i | 0 <= i < |keeps| :: keeps[i] in v.pending || keeps[i] in v.carried1)
    && (AnyPending(v, keeps) ==> forall w | External(v.chunk, keeps, w) :: w in v.carried1)
  }

  /** Two honest parties pass the c_gamma check of a flush, whose ANDs take the fresh masks `lg`. */
  ghost predicate FlushPasses(v: View, keeps: seq<nat>, lg: nat -> Share) {
    AnyPending(v, keeps) ==>
      ChunkUndisturbed(v.chunk, keeps, Differing(v.carried1, v.carried2), Bundles(v.carried1), lg)
  }

  /** Do the parties' opened masks of the kept pending wire `w` differ after a flush? */
  ghost predicate FlushOff(v: View, keeps: seq<nat>, w: nat) {
    ChunkOutputOff(v.chunk, keeps, Differing(v.carried1, v.carried2), Masks(v.carried2), w)
  }

  /** A flush: the chunk is gone, the kept pending wires are carried with opened masks that differ exactly where `FlushOff`
      says, and nothing else changed. */
  ghost predicate Flushed(v: View, keeps: seq<nat>, after: View) {
    && after == v.Dropped().(carried1 := after.carried1, carried2 := after.carried2)
    && (forall id: nat :: id in after.carried1 <==> id in v.carried1 || (id in keeps && id in v.pending))
    && (forall id | id in v.carried1 && id !in v.pending :: id in after.carried1 && after.carried1[id] == v.carried1[id])
    && (forall id | id in v.carried2 && id !in v.pending :: id in after.carried2 && after.carried2[id] == v.carried2[id])
    && (forall id | id in keeps && id in v.pending :: DiffersAt(after.carried1, after.carried2, id) == FlushOff(v, keeps, id))
  }

  /** The opened masks `o1`, `o2` a flush gives the wires `ids` differ exactly where `FlushOff` says. */
  ghost predicate MasksOff(ids: seq<nat>, o1: seq<bool>, o2: seq<bool>, v: View, keeps: seq<nat>) {
    |o1| == |o2| == |ids| && forall i | 0 <= i < |ids| :: (o1[i] != o2[i]) == FlushOff(v, keeps, ids[i])
  }

  /** Where the parties' opened masks of the wires `ids` differ. */
  function OffsAt(c1: Carried, c2: Carried, ids: seq<nat>): (r: seq<bool>)
    ensures |r| == |ids|
  {
    seq(|ids|, i requires 0 <= i < |ids| => DiffersAt(c1, c2, ids[i]))
  }

  /** The bits `x`, flipped where `offs` is set. */
  function Misread(x: seq<bool>, offs: seq<bool>): (r: seq<bool>)
    requires |x| == |offs|
    ensures |r| == |x| && (r == x <==> forall i | 0 <= i < |offs| :: !offs[i])
  {
    var r := seq(|x|, i requires 0 <= i < |x| => x[i] != offs[i]);
    assert r == x <==> forall i | 0 <= i < |offs| :: !offs[i] by {
      if r == x {
        assert forall i | 0 <= i < |offs| :: (x[i] != offs[i]) == r[i];
      }
    }
    r
  }

  lemma AliceReadsFlipped(w1: SecureWires, w2: SecureWires, c1: Carried, c2: Carried, ids: seq<nat>, x: seq<bool>)
    requires w1.masks == MasksAt(c1, ids) && w2.masks == MasksAt(c2, ids) && |x| == |ids|
    ensures AliceDecodes(w1, w2, x) == Misread(x, OffsAt(c1, c2, ids))
  {
    forall i | 0 <= i < |ids|
      ensures AliceDecodes(w1, w2, x)[i] == Misread(x, OffsAt(c1, c2, ids))[i]
    {
      OneDiffers(c1, c2, ids, i);
    }
  }

  /** The run of a plan passes its check exactly when the flush does. */
  lemma PlanMasks(v: View, keeps: seq<nat>, plan: FlushPlan, kept: seq<nat>, origin: seq<nat>, lg: nat -> Share)
    requires Chunk(v.chunk) && Plans(v.chunk, keeps, plan, kept, origin) && CanonicalProgram(plan.prog)
    requires forall i | 0 <= i < |plan.inputIds| :: !Local(v.chunk, plan.inputIds[i])
    ensures var ids := plan.inputIds;
      && Ordered(|ids|, plan.prog.gates)
      && (RunUndisturbed(|ids|, plan.prog.gates, MasksAt(v.carried1, ids), MasksAt(v.carried2, ids), BundlesAt(v.carried1, ids), lg)
          <==> ChunkUndisturbed(v.chunk, keeps, Differing(v.carried1, v.carried2), Bundles(v.carried1), lg))
  {
    hide Chunk, Plans, CanonicalProgram, Local, RunUndisturbed, ChunkUndisturbed;
    FlushPassesIff(v.chunk, keeps, plan, kept, origin, Differing(v.carried1, v.carried2), Bundles(v.carried1), lg,
                   MasksAt(v.carried1, plan.inputIds), MasksAt(v.carried2, plan.inputIds), BundlesAt(v.carried1, plan.inputIds));
  }

  lemma PlanOutputMasks(v: View, keeps: seq<nat>, plan: FlushPlan, kept: seq<nat>, origin: seq<nat>, o1: seq<bool>, o2: seq<bool>)
    requires Chunk(v.chunk) && Plans(v.chunk, keeps, plan, kept, origin) && CanonicalProgram(plan.prog)
    requires forall i | 0 <= i < |plan.inputIds| :: !Local(v.chunk, plan.inputIds[i])
    requires forall w :: w in plan.outputIds <==> w in keeps && Local(v.chunk, w)
    requires Body(|plan.inputIds|, plan.prog.gates, plan.prog.outputs)
    requires RunOutputsOff(|plan.inputIds|, plan.prog.gates, plan.prog.outputs, MasksAt(v.carried1, plan.inputIds),
                           MasksAt(v.carried2, plan.inputIds), o1, o2)
    ensures MasksOff(plan.outputIds, o1, o2, v, keeps)
  {
    hide Chunk, Plans, CanonicalProgram, Local, RunOutputsOff, ChunkOutputOff, Body;
    forall i | 0 <= i < |plan.outputIds|
      ensures Local(v.chunk, plan.outputIds[i])
    {
      assert plan.outputIds[i] in plan.outputIds;
    }
    FlushOutputsOff(v.chunk, keeps, plan, kept, origin, Differing(v.carried1, v.carried2), Masks(v.carried2),
                    MasksAt(v.carried1, plan.inputIds), MasksAt(v.carried2, plan.inputIds), o1, o2);
  }

  /** The wires of one owner's input: public ones are made locally; ALICE's and BOB's have the shares of the COT session from
      `at` on and the garbler's next labels. */
  ghost predicate IsInput(w1: SecureWires, w2: SecureWires, owner: int, bits: seq<bool>, d1: Block, d2: Block,
                          cot1: nat -> Share, cot2: nat -> Share, at: nat, prg: nat -> Block) {
    if owner == PUBLIC then w1 == PublicBundle(1, d1, bits) && w2 == PublicBundle(2, d2, bits)
    else IsDrawn(w1, w2, cot1, cot2, at, prg, 0)
  }

  class Session {
    const q1: Protocol
    const q2: Protocol
    const ctx: Recorder
    var carried1: Carried
    var carried2: Carried
    var totalAnds: nat
    ghost var vals: seq<bool>
    ghost var batchOf: map<nat, InputBatch>

    ghost function Now(): View
      reads this`carried1, this`carried2, this`vals, this`batchOf, ctx
    {
      View(ctx.nextId, ctx.chunk, ctx.pending, ctx.const0, ctx.const1, carried1, carried2, vals, batchOf.Keys)
    }

    ghost predicate Wired()
      reads q1.pool`drawn, q2.pool`drawn
    {
      q1 != q2 && Linked(q1.pool, q2.pool)
    }

    /** Every correlation either party has minted has passed the COT consistency check. */
    ghost predicate Checked()
      reads q1.pool`mintedSinceCheck, q2.pool`mintedSinceCheck
    {
      !q1.pool.mintedSinceCheck && !q2.pool.mintedSinceCheck
    }

    ghost predicate Valid()
      reads this`carried1, this`carried2, this`vals, this`batchOf, ctx, q1.pool`drawn, q2.pool`drawn
    {
      Wired() && Now().Ok(q1.pool.delta, q2.pool.delta)
    }

    constructor (q1: Protocol, q2: Protocol)
      requires q1 != q2 && Linked(q1.pool, q2.pool)
      ensures Valid() && Now().nextId == 0 && Now().chunk == [] && carried1 == map[] && carried2 == map[] && batchOf == map[]
      ensures this.q1 == q1 && this.q2 == q2 && fresh(ctx) && totalAnds == 0
    {
      this.q1, this.q2 := q1, q2;
      ctx := new Recorder();
      carried1, carried2, totalAnds := map[], map[], 0;
      vals, batchOf := [], map[];
    }

    // ---- recorded gates ----

    /** A constant: recorded once per chunk, then reused. */
    method PublicBit(v: bool) returns (st: Status, w: nat)
      requires Valid()
      modifies ctx, this`vals
      ensures st == if old(if v then ctx.const1 else ctx.const0) < 0 && old(ctx.nextId) == UINT32_MAX then IdOverflow else Done
      ensures st.Done? ==> Valid() && w < |vals| && vals[w] == v && w in ctx.pending
      ensures st.Done? && old(if v then ctx.const1 else ctx.const0) >= 0 ==>
        w == old(if v then ctx.const1 else ctx.const0) && Now() == old(Now())
      ensures st.Done? && old(if v then ctx.const1 else ctx.const0) < 0 ==>
        w == old(ctx.nextId) && Now() == old(Now()).Recorded(Gate(0, 0, w, if v then Const1 else Const0))
      ensures st.Done? ==> Now().Stale() == old(Now()).Stale() && old(vals) <= vals
    {
      hide View.Ok, RecorderOk, View.Stale;
      ghost var before := Now();
      RecorderPart(before, q1.pool.delta, q2.pool.delta);
      st, w := ctx.PublicBit(v);
      if !st.Done? {
        return;
      }
      if (if v then before.const1 else before.const0) >= 0 {
        CachedConstant(before, v, q1.pool.delta, q2.pool.delta);
      } else {
        ghost var g := Gate(0, 0, w, if v then Const1 else Const0);
        RecordingIsOk(before, g, q1.pool.delta, q2.pool.delta);
        vals := vals + [GateValue(g, ValueOf(vals))];
        assert Now() == before.Recorded(g);
      }
    }

    /** AND or XOR: record the gate; its value is fixed here although nothing is computed until a flush. */
    method BinaryGate(a: nat, b: nat, op: Op) returns (st: Status, w: nat)
      requires Valid() && (op == AndOp || op == XorOp)
      modifies ctx, this`vals
      ensures st == if a >= old(ctx.nextId) || b >= old(ctx.nextId) then NeverAllocated
                    else if old(ctx.nextId) == UINT32_MAX then IdOverflow else Done
      ensures st.Done? ==> Valid() && w == old(ctx.nextId) && Now() == old(Now()).Recorded(Gate(a, b, w, op))
      ensures st.Done? ==> old(|vals|) == w < |vals| && a < w && b < w && old(vals) <= vals
      ensures st.Done? ==> vals[w] == if op == AndOp then vals[a] && vals[b] else vals[a] != vals[b]
      ensures st.Done? ==> Now().Stale() == old(Now()).Stale()
    {
      hide View.Ok, RecorderOk, View.Stale;
      ghost var before := Now();
      RecorderPart(before, q1.pool.delta, q2.pool.delta);
      st, w := ctx.BinaryGate(a, b, op);
      if !st.Done? {
        return;
      }
      ghost var g := Gate(a, b, w, op);
      RecordingIsOk(before, g, q1.pool.delta, q2.pool.delta);
      vals := vals + [GateValue(g, ValueOf(vals))];
      assert Now() == before.Recorded(g);
    }

    method NotGate(a: nat) returns (st: Status, w: nat)
      requires Valid()
      modifies ctx, this`vals
      ensures st == if a >= old(ctx.nextId) then NeverAllocated else if old(ctx.nextId) == UINT32_MAX then IdOverflow else Done
      ensures st.Done? ==> Valid() && w == old(ctx.nextId) && Now() == old(Now()).Recorded(Gate(a, 0, w, NotOp))
      ensures st.Done? ==> old(|vals|) == w < |vals| && a < w && old(vals) <= vals && vals[w] == !vals[a]
      ensures st.Done? ==> Now().Stale() == old(Now()).Stale()
    {
      hide View.Ok, RecorderOk, View.Stale;
      ghost var before := Now();
      RecorderPart(before, q1.pool.delta, q2.pool.delta);
      st, w := ctx.NotGate(a);
      if !st.Done? {
        return;
      }
      ghost var g := Gate(a, 0, w, NotOp);
      RecordingIsOk(before, g, q1.pool.delta, q2.pool.delta);
      vals := vals + [GateValue(g, ValueOf(vals))];
      assert Now() == before.Recorded(g);
    }

    // ---- carried state ----

    /** Gather carried wires, in caller order; a wire without carried state is refused. */
    method GatherCarried(ids: seq<nat>) returns (ok: bool, w1: SecureWires, w2: SecureWires)
      requires Valid()
      ensures ok <==> forall i | 0 <= i < |ids| :: ids[i] in carried1
      ensures ok ==> forall i | 0 <= i < |ids| :: ids[i] < |vals|
      ensures ok ==> Encode(w1, w2, q1.pool.delta, q2.pool.delta, ValuesAt(vals, ids))
      ensures ok ==> w1.masks == MasksAt(carried1, ids) && w2.masks == MasksAt(carried2, ids) && w1.bundle == BundlesAt(carried1, ids)
      ensures ok ==> w1.WellShaped(1) && w2.WellShaped(2) && |w1.masks| == |w2.masks| == |ids|
    {
      hide RecorderOk, Explains, CarriedOk, Encode, ValuesAt, SecureWires.WellShaped, MasksAt, BundlesAt;
      CarriedPart(Now(), q1.pool.delta, q2.pool.delta);
      var ok1, ok2;
      ok1, w1 := Gather(carried1, ids, false);
      ok2, w2 := Gather(carried2, ids, true);
      ok := ok1 && ok2;
      if ok {
        GatheredEncodes(carried1, carried2, q1.pool.delta, q2.pool.delta, vals, ids);
        EncodedShapes(w1, w2, q1.pool.delta, q2.pool.delta, ValuesAt(vals, ids));
      }
    }

    /** Store a bundle under already allocated ids. */
    method MaterializeInto(ids: seq<nat>, w1: SecureWires, w2: SecureWires) returns (st: Status)
      requires Valid() && NoDuplicates(ids)
      requires forall i | 0 <= i < |ids| :: ids[i] < |vals| && ids[i] !in ctx.pending
      requires |w1.masks| == |w2.masks| == |ids| ==>
        Encode(w1, w2, q1.pool.delta, q2.pool.delta, ValuesAt(vals, ids))
      modifies this`carried1, this`carried2, this`batchOf
      ensures st == if |w1.masks| == |w2.masks| == |ids| then Done else BadWidth
      ensures st.Done? ==> Valid() && batchOf == old(batchOf) - (set id | id in ids)
      ensures st.Done? ==> forall id: nat :: id in carried1 <==> id in old(carried1) || id in ids
      ensures st.Done? ==> forall id | id in old(carried1) && id !in ids :: carried1[id] == old(carried1[id])
      ensures st.Done? ==> forall id | id in old(carried2) && id !in ids :: id in carried2 && carried2[id] == old(carried2[id])
      ensures st.Done? ==> MasksAt(carried1, ids) == w1.masks && MasksAt(carried2, ids) == w2.masks
      ensures st.Done? ==> Holds(carried1, ids, w1, false) && Holds(carried2, ids, w2, true)
      ensures st.Done? && Synced(w1, w2) ==> OnlyAgreedAdded(old(carried1), old(carried2), carried1, carried2)
    {
      hide View.Ok, Encode, ValuesAt, RecorderOk, IsLoaded, NoDuplicates, Linked, MasksAt, OnlyAgreedAdded, Synced, Holds;
      if |w1.masks| != |ids| || |w2.masks| != |ids| {
        return BadWidth;
      }
      EncodedShapes(w1, w2, q1.pool.delta, q2.pool.delta, ValuesAt(vals, ids));
      ghost var before := Now();
      RecorderPart(before, q1.pool.delta, q2.pool.delta);
      var after1 := Load(carried1, ids, w1, false);
      var after2 := Load(carried2, ids, w2, true);
      ghost var left := batchOf - (set id | id in ids);
      StoringIsOk(before, ids, w1, w2, after1, after2, left.Keys, q1.pool.delta, q2.pool.delta);
      carried1, carried2, batchOf := after1, after2, left;
      assert Now() == before.(carried1 := after1, carried2 := after2, waiting := left.Keys);
      st := Done;
    }

    /** Fresh ids for a bundle, carried at once. */
    method Materialize(w1: SecureWires, w2: SecureWires, ghost x: seq<bool>) returns (st: Status, ids: seq<nat>)
      requires Valid() && Encode(w1, w2, q1.pool.delta, q2.pool.delta, x)
      modifies ctx`nextId, this`carried1, this`carried2, this`batchOf, this`vals
      ensures st == if old(ctx.nextId) + |x| <= UINT32_MAX then Done else IdOverflow
      ensures st.Done? ==> Valid() && vals == old(vals) + x && batchOf == old(batchOf)
      ensures st.Done? ==> |ids| == |x| && forall i | 0 <= i < |x| :: ids[i] == old(|vals|) + i
      ensures st.Done? ==> forall id: nat :: id in carried1 <==> id in old(carried1) || id in ids
      ensures st.Done? ==> forall id | id in old(carried1) :: carried1[id] == old(carried1[id])
      ensures st.Done? ==> forall id | id in old(carried2) :: id in carried2 && carried2[id] == old(carried2[id])
      ensures st.Done? ==> MasksAt(carried1, ids) == w1.masks && MasksAt(carried2, ids) == w2.masks
      ensures st.Done? ==> Holds(carried1, ids, w1, false) && Holds(carried2, ids, w2, true)
      ensures st.Done? && Synced(w1, w2) ==> OnlyAgreedAdded(old(carried1), old(carried2), carried1, carried2)
      ensures st.Done? ==> Now().Stale() == old(Now()).Stale()
    {
      hide View.Ok, Encode, RecorderOk, ValuesAt, MasksAt, OnlyAgreedAdded, Synced, CarriedOk, Holds;
      ghost var before := Now();
      RecorderPart(before, q1.pool.delta, q2.pool.delta);
      AllBelow(before, q1.pool.delta, q2.pool.delta);
      CarriedPart(before, q1.pool.delta, q2.pool.delta);
      assert forall id | id in carried2 :: id in carried1.Keys;
      EncodedShapes(w1, w2, q1.pool.delta, q2.pool.delta, x);
      st, ids := ctx.ReserveIds(|w1.masks|);
      if !st.Done? {
        return;
      }
      ReservingIsOk(before, x, q1.pool.delta, q2.pool.delta);
      vals := vals + x;
      assert Now() == before.Reserved(x);
      FreshValues(before.vals, x, ids);
      st := MaterializeInto(ids, w1, w2);
      assert batchOf == old(batchOf);
      assert Now().Stale() == before.Stale();
    }
  
    // ---- flush ----

    /** The planned program through the engine, over the carried inputs. */
    method RunPlan(keeps: seq<nat>, plan: FlushPlan, ghost kept: seq<nat>, ghost origin: seq<nat>, seed: RunSeed)
      returns (st: Status, w1: SecureWires, w2: SecureWires)
      requires Valid() && Plans(ctx.chunk, keeps, plan, kept, origin)
      requires forall i | 0 <= i < |plan.inputIds| :: plan.inputIds[i] in carried1 && !Local(ctx.chunk, plan.inputIds[i])
      requires forall w :: w in plan.outputIds <==> w in keeps && Local(ctx.chunk, w)
      modifies this`totalAnds, q1.pool, q2.pool
      ensures Valid() && (st.Done? || st.CheckFailed?)
      ensures st.Done? <==> ChunkUndisturbed(ctx.chunk, keeps, Differing(carried1, carried2), Bundles(carried1),
                                             FreshMasks(q1.pool.cot, old(q1.pool.drawn)))
      ensures forall i | 0 <= i < |plan.outputIds| :: plan.outputIds[i] < |vals|
      ensures st.Done? ==> Encode(w1, w2, q1.pool.delta, q2.pool.delta, ValuesAt(vals, plan.outputIds))
      ensures st.Done? ==> MasksOff(plan.outputIds, w1.masks, w2.masks, Now(), keeps)
      ensures st.Done? ==> !q1.pool.mintedSinceCheck && !q2.pool.mintedSinceCheck
      ensures st.Done? ==> totalAnds == old(totalAnds) + NeededAnds(ctx.chunk, keeps, |ctx.chunk|)
    {
      hide View.Ok, Encode, ValuesAt, Plans, OutputMasksTravel, Linked, Runnable, Outputs, Body, Synced, ChunkUndisturbed;
      hide SecureWires.WellShaped, Chunk, Explains, CanonicalProgram, NeededAnds, Stream, NumAnds, RunUndisturbed;
      hide RunOutputsOff, ChunkOutputOff, MasksOff, MasksAt, BundlesAt, Local, FreshMasks;
      ChunkFacts(Now(), q1.pool.delta, q2.pool.delta);
      LocalBelow(ctx.chunk, |vals|);
      forall i | 0 <= i < |plan.outputIds|
        ensures plan.outputIds[i] < |vals|
      {
        assert plan.outputIds[i] in plan.outputIds;
      }
      var ok, in1, in2 := GatherCarried(plan.inputIds);
      FlushOutputs(ctx.chunk, keeps, plan, kept, origin, vals);
      PlanIsRunnable(ctx.chunk, keeps, plan, kept, origin, in1, in2);
      PlanAnds(ctx.chunk, keeps, plan, kept, origin);
      PlanMasks(Now(), keeps, plan, kept, origin, FreshMasks(q1.pool.cot, q1.pool.drawn));
      var r, ands := RunProgram(q1.pool, q2.pool, plan.prog, in1, in2, seed, ValuesAt(vals, plan.inputIds));
      if r.CheckFailed? {
        return Status.CheckFailed, NO_WIRES, NO_WIRES;
      }
      PlanOutputMasks(Now(), keeps, plan, kept, origin, r.out1.masks, r.out2.masks);
      totalAnds := totalAnds + ands;
      st, w1, w2 := Done, r.out1, r.out2;
    }
  
    /** Is some kept wire pending? All of them must still exist. */
    method ScanKeeps(keeps: seq<nat>) returns (live: bool, any: bool)
      ensures live <==> forall i | 0 <= i < |keeps| :: keeps[i] in ctx.pending || keeps[i] in carried1
      ensures any <==> exists i | 0 <= i < |keeps| :: keeps[i] in ctx.pending
    {
      live, any := true, false;
      for i := 0 to |keeps|
        invariant live <==> forall j | 0 <= j < i :: keeps[j] in ctx.pending || keeps[j] in carried1
        invariant any <==> exists j | 0 <= j < i :: keeps[j] in ctx.pending
      {
        if keeps[i] in ctx.pending {
          any := true;
        } else if keeps[i] !in carried1 {
          live := false;
        }
      }
    }

    /** Plan the flush and run the plan. */
    method PlanAndRun(keeps: seq<nat>, seed: RunSeed) returns (st: Status, outIds: seq<nat>, w1: SecureWires, w2: SecureWires)
      requires Valid()
      modifies this`totalAnds, q1.pool, q2.pool
      ensures Valid() && (st.Done? || st.StaleWire? || st.CheckFailed?)
      ensures st.StaleWire? <==> exists w | External(ctx.chunk, keeps, w) :: w !in carried1
      ensures !st.StaleWire? ==> (st.Done? <==>
        ChunkUndisturbed(ctx.chunk, keeps, Differing(carried1, carried2), Bundles(carried1),
                         FreshMasks(q1.pool.cot, old(q1.pool.drawn))))
      ensures NoDuplicates(outIds) && forall w :: w in outIds <==> w in keeps && w in ctx.pending
      ensures st.Done? ==> forall i | 0 <= i < |outIds| :: outIds[i] < |vals|
      ensures st.Done? ==> Encode(w1, w2, q1.pool.delta, q2.pool.delta, ValuesAt(vals, outIds))
      ensures st.Done? ==> MasksOff(outIds, w1.masks, w2.masks, Now(), keeps)
      ensures st.Done? ==> !q1.pool.mintedSinceCheck && !q2.pool.mintedSinceCheck
      ensures st.StaleWire? ==> q1.pool.mintedSinceCheck == old(q1.pool.mintedSinceCheck)
                                && q2.pool.mintedSinceCheck == old(q2.pool.mintedSinceCheck)
      ensures st.Done? ==> totalAnds == old(totalAnds) + NeededAnds(ctx.chunk, keeps, |ctx.chunk|)
    {
      hide NeededAnds, View.Ok, Encode, ValuesAt, Plans, Linked, External, Synced, Needed, Local, MasksOff;
      hide NoDuplicates, Explains, Chunk, ChunkUndisturbed, FreshMasks;
      ghost var before := Now();
      ChunkFacts(before, q1.pool.delta, q2.pool.delta);
      var plan, kept, origin := PlanFlush(ctx.chunk, keeps, carried1.Keys);
      outIds := plan.outputIds;
      PlanEnds(before, keeps, plan);
      if !plan.ok {
        return StaleWire, outIds, NO_WIRES, NO_WIRES;
      }
      st, w1, w2 := RunPlan(keeps, plan, kept, origin, seed);
    }

    /** Carry the outputs of a flush and drop the chunk. */
    method CarryOutputs(ghost keeps: seq<nat>, outIds: seq<nat>, w1: SecureWires, w2: SecureWires)
      requires Valid() && AnyPending(Now(), keeps)
      requires NoDuplicates(outIds) && forall w :: w in outIds <==> w in keeps && w in ctx.pending
      requires forall i | 0 <= i < |outIds| :: outIds[i] < |vals|
      requires Encode(w1, w2, q1.pool.delta, q2.pool.delta, ValuesAt(vals, outIds))
      requires MasksOff(outIds, w1.masks, w2.masks, Now(), keeps)
      modifies this`carried1, this`carried2, ctx
      ensures Valid() && Flushed(old(Now()), keeps, Now()) && old(Now()).Stale() <= Now().Stale()
    {
      hide View.Ok, Encode, ValuesAt, Linked, View.Stale, Flushed, Synced, NoDuplicates, IsLoaded, MasksOff;
      hide RecorderOk, AnyPending;
      ghost var before := Now();
      RecorderPart(before, q1.pool.delta, q2.pool.delta);
      EncodedShapes(w1, w2, q1.pool.delta, q2.pool.delta, ValuesAt(vals, outIds));
      carried1 := Load(carried1, outIds, w1, false);
      carried2 := Load(carried2, outIds, w2, true);
      ctx.DropChunk();
      FlushIsOk(before, keeps, outIds, w1, w2, Now(), q1.pool.delta, q2.pool.delta);
    }

    /** Run the pending chunk, carrying exactly the kept pending wires; with none kept, just drop it. A wire that no longer
        exists, kept or read by a needed gate, is refused before anything happens. */
    method Flush(keeps: seq<nat>, seed: RunSeed) returns (st: Status)
      requires Valid()
      modifies this`carried1, this`carried2, this`totalAnds, ctx, q1.pool, q2.pool
      ensures st.Done? || st.StaleWire? || st.CheckFailed?
      ensures st.StaleWire? <==> !Flushable(old(Now()), keeps)
      ensures st.CheckFailed? <==>
        Flushable(old(Now()), keeps) && !FlushPasses(old(Now()), keeps, FreshMasks(q1.pool.cot, old(q1.pool.drawn)))
      ensures !st.Done? ==> Valid() && Now() == old(Now())
      ensures st.Done? ==> Valid() && Flushed(old(Now()), keeps, Now()) && old(Now()).Stale() <= Now().Stale()
      ensures st.Done? ==> totalAnds == old(totalAnds + FlushAnds(Now(), keeps))
      ensures !st.CheckFailed? ==>
        q1.pool.mintedSinceCheck == (old(q1.pool.mintedSinceCheck) && !(st.Done? && AnyPending(old(Now()), keeps)))
      ensures !st.CheckFailed? ==>
        q2.pool.mintedSinceCheck == (old(q2.pool.mintedSinceCheck) && !(st.Done? && AnyPending(old(Now()), keeps)))
    {
      hide NeededAnds, View.Ok, Encode, ValuesAt, Linked, External, View.Stale, Flushed, Synced, ChunkUndisturbed;
      hide NoDuplicates, IsLoaded, RecorderOk, MasksOff, FreshMasks;
      ghost var before := Now();
      RecorderPart(before, q1.pool.delta, q2.pool.delta);
      var live, any := ScanKeeps(keeps);
      if !live {
        return StaleWire;
      }
      if !any {
        DroppingIsOk(before, q1.pool.delta, q2.pool.delta);
        ctx.DropChunk();
        assert Now() == before.Dropped();
        JustDropped(before, keeps);
        return Done;
      }
      var outIds, w1, w2;
      st, outIds, w1, w2 := PlanAndRun(keeps, seed);
      if !st.Done? {
        return;
      }
      CarryOutputs(keeps, outIds, w1, w2);
    }
  
    // ---- reveal and checkpoint ----

    /** Flush keeping the revealed wires and `keeps`, then decode. BOB and the public get the plaintext values; ALICE gets
        them flipped exactly at the wires whose opened masks differ at the two parties; nobody else learns a bit. The reveal is
        covered by the COT check if and only if it flushed a pending wire or nothing was unchecked before. */
    method Reveal(ids: seq<nat>, recipient: int, keeps: seq<nat>, seed: RunSeed)
      returns (st: Status, out1: Option<seq<bool>>, out2: Option<seq<bool>>)
      requires Valid()
      modifies this`carried1, this`carried2, this`totalAnds, ctx, q1.pool, q2.pool
      ensures st.BadRecipient? <==> recipient != PUBLIC && recipient != ALICE && recipient != BOB
      ensures st.StaleWire? <==> !st.BadRecipient? && !Flushable(old(Now()), ids + keeps)
      ensures st.CheckFailed? <==>
        && !st.BadRecipient? && Flushable(old(Now()), ids + keeps)
        && !FlushPasses(old(Now()), ids + keeps, FreshMasks(q1.pool.cot, old(q1.pool.drawn)))
      ensures st.Done? || st.BadRecipient? || st.StaleWire? || st.CheckFailed?
      ensures !st.Done? ==> Valid() && Now() == old(Now())
      ensures st.Done? ==> Valid() && Flushed(old(Now()), ids + keeps, Now()) && old(Now()).Stale() <= Now().Stale()
      ensures st.Done? ==> totalAnds == old(totalAnds + FlushAnds(Now(), ids + keeps))
      ensures st.Done? ==>
        q1.pool.mintedSinceCheck == (old(q1.pool.mintedSinceCheck) && !AnyPending(old(Now()), ids + keeps))
      ensures st.Done? ==>
        q2.pool.mintedSinceCheck == (old(q2.pool.mintedSinceCheck) && !AnyPending(old(Now()), ids + keeps))
      ensures st.Done? ==> (Checked() <==> old(Checked()) || AnyPending(old(Now()), ids + keeps))
      ensures st.Done? ==> forall i | 0 <= i < |ids| :: ids[i] < |vals|
      ensures st.Done? ==> out2 == Learned(if recipient == ALICE then [] else ValuesAt(vals, ids), |ids|)
      ensures st.Done? && recipient != ALICE ==> out1 == Learned(if recipient == BOB then [] else ValuesAt(vals, ids), |ids|)
      ensures st.Done? && recipient == ALICE ==> out1 == Some(Misread(ValuesAt(vals, ids), OffsAt(carried1, carried2, ids)))
    {
      hide View.Ok, Encode, ValuesAt, Linked, View.Stale, AliceDecodes, GoodDeltas, FlushAnds, FlushPasses, FreshMasks;
      hide MasksAt, BundlesAt, FlushOff, Misread, OffsAt, Blinds;
      out1, out2 := None, None;
      if recipient != PUBLIC && recipient != ALICE && recipient != BOB {
        return BadRecipient, None, None;
      }
      st := Flush(ids + keeps, seed);
      if !st.Done? {
        return;
      }
      KeptAreCarried(old(Now()), ids + keeps, Now());
      assert forall i | 0 <= i < |ids| :: ids[i] == (ids + keeps)[i];
      var ok, w1, w2 := GatherCarried(ids);
      LinkedDeltas(q1.pool, q2.pool);
      EncodedBlinds(w1, w2, q1.pool.delta, q2.pool.delta, ValuesAt(vals, ids));
      var r := Decode(q1, q2, w1, w2, recipient, AS_SENT, ValuesAt(vals, ids));
      AliceReadsFlipped(w1, w2, carried1, carried2, ids, ValuesAt(vals, ids));
      out1, out2 := Learned(r.bits1, |ids|), Learned(r.bits2, |ids|);
    }

    /** Flush, then prune the carried state to exactly `keeps`. */
    method Checkpoint(keeps: seq<nat>, seed: RunSeed) returns (st: Status)
      requires Valid()
      modifies this`carried1, this`carried2, this`totalAnds, ctx, q1.pool, q2.pool
      ensures st.StaleWire? <==> !Flushable(old(Now()), keeps)
      ensures st.CheckFailed? <==>
        Flushable(old(Now()), keeps) && !FlushPasses(old(Now()), keeps, FreshMasks(q1.pool.cot, old(q1.pool.drawn)))
      ensures st.Done? || st.StaleWire? || st.CheckFailed?
      ensures !st.Done? ==> Valid() && Now() == old(Now())
      ensures st.Done? ==> Valid() && ctx.pending == {} && ctx.chunk == [] && vals == old(vals) && batchOf == old(batchOf)
      ensures st.Done? ==> forall id: nat :: id in carried1 <==> id in keeps
      ensures st.Done? ==> old(Now()).Stale() <= Now().Stale()
      ensures st.Done? ==> forall id | id in keeps ::
        DiffersAt(carried1, carried2, id)
        == if id in old(ctx.pending) then FlushOff(old(Now()), keeps, id) else DiffersAt(old(carried1), old(carried2), id)
      ensures st.Done? ==> totalAnds == old(totalAnds + FlushAnds(Now(), keeps))
      ensures st.Done? ==> (Checked() <==> old(Checked()) || AnyPending(old(Now()), keeps))
    {
      hide View.Ok, View.Stale, Linked, AnyPending, Flushed, Flushable, FlushAnds, FlushPasses, FreshMasks, FlushOff;
      st := Flush(keeps, seed);
      if !st.Done? {
        return;
      }
      ghost var mid := Now();
      PrunedExactly(old(Now()), keeps, mid, q1.pool.delta, q2.pool.delta);
      Prune(keeps);
    }

    /** Drop all carried state but that of `keeps`. */
    method Prune(keeps: seq<nat>)
      requires Valid()
      modifies this`carried1, this`carried2
      ensures Valid() && Now() == old(Now()).Pruned(set id | id in keeps) && old(Now()).Stale() <= Now().Stale()
    {
      hide View.Ok, View.Stale, Linked;
      ghost var before := Now();
      PruningIsOk(before, (set id | id in keeps), q1.pool.delta, q2.pool.delta);
      carried1 := map id | id in carried1 && id in keeps :: carried1[id];
      carried2 := map id | id in carried2 && id in keeps :: carried2[id];
      assert Now() == before.Pruned((set id | id in keeps));
    }
  
    // ---- inputs ----

    /** Authenticated wires for one owner's bits; public bits need no interaction. */
    method Authenticate(owner: int, bits1: seq<bool>, bits2: seq<bool>, prg: nat -> Block)
      returns (st: Status, w1: SecureWires, w2: SecureWires)
      requires Wired() && |bits1| == |bits2| && (owner == PUBLIC ==> bits1 == bits2)
      modifies q1`processInputCalls, q2`processInputCalls, q1.pool, q2.pool
      ensures Wired() && st == if owner == ALICE || owner == BOB || owner == PUBLIC then Done else BadOwner
      ensures st.Done? ==> Encode(w1, w2, q1.pool.delta, q2.pool.delta, Chosen(owner, bits1, bits2)) && Synced(w1, w2)
      ensures st.Done? ==> IsInput(w1, w2, owner, bits1, q1.pool.delta, q2.pool.delta, q1.pool.cot, q2.pool.cot, old(q1.pool.drawn), prg)
      ensures st.Done? ==> q1.processInputCalls == old(q1.processInputCalls) + if owner == PUBLIC then 0 else 1
      ensures q1.pool.mintedSinceCheck == (old(q1.pool.mintedSinceCheck) || (st.Done? && owner != PUBLIC && bits1 != []))
      ensures q2.pool.mintedSinceCheck == (old(q2.pool.mintedSinceCheck) || (st.Done? && owner != PUBLIC && bits1 != []))
    {
      hide Encode, Linked, Flat, Synced, PublicBundle, IsDrawn;
      if owner == PUBLIC {
        PoolParties(q1.pool, q2.pool);
        w1 := q1.PublicWires(bits1);
        w2 := q2.PublicWires(bits2);
        PublicWiresEncode(q1.pool.delta, q2.pool.delta, bits1);
        return Done, w1, w2;
      }
      if owner != ALICE && owner != BOB {
        return BadOwner, NO_WIRES, NO_WIRES;
      }
      FlatHasBit([bits1]);
      var r := ProcessInputs(q1, q2, [owner], [bits1], [bits2], prg, AS_SENT, AS_SENT);
      assert r.Inputs? && |r.w1| == |r.w2| == 1;
      assert |Flat([bits1], 0)| == 0 by { FlatUnfolds([bits1]); }
      st, w1, w2 := Done, r.w1[0], r.w2[0];
    }

    /** Eager input: authenticated and carried at once; only the owner's bits count. */
    method Input(owner: int, bits1: seq<bool>, bits2: seq<bool>, prg: nat -> Block) returns (st: Status, ids: seq<nat>)
      requires Valid() && |bits1| == |bits2| && (owner == PUBLIC ==> bits1 == bits2)
      modifies this`carried1, this`carried2, this`batchOf, this`vals, ctx`nextId, q1, q2, q1.pool, q2.pool
      ensures st.BadOwner? <==> owner != ALICE && owner != BOB && owner != PUBLIC
      ensures st.Done? || st.BadOwner? || st.IdOverflow?
      ensures st.IdOverflow? <==> !st.BadOwner? && old(ctx.nextId) + |bits1| > UINT32_MAX
      ensures st.Done? ==> Valid() && vals == old(vals) + Chosen(owner, bits1, bits2) && batchOf == old(batchOf)
      ensures st.Done? ==> |ids| == |bits1| && forall i | 0 <= i < |ids| :: ids[i] == old(|vals|) + i
      ensures st.Done? ==> forall id: nat :: id in carried1 <==> id in old(carried1) || id in ids
      ensures st.Done? ==> OnlyAgreedAdded(old(carried1), old(carried2), carried1, carried2)
      ensures st.Done? ==> exists w1, w2 ::
        && Holds(carried1, ids, w1, false) && Holds(carried2, ids, w2, true)
        && IsInput(w1, w2, owner, bits1, q1.pool.delta, q2.pool.delta, q1.pool.cot, q2.pool.cot, old(q1.pool.drawn), prg)
      ensures st.Done? ==> Now().Stale() == old(Now()).Stale()
      ensures st.Done? ==> q1.processInputCalls == old(q1.processInputCalls) + if owner == PUBLIC then 0 else 1
      ensures q1.pool.mintedSinceCheck == (old(q1.pool.mintedSinceCheck) || (!st.BadOwner? && owner != PUBLIC && bits1 != []))
      ensures q2.pool.mintedSinceCheck == (old(q2.pool.mintedSinceCheck) || (!st.BadOwner? && owner != PUBLIC && bits1 != []))
    {
      hide View.Ok, View.Stale, Encode, Linked, Synced, OnlyAgreedAdded, IsInput, Holds;
      var w1, w2;
      st, w1, w2 := Authenticate(owner, bits1, bits2, prg);
      ids := [];
      if !st.Done? {
        return;
      }
      st, ids := Materialize(w1, w2, Chosen(owner, bits1, bits2));
    }

    // ---- runs ----

    /** Arguments of a run must be carried; their bundles are appended in order. */
    method AppendArgs(args: seq<seq<nat>>) returns (st: Status, w1: SecureWires, w2: SecureWires)
      requires Valid()
      ensures st == if forall i | 0 <= i < |ArgIds(args)| :: ArgIds(args)[i] in carried1 then Done else Unflushed
      ensures st.Done? ==> forall i | 0 <= i < |ArgIds(args)| :: ArgIds(args)[i] < |vals|
      ensures st.Done? ==> Encode(w1, w2, q1.pool.delta, q2.pool.delta, ValuesAt(vals, ArgIds(args)))
      ensures st.Done? ==> w1.masks == MasksAt(carried1, ArgIds(args)) && w2.masks == MasksAt(carried2, ArgIds(args))
      ensures st.Done? ==> w1.bundle == BundlesAt(carried1, ArgIds(args))
    {
      hide View.Ok, Encode, Linked, ValuesAt, SecureWires.WellShaped, Flat, Synced, MasksAt, BundlesAt;
      w1, w2 := NO_WIRES, NO_WIRES;
      NoArgs(args, q1.pool.delta, q2.pool.delta, vals, carried1, carried2);
      for k := 0 to |args|
        invariant forall i | 0 <= i < |Flat<nat>(args, k)| :: Flat<nat>(args, k)[i] in carried1 && Flat<nat>(args, k)[i] < |vals|
        invariant Encode(w1, w2, q1.pool.delta, q2.pool.delta, ValuesAt(vals, Flat<nat>(args, k)))
        invariant w1.masks == MasksAt(carried1, Flat<nat>(args, k)) && w2.masks == MasksAt(carried2, Flat<nat>(args, k))
        invariant w1.bundle == BundlesAt(carried1, Flat<nat>(args, k))
      {
        var ok, a1, a2 := GatherCarried(args[k]);
        if !ok {
          MissingArg(args, k, carried1);
          return Unflushed, NO_WIRES, NO_WIRES;
        }
        FlatUnfolds(args);
        EncodeAppends(w1, w2, a1, a2, q1.pool.delta, q2.pool.delta, ValuesAt(vals, Flat<nat>(args, k)), ValuesAt(vals, args[k]));
        ValuesAppend(vals, Flat<nat>(args, k), args[k]);
        MasksAppend(carried1, Flat<nat>(args, k), args[k]);
        MasksAppend(carried2, Flat<nat>(args, k), args[k]);
        w1, w2 := w1.Append(a1), w2.Append(a2);
      }
      st := Done;
    }

    /** Run a live body over carried arguments, outside the recorder; its outputs are carried at once. The check fails exactly
        when the differences between the parties' masks of the arguments disturb an AND. */
    method RunBody(calls: seq<Gate>, outs: seq<nat>, args: seq<seq<nat>>, seed: RunSeed) returns (st: Status, ids: seq<nat>)
      requires Valid() && Body(|ArgIds(args)|, calls, outs)
      modifies this`carried1, this`carried2, this`batchOf, this`vals, this`totalAnds, ctx`nextId, q1.pool, q2.pool
      ensures st.Unflushed? <==> exists i | 0 <= i < |ArgIds(args)| :: ArgIds(args)[i] !in old(carried1)
      ensures st.Done? || st.Unflushed? || st.IdOverflow? || st.CheckFailed?
      ensures st.IdOverflow? <==> !st.Unflushed? && !st.CheckFailed? && old(ctx.nextId) + |outs| > UINT32_MAX
      ensures st.CheckFailed? <==> !st.Unflushed? && !RunUndisturbed(|ArgIds(args)|, calls,
        MasksAt(old(carried1), ArgIds(args)), MasksAt(old(carried2), ArgIds(args)), BundlesAt(old(carried1), ArgIds(args)),
        FreshMasks(q1.pool.cot, old(q1.pool.drawn)))
      ensures st.CheckFailed? ==> Now() == old(Now()) && Valid() && batchOf == old(batchOf)
      ensures st.Done? ==> Valid() && forall i | 0 <= i < |ArgIds(args)| :: ArgIds(args)[i] < old(|vals|)
      ensures st.Done? ==> vals == old(vals) + Outputs(|ArgIds(args)|, calls, ValuesAt(old(vals), ArgIds(args)), outs)
      ensures st.Done? ==> |ids| == |outs| && forall i | 0 <= i < |ids| :: ids[i] == old(|vals|) + i
      ensures st.Done? ==> forall id: nat :: id in carried1 <==> id in old(carried1) || id in ids
      ensures st.Done? ==> batchOf == old(batchOf) && Now().Stale() == old(Now()).Stale()
      ensures st.Done? ==> forall id | id in old(carried1) :: carried1[id] == old(carried1[id])
      ensures st.Done? ==> forall id | id in old(carried2) :: id in carried2 && carried2[id] == old(carried2[id])
      ensures st.Done? ==> RunOutputsOff(|ArgIds(args)|, calls, outs, MasksAt(old(carried1), ArgIds(args)),
        MasksAt(old(carried2), ArgIds(args)), MasksAt(carried1, ids), MasksAt(carried2, ids))
      ensures st.Done? ==> totalAnds == old(totalAnds) + NumAnds(Stream(|ArgIds(args)|, calls)) && Checked()
    {
      hide View.Ok, View.Stale, Encode, Linked, ValuesAt, ArgIds, Body, Outputs, OutputMasksTravel, Synced, Stream;
      hide NumAnds, RunUndisturbed, RunOutputsOff, MasksAt, BundlesAt, OutputsComeOutRight, FreshMasks;
      ids := [];
      ghost var flat := ArgIds(args);
      var in1, in2;
      st, in1, in2 := AppendArgs(args);
      if !st.Done? {
        return;
      }
      ghost var x := ValuesAt(vals, flat);
      var ok, out1, out2, ands, g, e := RunSource(q1.pool, q2.pool, in1, in2, calls, outs, seed, x);
      if !ok {
        return Status.CheckFailed, [];
      }
      totalAnds := totalAnds + ands;
      st, ids := Materialize(out1, out2, Outputs(|x|, calls, x, outs));
    }
  
    /** Run a stored program over carried arguments: validated, not trusted. */
    method RunCompiled(prog: Program, args: seq<seq<nat>>, seed: RunSeed) returns (st: Status, ids: seq<nat>)
      requires Valid()
      modifies this`carried1, this`carried2, this`batchOf, this`vals, this`totalAnds, ctx`nextId, q1.pool, q2.pool
      ensures st.Unflushed? <==> exists i | 0 <= i < |ArgIds(args)| :: ArgIds(args)[i] !in old(carried1)
      ensures st.BadWidth? <==> !st.Unflushed? && |ArgIds(args)| != prog.numInputs
      ensures st.NotCanonical? <==> !st.Unflushed? && !st.BadWidth? && !CanonicalProgram(prog)
      ensures st.Done? || st.Unflushed? || st.BadWidth? || st.NotCanonical? || st.IdOverflow? || st.CheckFailed?
      ensures st.IdOverflow? <==> !st.Unflushed? && !st.BadWidth? && !st.NotCanonical? && !st.CheckFailed?
                                  && old(ctx.nextId) + |prog.outputs| > UINT32_MAX
      ensures st.CheckFailed? <==> !st.Unflushed? && !st.BadWidth? && !st.NotCanonical? && !RunUndisturbed(|ArgIds(args)|, prog.gates,
        MasksAt(old(carried1), ArgIds(args)), MasksAt(old(carried2), ArgIds(args)), BundlesAt(old(carried1), ArgIds(args)),
        FreshMasks(q1.pool.cot, old(q1.pool.drawn)))
      ensures st.CheckFailed? ==> Now() == old(Now()) && Valid() && batchOf == old(batchOf)
      ensures st.Done? ==> Valid() && Body(|ArgIds(args)|, prog.gates, prog.outputs)
      ensures st.Done? ==> forall i | 0 <= i < |ArgIds(args)| :: ArgIds(args)[i] < old(|vals|)
      ensures st.Done? ==> vals == old(vals) + Outputs(|ArgIds(args)|, prog.gates, ValuesAt(old(vals), ArgIds(args)), prog.outputs)
      ensures st.Done? ==> |ids| == |prog.outputs| && forall i | 0 <= i < |ids| :: ids[i] == old(|vals|) + i
      ensures st.Done? ==> forall id: nat :: id in carried1 <==> id in old(carried1) || id in ids
      ensures st.Done? ==> batchOf == old(batchOf) && Now().Stale() == old(Now()).Stale()
      ensures st.Done? ==> forall id | id in old(carried1) :: carried1[id] == old(carried1[id])
      ensures st.Done? ==> forall id | id in old(carried2) :: id in carried2 && carried2[id] == old(carried2[id])
      ensures st.Done? ==> RunOutputsOff(|ArgIds(args)|, prog.gates, prog.outputs, MasksAt(old(carried1), ArgIds(args)),
        MasksAt(old(carried2), ArgIds(args)), MasksAt(carried1, ids), MasksAt(carried2, ids))
      ensures st.Done? ==> totalAnds == old(totalAnds) + NumAnds(Stream(|ArgIds(args)|, prog.gates)) && Checked()
    {
      hide View.Ok, View.Stale, Encode, Linked, ValuesAt, ArgIds, Outputs, OutputMasksTravel, Synced, Stream, NumAnds;
      hide ConstsUnique, RunUndisturbed, RunOutputsOff, MasksAt, BundlesAt, FreshMasks;
      ids := [];
      var in1, in2;
      st, in1, in2 := AppendArgs(args);
      if !st.Done? {
        return;
      }
      ghost var x := ValuesAt(vals, ArgIds(args));
      EncodedShapes(in1, in2, q1.pool.delta, q2.pool.delta, x);
      if |in1.masks| != prog.numInputs {
        return BadWidth, [];
      }
      var r, ands := RunProgram(q1.pool, q2.pool, prog, in1, in2, seed, x);
      match r {
        case Refused => return NotCanonical, [];
        case CheckFailed => return Status.CheckFailed, [];
        case Ran(out1, out2) =>
          totalAnds := totalAnds + ands;
          st, ids := Materialize(out1, out2, Outputs(|x|, prog.gates, x, prog.outputs));
      }
    }

    // ---- batched inputs ----

    /** Reserve ids for wires whose owner's bits are known but not yet authenticated. */
    method ReserveFor(b: InputBatch, owner: int, bits1: seq<bool>, bits2: seq<bool>) returns (st: Status, ids: seq<nat>)
      requires Valid() && |bits1| == |bits2|
      modifies ctx`nextId, this`vals, this`batchOf
      ensures st == if old(ctx.nextId) + |bits1| <= UINT32_MAX then Done else IdOverflow
      ensures st.Done? ==> Valid() && vals == old(vals) + Chosen(owner, bits1, bits2)
      ensures st.Done? ==> |ids| == |bits1| && forall i | 0 <= i < |ids| :: ids[i] == old(|vals|) + i
      ensures st.Done? ==> NoDuplicates(ids) && ValuesAt(vals, ids) == Chosen(owner, bits1, bits2)
      ensures st.Done? ==> forall id: nat :: id in batchOf <==> id in old(batchOf) || id in ids
      ensures st.Done? ==> forall id | id in batchOf :: batchOf[id] == if id in ids then b else old(batchOf[id])
      ensures st.Done? ==> Now().Stale() == old(Now()).Stale()
    {
      hide View.Ok, View.Stale, Linked, RecorderOk, ValuesAt, NoDuplicates;
      ghost var before := Now();
      RecorderPart(before, q1.pool.delta, q2.pool.delta);
      ghost var x := Chosen(owner, bits1, bits2);
      st, ids := ctx.ReserveIds(|bits1|);
      if !st.Done? {
        return;
      }
      SetAside(before, x, ids, q1.pool.delta, q2.pool.delta);
      vals := vals + x;
      batchOf := batchOf + map id | id in ids :: b;
      assert batchOf.Keys == before.waiting + (set id | id in ids);
      assert Now() == before.Reserved(x).(waiting := before.waiting + (set id | id in ids));
    }
  
    /** Store the bundles of one entry of a batch. */
    method FinishEntry(e: Entry, w1: SecureWires, w2: SecureWires)
      requires Valid() && EntryOk(vals, ctx.pending, e)
      requires Encode(w1, w2, q1.pool.delta, q2.pool.delta, Chosen(e.owner, e.bits1, e.bits2)) && Synced(w1, w2)
      modifies this`carried1, this`carried2, this`batchOf
      ensures Valid() && batchOf == old(batchOf) - (set id | id in e.ids)
      ensures forall id: nat :: id in carried1 <==> id in old(carried1) || id in e.ids
      ensures OnlyAgreedAdded(old(carried1), old(carried2), carried1, carried2)
    {
      hide View.Ok, Encode, Linked, ValuesAt, Synced, NoDuplicates, OnlyAgreedAdded, MasksAt;
      EncodedShapes(w1, w2, q1.pool.delta, q2.pool.delta, Chosen(e.owner, e.bits1, e.bits2));
      var st := MaterializeInto(e.ids, w1, w2);
    }

    /** Public wires need no interaction: both parties make them and store them. */
    method FinishPublicEntry(e: Entry)
      requires Valid() && EntryOk(vals, ctx.pending, e) && e.owner == PUBLIC
      modifies this`carried1, this`carried2, this`batchOf
      ensures Valid() && batchOf == old(batchOf) - (set id | id in e.ids)
      ensures forall id: nat :: id in carried1 <==> id in old(carried1) || id in e.ids
      ensures OnlyAgreedAdded(old(carried1), old(carried2), carried1, carried2)
    {
      hide View.Ok, Encode, Linked, EntryOk, Synced, PublicBundle, OnlyAgreedAdded;
      PoolParties(q1.pool, q2.pool);
      PublicEntry(vals, ctx.pending, e);
      var w1 := q1.PublicWires(e.bits1);
      var w2 := q2.PublicWires(e.bits2);
      PublicWiresEncode(q1.pool.delta, q2.pool.delta, e.bits1);
      FinishEntry(e, w1, w2);
    }

    /** First sweep of a batch: public entries are stored at once, ALICE's and BOB's are put aside for one input phase. */
    method FinishPublic(entries: seq<Entry>) returns (st: Status, secret: seq<nat>, ghost stored: set<nat>)
      requires Valid() && forall a | 0 <= a < |entries| :: EntryOk(vals, ctx.pending, entries[a])
      modifies this`carried1, this`carried2, this`batchOf
      ensures st == if forall a | 0 <= a < |entries| :: KnownOwner(entries[a].owner) then Done else BadOwner
      ensures st.Done? ==> Valid() && batchOf == old(batchOf) - IdsIn(entries, stored)
      ensures st.Done? ==> forall id: nat :: id in carried1 <==> id in old(carried1) || id in IdsIn(entries, stored)
      ensures st.Done? ==> OnlyAgreedAdded(old(carried1), old(carried2), carried1, carried2)
      ensures st.Done? ==> forall a :: a in stored <==> 0 <= a < |entries| && entries[a].owner == PUBLIC
      ensures st.Done? ==> forall a :: a in secret <==> 0 <= a < |entries| && entries[a].owner != PUBLIC
    {
      hide View.Ok, Linked, EntryOk, IdsIn, OnlyAgreedAdded;
      secret, stored := [], {};
      NoIds(entries);
      NothingAdded(Now(), q1.pool.delta, q2.pool.delta);
      for a := 0 to |entries|
        invariant Valid() && batchOf == old(batchOf) - IdsIn(entries, stored)
        invariant forall id: nat :: id in carried1 <==> id in old(carried1) || id in IdsIn(entries, stored)
        invariant OnlyAgreedAdded(old(carried1), old(carried2), carried1, carried2)
        invariant forall j :: j in stored <==> 0 <= j < a && entries[j].owner == PUBLIC
        invariant forall j :: j in secret <==> 0 <= j < a && entries[j].owner != PUBLIC
        invariant forall j | 0 <= j < a :: KnownOwner(entries[j].owner)
      {
        var e := entries[a];
        if e.owner == PUBLIC {
          ghost var mid1, mid2 := carried1, carried2;
          FinishPublicEntry(e);
          AddedTwice(old(carried1), old(carried2), mid1, mid2, carried1, carried2);
          OneMoreEntry(entries, stored, a);
          stored := stored + {a};
        } else if e.owner == ALICE || e.owner == BOB {
          secret := secret + [a];
        } else {
          return BadOwner, secret, stored;
        }
      }
      st := Done;
    }

    /** One input phase for all of ALICE's and BOB's entries. */
    method AuthenticateEntries(entries: seq<Entry>, secret: seq<nat>, prg: nat -> Block) returns (w1: seq<SecureWires>, w2: seq<SecureWires>)
      requires Wired() && forall a | 0 <= a < |entries| :: EntryOk(vals, ctx.pending, entries[a])
      requires forall j | 0 <= j < |secret| :: secret[j] < |entries|
      requires forall j | 0 <= j < |secret| :: entries[secret[j]].owner == ALICE || entries[secret[j]].owner == BOB
      modifies q1`processInputCalls, q2`processInputCalls, q1.pool, q2.pool
      ensures Wired() && |w1| == |w2| == |secret|
      ensures forall j {:trigger w1[j]} | 0 <= j < |secret| :: var e := entries[secret[j]];
        Encode(w1[j], w2[j], q1.pool.delta, q2.pool.delta, Chosen(e.owner, e.bits1, e.bits2)) && Synced(w1[j], w2[j])
      ensures q1.processInputCalls == old(q1.processInputCalls) + 1 && q2.processInputCalls == old(q2.processInputCalls) + 1
      ensures q1.pool.mintedSinceCheck == (old(q1.pool.mintedSinceCheck) || HasBits(entries, secret))
      ensures q2.pool.mintedSinceCheck == (old(q2.pool.mintedSinceCheck) || HasBits(entries, secret))
    {
      hide Encode, Linked, EntryOk, Flat, Synced;
      var owners := seq(|secret|, j requires 0 <= j < |secret| => entries[secret[j]].owner);
      var bits1 := seq(|secret|, j requires 0 <= j < |secret| => entries[secret[j]].bits1);
      var bits2 := seq(|secret|, j requires 0 <= j < |secret| => entries[secret[j]].bits2);
      SecretShapes(vals, ctx.pending, entries, secret, bits1, bits2);
      FlatHasBit(bits1);
      var r := ProcessInputs(q1, q2, owners, bits1, bits2, prg, AS_SENT, AS_SENT);
      w1, w2 := r.w1, r.w2;
    }

    /** Second sweep: all of ALICE's and BOB's entries through one input phase. */
    method FinishSecret(entries: seq<Entry>, secret: seq<nat>, prg: nat -> Block)
      requires Valid() && forall a | 0 <= a < |entries| :: EntryOk(vals, ctx.pending, entries[a])
      requires forall j | 0 <= j < |secret| :: secret[j] < |entries|
      requires forall j | 0 <= j < |secret| :: entries[secret[j]].owner == ALICE || entries[secret[j]].owner == BOB
      modifies this`carried1, this`carried2, this`batchOf, q1`processInputCalls, q2`processInputCalls, q1.pool, q2.pool
      ensures Valid() && batchOf == old(batchOf) - IdsIn(entries, Members(secret))
      ensures forall id: nat :: id in carried1 <==> id in old(carried1) || id in IdsIn(entries, Members(secret))
      ensures OnlyAgreedAdded(old(carried1), old(carried2), carried1, carried2)
      ensures q1.pool.mintedSinceCheck == (old(q1.pool.mintedSinceCheck) || HasBits(entries, secret))
      ensures q2.pool.mintedSinceCheck == (old(q2.pool.mintedSinceCheck) || HasBits(entries, secret))
      ensures q1.processInputCalls == old(q1.processInputCalls) + 1 && q2.processInputCalls == old(q2.processInputCalls) + 1
    {
      hide View.Ok, Encode, Linked, EntryOk, IdsIn, Synced, Members, OnlyAgreedAdded, HasBits;
      NothingAdded(Now(), q1.pool.delta, q2.pool.delta);
      var w1, w2 := AuthenticateEntries(entries, secret, prg);
      NoIds(entries);
      MembersGrow(secret, 0);
      for j := 0 to |secret|
        invariant Valid() && batchOf == old(batchOf) - IdsIn(entries, Members(secret[..j]))
        invariant forall id: nat :: id in carried1 <==> id in old(carried1) || id in IdsIn(entries, Members(secret[..j]))
        invariant OnlyAgreedAdded(old(carried1), old(carried2), carried1, carried2)
        invariant q1.processInputCalls == old(q1.processInputCalls) + 1 && q2.processInputCalls == old(q2.processInputCalls) + 1
        invariant q1.pool.mintedSinceCheck == (old(q1.pool.mintedSinceCheck) || HasBits(entries, secret))
        invariant q2.pool.mintedSinceCheck == (old(q2.pool.mintedSinceCheck) || HasBits(entries, secret))
      {
        ghost var mid1, mid2 := carried1, carried2;
        FinishEntry(entries[secret[j]], w1[j], w2[j]);
        AddedTwice(old(carried1), old(carried2), mid1, mid2, carried1, carried2);
        OneMoreEntry(entries, Members(secret[..j]), secret[j]);
        MembersGrow(secret, j);
      }
      assert secret[..|secret|] == secret;
    }

    /** Authenticate every entry of a batch: the public ones locally, all others in one input phase. */
    method FinishBatch(entries: seq<Entry>, prg: nat -> Block) returns (st: Status)
      requires Valid() && forall a | 0 <= a < |entries| :: EntryOk(vals, ctx.pending, entries[a])
      requires forall a, id | 0 <= a < |entries| && id in entries[a].ids :: id in batchOf
      modifies this`carried1, this`carried2, this`batchOf, q1`processInputCalls, q2`processInputCalls, q1.pool, q2.pool
      ensures st == if forall a | 0 <= a < |entries| :: KnownOwner(entries[a].owner) then Done else BadOwner
      ensures st.Done? ==> Valid() && batchOf == old(batchOf) - AllIds(entries)
      ensures st.Done? ==> forall id: nat :: id in carried1 <==> id in old(carried1) || id in AllIds(entries)
      ensures st.Done? ==> OnlyAgreedAdded(old(carried1), old(carried2), carried1, carried2)
      ensures st.Done? ==> q1.processInputCalls == old(q1.processInputCalls) + if AnySecret(entries) then 1 else 0
      ensures st.Done? ==> q1.pool.mintedSinceCheck == (old(q1.pool.mintedSinceCheck) || AnySecretBit(entries))
      ensures st.Done? ==> q2.pool.mintedSinceCheck == (old(q2.pool.mintedSinceCheck) || AnySecretBit(entries))
      ensures st.Done? ==> Now().Stale() == old(Now()).Stale()
    {
      hide View.Ok, View.Stale, Linked, EntryOk, IdsIn, AllIds, AnySecret, Members, OnlyAgreedAdded, HasBits;
      hide AnySecretBit;
      var secret;
      ghost var stored;
      st, secret, stored := FinishPublic(entries);
      if !st.Done? {
        return;
      }
      ghost var hidden := Members(secret);
      SecretsFound(entries, secret);
      SecretBitsFound(entries, secret);
      if secret != [] {
        ghost var mid1, mid2 := carried1, carried2;
        FinishSecret(entries, secret, prg);
        AddedTwice(old(carried1), old(carried2), mid1, mid2, carried1, carried2);
      } else {
        NoIds(entries);
      }
      SplitIds(entries, stored, hidden);
      StaleAfterBatch(old(Now()), Now(), entries);
    }
  }

  lemma NothingAdded(v: View, d1: Block, d2: Block)
    requires v.Ok(d1, d2)
    ensures OnlyAgreedAdded(v.carried1, v.carried2, v.carried1, v.carried2)
  {
    CarriedPart(v, d1, d2);
    hide View.Ok, CarriedOk;
    assert forall id | id in v.carried1 :: id in v.carried2.Keys;
  }

  ghost function Members(s: seq<nat>): set<nat> {
    set a | a in s
  }

  lemma MembersGrow(s: seq<nat>, j: nat)
    requires j <= |s|
    ensures Members(s[..0]) == {} && Members(s[..|s|]) == Members(s)
    ensures j < |s| ==> Members(s[..j + 1]) == Members(s[..j]) + {s[j]}
  {
    assert s[..|s|] == s;
    assert j < |s| ==> s[..j + 1] == s[..j] + [s[j]];
  }

  ghost predicate AnySecret(entries: seq<Entry>) {
    exists a | 0 <= a < |entries| :: entries[a].owner != PUBLIC
  }

  /** Some entry that is not public has a bit. */
  ghost predicate AnySecretBit(entries: seq<Entry>) {
    exists a | 0 <= a < |entries| :: entries[a].owner != PUBLIC && entries[a].bits1 != []
  }

  ghost predicate HasBits(entries: seq<Entry>, secret: seq<nat>)
    requires forall j | 0 <= j < |secret| :: secret[j] < |entries|
  {
    exists j | 0 <= j < |secret| :: entries[secret[j]].bits1 != []
  }

  lemma SecretBitsFound(entries: seq<Entry>, secret: seq<nat>)
    requires forall a :: a in secret <==> 0 <= a < |entries| && entries[a].owner != PUBLIC
    ensures forall j | 0 <= j < |secret| :: secret[j] < |entries|
    ensures HasBits(entries, secret) <==> AnySecretBit(entries)
    ensures secret == [] ==> !AnySecretBit(entries)
  {
    forall j | 0 <= j < |secret|
      ensures secret[j] < |entries| && entries[secret[j]].owner != PUBLIC
    {
      assert secret[j] in secret;
    }
    if a :| 0 <= a < |entries| && entries[a].owner != PUBLIC && entries[a].bits1 != [] {
      assert a in secret;
      var j :| 0 <= j < |secret| && secret[j] == a;
    }
  }

  lemma {:induction false} FlatHasBitUpTo(bits: seq<seq<bool>>, k: nat)
    requires k <= |bits|
    ensures |Flat(bits, k)| > 0 <==> exists j | 0 <= j < k :: bits[j] != []
  {
    if k > 0 {
      FlatHasBitUpTo(bits, k - 1);
    }
  }

  lemma FlatHasBit(bits: seq<seq<bool>>)
    ensures |Flat(bits, |bits|)| > 0 <==> exists j | 0 <= j < |bits| :: bits[j] != []
  {
    FlatHasBitUpTo(bits, |bits|);
  }

  lemma SecretsFound(entries: seq<Entry>, secret: seq<nat>)
    requires forall a | 0 <= a < |entries| :: KnownOwner(entries[a].owner)
    requires forall a :: a in secret <==> 0 <= a < |entries| && entries[a].owner != PUBLIC
    ensures forall a :: a in Members(secret) <==> 0 <= a < |entries| && entries[a].owner != PUBLIC
    ensures AnySecret(entries) <==> secret != []
    ensures secret == [] ==> Members(secret) == {}
    ensures forall j | 0 <= j < |secret| ::
      secret[j] < |entries| && (entries[secret[j]].owner == ALICE || entries[secret[j]].owner == BOB)
  {
    forall j | 0 <= j < |secret|
      ensures secret[j] < |entries| && (entries[secret[j]].owner == ALICE || entries[secret[j]].owner == BOB)
    {
      assert secret[j] in secret;
    }
    if secret != [] {
      assert secret[0] in secret;
    }
  }

  ghost function AllIds(entries: seq<Entry>): set<nat> {
    set a, id | 0 <= a < |entries| && id in entries[a].ids :: id
  }

  lemma SplitIds(entries: seq<Entry>, stored: set<nat>, hidden: set<nat>)
    requires forall a :: a in stored <==> 0 <= a < |entries| && entries[a].owner == PUBLIC
    requires forall a :: a in hidden <==> 0 <= a < |entries| && entries[a].owner != PUBLIC
    ensures AllIds(entries) == IdsIn(entries, stored) + IdsIn(entries, hidden)
  {
  }

  lemma StaleAfterBatch(v: View, after: View, entries: seq<Entry>)
    requires forall a, id | 0 <= a < |entries| && id in entries[a].ids :: id in v.waiting
    requires after == v.(carried1 := after.carried1, carried2 := after.carried2, waiting := v.waiting - AllIds(entries))
    requires forall id: nat :: id in after.carried1 <==> id in v.carried1 || id in AllIds(entries)
    ensures after.Stale() == v.Stale()
  {
    forall id | id in AllIds(entries)
      ensures id in v.waiting
    {
    }
    hide IdsIn, AllIds;
  }

  lemma SecretShapes(vals: seq<bool>, pending: set<nat>, entries: seq<Entry>, secret: seq<nat>, bits1: seq<seq<bool>>, bits2: seq<seq<bool>>)
    requires forall a | 0 <= a < |entries| :: EntryOk(vals, pending, entries[a])
    requires (forall j | 0 <= j < |secret| :: secret[j] < |entries|) && |bits1| == |bits2| == |secret|
    requires forall j | 0 <= j < |secret| :: bits1[j] == entries[secret[j]].bits1 && bits2[j] == entries[secret[j]].bits2
    ensures SameShape(bits1, bits2)
  {
    hide ValuesAt, NoDuplicates;
    forall j | 0 <= j < |secret|
      ensures |bits1[j]| == |bits2[j]|
    {
      assert EntryOk(vals, pending, entries[secret[j]]);
    }
  }

  /** One `add` of an input batch: its owner, both parties' bits, and the ids reserved for it. */
  datatype Entry = Entry(owner: int, bits1: seq<bool>, bits2: seq<bool>, ids: seq<nat>)

  /** The reserved ids already have the owner's bits as their values, and no gate drives them. */
  ghost predicate EntryOk(vals: seq<bool>, pending: set<nat>, e: Entry) {
    && |e.bits1| == |e.bits2| == |e.ids| && (e.owner == PUBLIC ==> e.bits1 == e.bits2)
    && NoDuplicates(e.ids)
    && (forall i | 0 <= i < |e.ids| :: e.ids[i] < |vals| && e.ids[i] !in pending)
    && ValuesAt(vals, e.ids) == Chosen(e.owner, e.bits1, e.bits2)
  }

  /** The ids of some of the entries. */
  ghost function IdsIn(entries: seq<Entry>, which: set<nat>): set<nat> {
    set a, id | a in which && a < |entries| && id in entries[a].ids :: id
  }

  lemma NoIds(entries: seq<Entry>)
    ensures IdsIn(entries, {}) == {}
  {
  }

  lemma OneMoreEntry(entries: seq<Entry>, which: set<nat>, a: nat)
    requires a < |entries|
    ensures IdsIn(entries, which + {a}) == IdsIn(entries, which) + (set id | id in entries[a].ids)
  {
  }

  lemma PublicEntry(vals: seq<bool>, pending: set<nat>, e: Entry)
    requires EntryOk(vals, pending, e) && e.owner == PUBLIC
    ensures e.bits1 == e.bits2 == Chosen(e.owner, e.bits1, e.bits2)
  {
    hide NoDuplicates, ValuesAt;
  }

  lemma SetAside(v: View, x: seq<bool>, ids: seq<nat>, d1: Block, d2: Block)
    requires v.Ok(d1, d2) && v.nextId + |x| <= UINT32_MAX
    requires |ids| == |x| && forall i | 0 <= i < |x| :: ids[i] == v.nextId + i
    ensures var after := v.Reserved(x).(waiting := v.waiting + (set id | id in ids));
      after.Ok(d1, d2) && after.Stale() == v.Stale()
    ensures NoDuplicates(ids) && |v.vals| == v.nextId
    ensures (forall i | 0 <= i < |ids| :: ids[i] < |v.vals + x|) && ValuesAt(v.vals + x, ids) == x
  {
    hide View.Ok, RecorderOk, ValuesAt, NoDuplicates;
    RecorderPart(v, d1, d2);
    AllBelow(v, d1, d2);
    FreshValues(v.vals, x, ids);
    ReservingIsOk(v, x, d1, d2);
    WaitingIsOk(v.Reserved(x), (set id | id in ids), d1, d2);
  }

  /** Unused ids may be set aside. */
  lemma WaitingIsOk(v: View, ids: set<nat>, d1: Block, d2: Block)
    requires v.Ok(d1, d2) && forall id | id in ids :: id < v.nextId && id !in v.pending && id !in v.carried1
    ensures v.(waiting := v.waiting + ids).Ok(d1, d2)
  {
    hide RecorderOk, Explains, CarriedOk;
  }

  /** All arguments of a run, end to end. */
  function ArgIds(args: seq<seq<nat>>): seq<nat> {
    Flat<nat>(args, |args|)
  }

  lemma NoArgs(args: seq<seq<nat>>, d1: Block, d2: Block, vals: seq<bool>, c1: Carried, c2: Carried)
    ensures Flat<nat>(args, 0) == [] && ValuesAt(vals, []) == [] && Encode(NO_WIRES, NO_WIRES, d1, d2, [])
    ensures NO_WIRES.masks == MasksAt(c1, []) == MasksAt(c2, []) && NO_WIRES.bundle == BundlesAt(c1, [])
  {
  }

  lemma MissingArg(args: seq<seq<nat>>, k: nat, carried: Carried)
    requires k < |args| && exists i | 0 <= i < |args[k]| :: args[k][i] !in carried
    ensures exists i | 0 <= i < |ArgIds(args)| :: ArgIds(args)[i] !in carried
  {
    FlatSlice(args, k);
    var i :| 0 <= i < |args[k]| && args[k][i] !in carried;
    assert ArgIds(args)[|Flat<nat>(args, k)|..|Flat<nat>(args, k)| + |args[k]|][i] == ArgIds(args)[|Flat<nat>(args, k)| + i];
  }

  lemma ValuesAppend(vals: seq<bool>, a: seq<nat>, b: seq<nat>)
    requires (forall i | 0 <= i < |a| :: a[i] < |vals|) && forall i | 0 <= i < |b| :: b[i] < |vals|
    ensures forall i | 0 <= i < |a + b| :: (a + b)[i] < |vals|
    ensures ValuesAt(vals, a + b) == ValuesAt(vals, a) + ValuesAt(vals, b)
  {
  }

  lemma PoolParties(p1: TriplePool, p2: TriplePool)
    requires Linked(p1, p2)
    ensures p1.party == 1 && p2.party == 2
  {
  }

  /** A party that was sent the bits of all wires learns them. */
  function Learned(bits: seq<bool>, width: nat): Option<seq<bool>> {
    if |bits| == width then Some(bits) else None
  }

  lemma KeptAreCarried(v: View, keeps: seq<nat>, after: View)
    requires Flushable(v, keeps) && Flushed(v, keeps, after)
    ensures forall i | 0 <= i < |keeps| :: keeps[i] in after.carried1
  {
    hide FlushOff, External;
    forall i | 0 <= i < |keeps|
      ensures keeps[i] in after.carried1
    {
      assert keeps[i] in keeps;
    }
  }

  lemma PrunedExactly(v: View, keeps: seq<nat>, mid: View, d1: Block, d2: Block)
    requires v.Ok(d1, d2) && mid.Ok(d1, d2) && Flushable(v, keeps) && Flushed(v, keeps, mid)
    ensures mid.pending == {} && mid.chunk == [] && mid.vals == v.vals && mid.waiting == v.waiting
    ensures var after := mid.Pruned(set id | id in keeps);
      && (forall id: nat :: id in after.carried1 <==> id in keeps)
      && forall id | id in keeps :: DiffersAt(after.carried1, after.carried2, id)
           == if id in v.pending then FlushOff(v, keeps, id) else DiffersAt(v.carried1, v.carried2, id)
  {
    hide View.Ok, External, AnyPending, FlushOff;
    KeptAreCarried(v, keeps, mid);
    CarriedPart(v, d1, d2);
    CarriedPart(mid, d1, d2);
    forall id: nat | id in keeps
      ensures id in mid.carried1 && id in mid.carried2
      ensures DiffersAt(mid.carried1, mid.carried2, id)
           == if id in v.pending then FlushOff(v, keeps, id) else DiffersAt(v.carried1, v.carried2, id)
    {
      assert id in mid.carried1.Keys;
      if id !in v.pending {
        assert id in v.carried1.Keys;
      }
    }
  }

  lemma LinkedDeltas(p1: TriplePool, p2: TriplePool)
    requires Linked(p1, p2)
    ensures GoodDeltas(p1.delta, p2.delta)
  {
  }

  lemma JustDropped(v: View, keeps: seq<nat>)
    requires !AnyPending(v, keeps)
    ensures Flushed(v, keeps, v.Dropped())
  {
    hide FlushOff;
    assert forall id | id in keeps :: id !in v.pending;
  }

  /** The ends of a successful plan, in terms of the session state. */
  lemma PlanEnds(v: View, keeps: seq<nat>, plan: FlushPlan)
    requires forall w: nat :: w in v.pending <==> Local(v.chunk, w)
    requires forall w :: w in plan.inputIds <==> External(v.chunk, keeps, w) && w in v.carried1
    requires forall w :: w in plan.outputIds <==> w in keeps && Local(v.chunk, w)
    ensures forall i | 0 <= i < |plan.inputIds| :: plan.inputIds[i] in v.carried1 && !Local(v.chunk, plan.inputIds[i])
    ensures forall w :: w in plan.outputIds <==> w in keeps && w in v.pending
  {
    hide Needed;
    forall i | 0 <= i < |plan.inputIds|
      ensures plan.inputIds[i] in v.carried1 && !Local(v.chunk, plan.inputIds[i])
    {
      assert plan.inputIds[i] in plan.inputIds;
    }
  }

  lemma FlushIsOk(v: View, keeps: seq<nat>, outIds: seq<nat>, w1: SecureWires, w2: SecureWires, after: View, d1: Block, d2: Block)
    requires v.Ok(d1, d2) && AnyPending(v, keeps) && NoDuplicates(outIds)
    requires forall w :: w in outIds <==> w in keeps && w in v.pending
    requires forall i | 0 <= i < |outIds| :: outIds[i] < |v.vals|
    requires Encode(w1, w2, d1, d2, ValuesAt(v.vals, outIds)) && MasksOff(outIds, w1.masks, w2.masks, v, keeps)
    requires |w1.masks| == |w1.bundle| == |w1.label0| == |outIds| == |w2.masks| == |w2.bundle| == |w2.evalLabel|
    requires IsLoaded(v.carried1, outIds, w1, false, after.carried1) && IsLoaded(v.carried2, outIds, w2, true, after.carried2)
    requires after == v.Dropped().(carried1 := after.carried1, carried2 := after.carried2)
    ensures after.Ok(d1, d2) && Flushed(v, keeps, after) && v.Stale() <= after.Stale()
  {
    hide FlushOff, Encode, RecorderOk, Explains, CarriedOk, ValuesAt, MasksOff, IsLoaded, Flushed, View.Ok, View.Stale, AnyPending;
    hide NoDuplicates;
    DroppingIsOk(v, d1, d2);
    var mid := v.Dropped();
    RecorderPart(mid, d1, d2);
    OutIdsFree(v, outIds, d1, d2);
    LoadingIsOk(mid, outIds, w1, w2, after.carried1, after.carried2, v.waiting, d1, d2);
    assert after == mid.(carried1 := after.carried1, carried2 := after.carried2, waiting := v.waiting);
    CarriedPart(v, d1, d2);
    LoadedMasks(v.carried1, v.carried2, outIds, w1, w2, after.carried1, after.carried2);
    LoadedIsFlushed(v, keeps, outIds, w1, w2, after, d1, d2);
  }

  lemma LoadedIsFlushed(v: View, keeps: seq<nat>, outIds: seq<nat>, w1: SecureWires, w2: SecureWires, after: View, d1: Block, d2: Block)
    requires v.Ok(d1, d2) && MasksOff(outIds, w1.masks, w2.masks, v, keeps)
    requires forall w :: w in outIds <==> w in keeps && w in v.pending
    requires |w1.masks| == |w1.bundle| == |w1.label0| == |outIds|
    requires IsLoaded(v.carried1, outIds, w1, false, after.carried1)
    requires forall id | id in v.carried2 && id !in outIds :: id in after.carried2 && after.carried2[id] == v.carried2[id]
    requires MasksAt(after.carried1, outIds) == w1.masks && MasksAt(after.carried2, outIds) == w2.masks
    requires after == v.Dropped().(carried1 := after.carried1, carried2 := after.carried2)
    ensures Flushed(v, keeps, after) && v.Stale() <= after.Stale()
  {
    hide FlushOff, View.Ok, DiffersAt;
    LoadedKeys(v.carried1, outIds, w1, after.carried1);
    hide IsLoaded;
    forall id | id in keeps && id in v.pending
      ensures DiffersAt(after.carried1, after.carried2, id) == FlushOff(v, keeps, id)
    {
      var i :| 0 <= i < |outIds| && outIds[i] == id;
      assert MasksAt(after.carried1, outIds)[i] == w1.masks[i] && MasksAt(after.carried2, outIds)[i] == w2.masks[i];
      OneDiffers(after.carried1, after.carried2, outIds, i);
    }
  }

  lemma OneDiffers(c1: Carried, c2: Carried, ids: seq<nat>, i: nat)
    requires i < |ids|
    ensures (MasksAt(c1, ids)[i] != MasksAt(c2, ids)[i]) == DiffersAt(c1, c2, ids[i])
  {
  }

  lemma OutIdsFree(v: View, outIds: seq<nat>, d1: Block, d2: Block)
    requires v.Ok(d1, d2) && forall w | w in outIds :: w in v.pending
    ensures forall i | 0 <= i < |outIds| :: outIds[i] !in v.carried1 && outIds[i] !in v.waiting
  {
    hide RecorderOk, Explains, CarriedOk;
    forall i | 0 <= i < |outIds|
      ensures outIds[i] in v.pending
    {
      assert outIds[i] in outIds;
    }
  }

  lemma LocalBelow(gs: seq<Gate>, n: nat)
    requires forall k | 0 <= k < |gs| :: gs[k].out < n
    ensures forall w: nat | Local(gs, w) :: w < n
  {
  }

  lemma PlanIsRunnable(gs: seq<Gate>, keeps: seq<nat>, plan: FlushPlan, kept: seq<nat>, origin: seq<nat>,
                       in1: SecureWires, in2: SecureWires)
    requires Plans(gs, keeps, plan, kept, origin) && CanonicalProgram(plan.prog)
    requires in1.WellShaped(1) && in2.WellShaped(2) && |in1.masks| == |in2.masks| == |plan.inputIds|
    ensures Runnable(plan.prog, in1, in2)
  {
    hide CanonicalProgram;
  }

  lemma LoadedKeys(c: Carried, ids: seq<nat>, w: SecureWires, after: Carried)
    requires |w.masks| == |w.bundle| == |ids| == |w.label0| && IsLoaded(c, ids, w, false, after)
    ensures forall id: nat :: id in after <==> id in c || id in ids
    ensures forall id | id in c && id !in ids :: after[id] == c[id]
  {
  }

  /** Storing a bundle: the state stays consistent, and what happens to the carried wires. */
  lemma StoringIsOk(v: View, ids: seq<nat>, w1: SecureWires, w2: SecureWires, after1: Carried, after2: Carried, waiting: set<nat>,
                    d1: Block, d2: Block)
    requires v.Ok(d1, d2) && forall i | 0 <= i < |ids| :: ids[i] < v.nextId && ids[i] !in v.pending
    requires Encode(w1, w2, d1, d2, ValuesAt(v.vals, ids))
    requires |w1.masks| == |w1.bundle| == |w1.label0| == |ids| == |w2.masks| == |w2.bundle| == |w2.evalLabel|
    requires IsLoaded(v.carried1, ids, w1, false, after1) && IsLoaded(v.carried2, ids, w2, true, after2)
    requires waiting <= v.waiting && forall i | 0 <= i < |ids| :: ids[i] !in waiting
    ensures v.(carried1 := after1, carried2 := after2, waiting := waiting).Ok(d1, d2)
    ensures forall id: nat :: id in after1 <==> id in v.carried1 || id in ids
    ensures forall id | id in v.carried1 && id !in ids :: after1[id] == v.carried1[id]
    ensures forall id | id in v.carried2 && id !in ids :: id in after2 && after2[id] == v.carried2[id]
    ensures MasksAt(after1, ids) == w1.masks && MasksAt(after2, ids) == w2.masks
    ensures Holds(after1, ids, w1, false) && Holds(after2, ids, w2, true)
    ensures Synced(w1, w2) ==> OnlyAgreedAdded(v.carried1, v.carried2, after1, after2)
  {
    hide View.Ok, Encode, ValuesAt, IsLoaded, MasksAt, OnlyAgreedAdded, Synced, Holds, CarriedOk, View.Partitioned;
    OkParts(v, d1, d2);
    EncodedShapes(w1, w2, d1, d2, ValuesAt(v.vals, ids));
    LoadedIsGathered(v.carried1, ids, w1, false, after1);
    LoadedIsGathered(v.carried2, ids, w2, true, after2);
    LoadingIsOk(v, ids, w1, w2, after1, after2, waiting, d1, d2);
    LoadedKeys(v.carried1, ids, w1, after1);
    CarriedPart(v, d1, d2);
    LoadedMasks(v.carried1, v.carried2, ids, w1, w2, after1, after2);
  }

  lemma CarriedPart(v: View, d1: Block, d2: Block)
    requires v.Ok(d1, d2)
    ensures CarriedOk(v.carried1, v.carried2, d1, d2, v.vals) && v.carried1.Keys == v.carried2.Keys
  {
  }

  /** No id in use is at or past the next one. */
  lemma AllBelow(v: View, d1: Block, d2: Block)
    requires v.Ok(d1, d2)
    ensures forall id | id in v.carried1 || id in v.pending || id in v.waiting :: id < v.nextId
  {
    hide Explains, StateOk, Chunk, ConstCache;
  }

  lemma FreshValues(vals: seq<bool>, x: seq<bool>, ids: seq<nat>)
    requires |ids| == |x| && forall i | 0 <= i < |x| :: ids[i] == |vals| + i
    ensures NoDuplicates(ids) && ValuesAt(vals + x, ids) == x
    ensures forall id: nat :: id in ids <==> |vals| <= id < |vals| + |x|
  {
    forall id: nat | |vals| <= id < |vals| + |x|
      ensures id in ids
    {
      assert ids[id - |vals|] == id;
    }
  }

  /** A multi-owner input batch: wires are handed out by `Add` and become usable at `Finish`. */
  class InputBatch {
    const session: Session
    var entries: seq<Entry>
    var finished: bool

    /** Until it is finished, every id the batch handed out waits for this batch and no other. */
    ghost predicate Valid()
      reads this, session`vals, session`batchOf, session.ctx`pending
    {
      !finished ==> BatchFits(this, entries, session.vals, session.batchOf, session.ctx.pending)
    }

    constructor (session: Session)
      ensures this.session == session && !finished && entries == [] && Valid()
    {
      this.session := session;
      entries, finished := [], false;
    }

    method Add(owner: int, bits1: seq<bool>, bits2: seq<bool>) returns (st: Status, ids: seq<nat>)
      requires session.Valid() && Valid() && |bits1| == |bits2| && (owner == PUBLIC ==> bits1 == bits2)
      modifies this`entries, session.ctx`nextId, session`vals, session`batchOf
      ensures st == if finished then BatchFinished
                    else if old(session.ctx.nextId) + |bits1| <= UINT32_MAX then Done else IdOverflow
      ensures st.Done? ==> session.Valid() && Valid() && entries == old(entries) + [Entry(owner, bits1, bits2, ids)]
      ensures st.Done? ==> session.vals == old(session.vals) + Chosen(owner, bits1, bits2)
      ensures st.Done? ==> |ids| == |bits1| && forall i | 0 <= i < |ids| :: ids[i] == old(|session.vals|) + i
      ensures st.Done? ==> forall id: nat :: id in session.batchOf <==> id in old(session.batchOf) || id in ids
      ensures st.Done? ==> forall id | id in old(session.batchOf) :: session.batchOf[id] == old(session.batchOf[id])
      ensures st.Done? ==> session.Now().Stale() == old(session.Now()).Stale()
    {
      hide View.Ok, Linked, View.Stale, EntryOk, ValuesAt, NoDuplicates;
      ids := [];
      if finished {
        return BatchFinished, [];
      }
      ghost var before := session.Now();
      AllBelow(before, session.q1.pool.delta, session.q2.pool.delta);
      RecorderPart(before, session.q1.pool.delta, session.q2.pool.delta);
      st, ids := session.ReserveFor(this, owner, bits1, bits2);
      if !st.Done? {
        return;
      }
      ghost var x := Chosen(owner, bits1, bits2);
      forall a | 0 <= a < |entries|
        ensures EntryOk(session.vals, session.ctx.pending, entries[a])
      {
        EntryGrows(before.vals, before.pending, entries[a], x);
      }
      NewEntry(before.vals, before.pending, Entry(owner, bits1, bits2, ids), session.vals);
      entries := entries + [Entry(owner, bits1, bits2, ids)];
    }

    /** Authenticate everything added, in one input phase; a batch finishes once. */
    method Finish(prg: nat -> Block) returns (st: Status)
      requires session.Valid() && Valid()
      modifies this`finished, session`carried1, session`carried2, session`batchOf
      modifies session.q1`processInputCalls, session.q2`processInputCalls, session.q1.pool, session.q2.pool
      ensures finished
      ensures st == if old(finished) then BatchFinished
                    else if forall a | 0 <= a < |entries| :: KnownOwner(entries[a].owner) then Done else BadOwner
      ensures st.Done? ==> session.Valid() && Valid() && session.batchOf == old(session.batchOf) - AllIds(entries)
      ensures st.Done? ==> forall id: nat :: id in session.carried1 <==> id in old(session.carried1) || id in AllIds(entries)
      ensures st.Done? ==>
        OnlyAgreedAdded(old(session.carried1), old(session.carried2), session.carried1, session.carried2)
      ensures st.Done? ==>
        session.q1.processInputCalls == old(session.q1.processInputCalls) + if AnySecret(entries) then 1 else 0
      ensures st.Done? ==> (session.Checked() <==> old(session.Checked()) && !AnySecretBit(entries))
      ensures st.Done? ==> session.Now().Stale() == old(session.Now()).Stale()
    {
      hide View.Ok, Linked, View.Stale, EntryOk, AllIds, AnySecret, OnlyAgreedAdded, AnySecretBit;
      if finished {
        return BatchFinished;
      }
      finished := true;
      st := session.FinishBatch(entries, prg);
    }
  }

  /** The entries of an open batch against the session's state. */
  ghost predicate BatchFits(b: InputBatch, entries: seq<Entry>, vals: seq<bool>, batchOf: map<nat, InputBatch>, pending: set<nat>) {
    && (forall a | 0 <= a < |entries| :: EntryOk(vals, pending, entries[a]))
    && (forall a, id | 0 <= a < |entries| && id in entries[a].ids :: id in batchOf && batchOf[id] == b)
  }

  /** An open batch is unaffected by calls that only hand out new ids and leave its own alone. */
  lemma FitsStill(b: InputBatch, entries: seq<Entry>, vals: seq<bool>, batchOf: map<nat, InputBatch>, pending: set<nat>,
                  vals': seq<bool>, batchOf': map<nat, InputBatch>, pending': set<nat>)
    requires BatchFits(b, entries, vals, batchOf, pending) && vals <= vals'
    requires forall id | id in batchOf && batchOf[id] == b :: id in batchOf' && batchOf'[id] == b
    requires forall id | id in pending' :: id in pending || id >= |vals|
    ensures BatchFits(b, entries, vals', batchOf', pending')
  {
    forall a | 0 <= a < |entries|
      ensures EntryOk(vals', pending', entries[a])
    {
      assert vals' == vals + vals'[|vals|..];
      EntryGrows(vals, pending, entries[a], vals'[|vals|..]);
      hide NoDuplicates, Chosen, ValuesAt;
    }
  }

  lemma EntryGrows(vals: seq<bool>, pending: set<nat>, e: Entry, more: seq<bool>)
    requires EntryOk(vals, pending, e)
    ensures EntryOk(vals + more, pending, e)
  {
    hide NoDuplicates, Chosen;
    assert ValuesAt(vals + more, e.ids) == ValuesAt(vals, e.ids);
  }

  lemma NewEntry(vals: seq<bool>, pending: set<nat>, e: Entry, after: seq<bool>)
    requires |e.bits1| == |e.bits2| == |e.ids| && (e.owner == PUBLIC ==> e.bits1 == e.bits2)
    requires after == vals + Chosen(e.owner, e.bits1, e.bits2) && NoDuplicates(e.ids)
    requires forall i | 0 <= i < |e.ids| :: e.ids[i] == |vals| + i
    requires forall id | id in pending :: id < |vals|
    ensures EntryOk(after, pending, e)
  {
    hide NoDuplicates;
  }
}
