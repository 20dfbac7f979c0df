/** The state of a session as one value, and what it stands for (ag2pc_session.h).

    Every allocated wire id has a plaintext value, fixed when it was handed out. An id is pending (driven by a gate of the
    unflushed chunk), carried (authenticated state held at both parties), waiting (reserved by an unfinished input batch)
    or stale (none of these). */
module CarriedStates {
  import opened Blocks
  import opened Shares
  import opened Circuits
  import opened FlushPlans
  import opened Recorders
  import opened SecureWireBundles

  /** One party's authenticated state of one wire; the garbler uses `label0`, the evaluator `evalLabel`. */
  datatype CarriedState = CarriedState(bundle: Share, mask: bool, label0: Block, evalLabel: Block)

  const NO_STATE: CarriedState := CarriedState(NO_SHARE, false, ZERO, ZERO)

  type Carried = map<nat, CarriedState>

  /** The opened mask held for wire `w`; 0 when it is not carried. */
  predicate MaskAt(c: Carried, w: nat) {
    w in c && c[w].mask
  }

  function BundleAt(c: Carried, w: nat): Share {
    if w in c then c[w].bundle else NO_SHARE
  }

  /** Do the two parties hold different opened masks for wire `w`? */
  predicate DiffersAt(c1: Carried, c2: Carried, w: nat) {
    MaskAt(c1, w) != MaskAt(c2, w)
  }

  /** The same as functions of the wire. */
  function Masks(c: Carried): nat -> bool {
    (w: nat) => MaskAt(c, w)
  }

  function Bundles(c: Carried): nat -> Share {
    (w: nat) => BundleAt(c, w)
  }

  function Differing(c1: Carried, c2: Carried): nat -> bool {
    (w: nat) => DiffersAt(c1, c2, w)
  }

  function MasksAt(c: Carried, ids: seq<nat>): (m: seq<bool>)
    ensures |m| == |ids|
  {
    seq(|ids|, i requires 0 <= i < |ids| => MaskAt(c, ids[i]))
  }

  function BundlesAt(c: Carried, ids: seq<nat>): (b: seq<Share>)
    ensures |b| == |ids|
  {
    seq(|ids|, i requires 0 <= i < |ids| => BundleAt(c, ids[i]))
  }

  /** Both parties hold the same opened mask for every carried wire. */
  ghost predicate AllAgree(c1: Carried, c2: Carried) {
    forall w: nat :: !DiffersAt(c1, c2, w)
  }

  /** Every wire carried now is carried as before or agreed on. */
  ghost predicate OnlyAgreedAdded(c1: Carried, c2: Carried, after1: Carried, after2: Carried) {
    forall id | id in after1 ::
      (id in c1 && id in c2 && id in after2 && after1[id] == c1[id] && after2[id] == c2[id]) || !DiffersAt(after1, after2, id)
  }

  lemma StillAllAgree(c1: Carried, c2: Carried, after1: Carried, after2: Carried)
    requires AllAgree(c1, c2) && OnlyAgreedAdded(c1, c2, after1, after2) && after1.Keys == after2.Keys
    ensures AllAgree(after1, after2)
  {
    forall w: nat
      ensures !DiffersAt(after1, after2, w)
    {
      assert !DiffersAt(c1, c2, w);
      if w !in after1 {
        assert w !in after2.Keys;
      }
    }
  }

  /** The bundle of the wires `ids`, in caller order. */
  function Gathered(c: Carried, ids: seq<nat>, isEval: bool): SecureWires
    requires forall i | 0 <= i < |ids| :: ids[i] in c
  {
    SecureWires(MasksAt(c, ids), BundlesAt(c, ids),
                if isEval then [] else seq(|ids|, i requires 0 <= i < |ids| => c[ids[i]].label0),
                if isEval then seq(|ids|, i requires 0 <= i < |ids| => c[ids[i]].evalLabel) else [])
  }

  method Gather(c: Carried, ids: seq<nat>, isEval: bool) returns (ok: bool, w: SecureWires)
    ensures ok <==> forall i | 0 <= i < |ids| :: ids[i] in c
    ensures ok ==> w == Gathered(c, ids, isEval)
  {
    w := NO_WIRES;
    for i := 0 to |ids|
      invariant forall j | 0 <= j < i :: ids[j] in c
      invariant |w.masks| == |w.bundle| == i && |w.label0| == (if isEval then 0 else i) && |w.evalLabel| == if isEval then i else 0
      invariant forall j | 0 <= j < i :: w.masks[j] == c[ids[j]].mask && w.bundle[j] == c[ids[j]].bundle
      invariant forall j | 0 <= j < i :: if isEval then w.evalLabel[j] == c[ids[j]].evalLabel else w.label0[j] == c[ids[j]].label0
    {
      if ids[i] !in c {
        return false, NO_WIRES;
      }
      var s := c[ids[i]];
      w := SecureWires(w.masks + [s.mask], w.bundle + [s.bundle],
                       if isEval then [] else w.label0 + [s.label0], if isEval then w.evalLabel + [s.evalLabel] else []);
    }
    ok := true;
    assert w == Gathered(c, ids, isEval);
  }

  /** `after` is `c` with the wires of `w` stored under `ids` and everything else as it was. */
  ghost predicate IsLoaded(c: Carried, ids: seq<nat>, w: SecureWires, isEval: bool, after: Carried)
    requires |w.masks| == |w.bundle| == |ids| && if isEval then |w.evalLabel| == |ids| else |w.label0| == |ids|
  {
    && (forall id: nat :: id in after <==> id in c || id in ids)
    && (forall id | id in c && id !in ids :: after[id] == c[id])
    && (forall i | 0 <= i < |ids| ::
          && ids[i] in after && after[ids[i]].mask == w.masks[i] && after[ids[i]].bundle == w.bundle[i]
          && if isEval then after[ids[i]].evalLabel == w.evalLabel[i] else after[ids[i]].label0 == w.label0[i])
  }

  method Load(c: Carried, ids: seq<nat>, w: SecureWires, isEval: bool) returns (after: Carried)
    requires |w.masks| == |w.bundle| == |ids| && if isEval then |w.evalLabel| == |ids| else |w.label0| == |ids|
    requires NoDuplicates(ids)
    ensures IsLoaded(c, ids, w, isEval, after)
  {
    after := c;
    for i := 0 to |ids|
      invariant forall id: nat :: id in after <==> id in c || id in ids[..i]
      invariant forall id | id in c && id !in ids[..i] :: after[id] == c[id]
      invariant forall j | 0 <= j < i ::
        && ids[j] in after && after[ids[j]].mask == w.masks[j] && after[ids[j]].bundle == w.bundle[j]
        && if isEval then after[ids[j]].evalLabel == w.evalLabel[j] else after[ids[j]].label0 == w.label0[j]
    {
      assert ids[..i + 1] == ids[..i] + [ids[i]];
      var was := if ids[i] in after then after[ids[i]] else NO_STATE;
      after := after[ids[i] := CarriedState(w.bundle[i], w.masks[i], if isEval then was.label0 else w.label0[i],
                                            if isEval then w.evalLabel[i] else was.evalLabel)];
    }
    assert ids[..|ids|] == ids;
  }

  /** The plaintext values of the wires `ids`. */
  ghost function ValuesAt(vals: seq<bool>, ids: seq<nat>): (x: seq<bool>)
    requires forall i | 0 <= i < |ids| :: ids[i] < |vals|
    ensures |x| == |ids|
  {
    seq(|ids|, i requires 0 <= i < |ids| => vals[ids[i]])
  }

  /** The values of all ids as a total assignment. */
  ghost function ValueOf(vals: seq<bool>): nat -> bool {
    (w: nat) => w < |vals| && vals[w]
  }

  /** The two parties' states of one wire stand for `value`. */
  ghost predicate StateOk(s1: CarriedState, s2: CarriedState, d1: Block, d2: Block, value: bool) {
    WireOk(s1.bundle, s2.bundle, s1.label0, s2.evalLabel, s2.mask, d1, d2, value)
  }

  ghost predicate CarriedOk(c1: Carried, c2: Carried, d1: Block, d2: Block, vals: seq<bool>) {
    && c1.Keys == c2.Keys
    && forall id | id in c1 :: id < |vals| && StateOk(c1[id], c2[id], d1, d2, vals[id])
  }

  lemma GatheredEncodes(c1: Carried, c2: Carried, d1: Block, d2: Block, vals: seq<bool>, ids: seq<nat>)
    requires CarriedOk(c1, c2, d1, d2, vals) && forall i | 0 <= i < |ids| :: ids[i] in c1
    ensures forall i | 0 <= i < |ids| :: ids[i] < |vals| && ids[i] in c2
    ensures Encode(Gathered(c1, ids, false), Gathered(c2, ids, true), d1, d2, ValuesAt(vals, ids))
  {
    hide WireOk;
    forall i | 0 <= i < |ids|
      ensures ids[i] < |vals| && ids[i] in c2 && StateOk(c1[ids[i]], c2[ids[i]], d1, d2, vals[ids[i]])
    {
      assert ids[i] in c1.Keys;
    }
  }

  lemma LoadingKeepsOk(c1: Carried, c2: Carried, d1: Block, d2: Block, vals: seq<bool>, ids: seq<nat>,
                       w1: SecureWires, w2: SecureWires, after1: Carried, after2: Carried)
    requires CarriedOk(c1, c2, d1, d2, vals) && (forall i | 0 <= i < |ids| :: ids[i] < |vals|)
    requires Encode(w1, w2, d1, d2, ValuesAt(vals, ids))
    requires IsLoaded(c1, ids, w1, false, after1) && IsLoaded(c2, ids, w2, true, after2)
    ensures CarriedOk(after1, after2, d1, d2, vals)
  {
    hide WireOk;
    forall id | id in after1
      ensures id < |vals| && id in after2 && StateOk(after1[id], after2[id], d1, d2, vals[id])
    {
      if id in ids {
        var i :| 0 <= i < |ids| && ids[i] == id;
      } else {
        assert id in c1.Keys;
      }
    }
    forall id | id in after2
      ensures id in after1
    {
      assert id in c2.Keys || id in ids;
    }
  }

  /** What a load does to the opened masks. */
  lemma LoadedMasks(c1: Carried, c2: Carried, ids: seq<nat>, w1: SecureWires, w2: SecureWires, after1: Carried, after2: Carried)
    requires |w1.masks| == |w1.bundle| == |w1.label0| == |ids| == |w2.masks| == |w2.bundle| == |w2.evalLabel|
    requires IsLoaded(c1, ids, w1, false, after1) && IsLoaded(c2, ids, w2, true, after2) && c1.Keys == c2.Keys
    ensures MasksAt(after1, ids) == w1.masks && MasksAt(after2, ids) == w2.masks
    ensures forall id | id in c2 && id !in ids :: id in after2 && after2[id] == c2[id]
    ensures Synced(w1, w2) ==> OnlyAgreedAdded(c1, c2, after1, after2)
  {
    if Synced(w1, w2) {
      forall id | id in after1
        ensures (id in c1 && id in c2 && id in after2 && after1[id] == c1[id] && after2[id] == c2[id]) || !DiffersAt(after1, after2, id)
      {
        if id in ids {
          var i :| 0 <= i < |ids| && ids[i] == id;
        } else {
          assert id in c1.Keys && id in c2.Keys;
        }
      }
    }
  }

  /** What was stored is what is gathered. */
  lemma LoadedIsGathered(c: Carried, ids: seq<nat>, w: SecureWires, isEval: bool, after: Carried)
    requires |w.masks| == |w.bundle| == |ids|
    requires if isEval then |w.evalLabel| == |ids| && w.label0 == [] else |w.label0| == |ids| && w.evalLabel == []
    requires IsLoaded(c, ids, w, isEval, after)
    ensures Holds(after, ids, w, isEval)
  {
  }

  /** The wires `ids` are carried with the bundle `w`. */
  ghost predicate Holds(c: Carried, ids: seq<nat>, w: SecureWires, isEval: bool) {
    (forall i | 0 <= i < |ids| :: ids[i] in c) && Gathered(c, ids, isEval) == w
  }

  lemma AddedTwice(c1: Carried, c2: Carried, mid1: Carried, mid2: Carried, after1: Carried, after2: Carried)
    requires OnlyAgreedAdded(c1, c2, mid1, mid2) && OnlyAgreedAdded(mid1, mid2, after1, after2)
    ensures OnlyAgreedAdded(c1, c2, after1, after2)
  {
  }

  lemma MasksAppend(c: Carried, a: seq<nat>, b: seq<nat>)
    ensures MasksAt(c, a + b) == MasksAt(c, a) + MasksAt(c, b) && BundlesAt(c, a + b) == BundlesAt(c, a) + BundlesAt(c, b)
  {
  }

  /** Everything a session remembers, both parties' carried state included. `vals` and `waiting` are bookkeeping of the
      model: the plaintext value of every id, and the ids of unfinished input batches. */
  datatype View = View(nextId: nat, chunk: seq<Gate>, pending: set<nat>, const0: int, const1: int,
                       carried1: Carried, carried2: Carried, vals: seq<bool>, waiting: set<nat>)
  {
    /** Allocated ids that no longer name anything. */
    ghost function Stale(): set<nat> {
      set id | 0 <= id < nextId && id !in pending && id !in carried1 && id !in waiting
    }

    /** Pending, carried and waiting ids are disjoint. */
    ghost predicate Partitioned() {
      && (forall id | id in pending :: id !in carried1 && id !in waiting)
      && (forall id | id in carried1 :: id !in waiting)
      && (forall id | id in waiting :: id < nextId)
    }

    ghost predicate Ok(d1: Block, d2: Block) {
      && RecorderOk(nextId, chunk, pending, const0, const1)
      && |vals| == nextId && Explains(chunk, ValueOf(vals))
      && CarriedOk(carried1, carried2, d1, d2, vals)
      && Partitioned()
    }

    /** The id just after recording gate `g`. */
    ghost function Recorded(g: Gate): View {
      this.(nextId := nextId + 1, chunk := chunk + [g], pending := pending + {nextId},
            const0 := if g.op == Const0 then nextId else const0, const1 := if g.op == Const1 then nextId else const1,
            vals := vals + [GateValue(g, ValueOf(vals))])
    }

    /** Fresh ids for the values `x`. */
    ghost function Reserved(x: seq<bool>): View {
      this.(nextId := nextId + |x|, vals := vals + x)
    }

    ghost function Dropped(): View {
      this.(chunk := [], pending := {}, const0 := -1, const1 := -1)
    }

    ghost function Pruned(keeps: set<nat>): View {
      this.(carried1 := map id | id in carried1 && id in keeps :: carried1[id],
            carried2 := map id | id in carried2 && id in keeps :: carried2[id])
    }
  }

  lemma ExplainsMore(gs: seq<Gate>, vals: seq<bool>, more: seq<bool>)
    requires Chunk(gs) && Explains(gs, ValueOf(vals)) && forall k | 0 <= k < |gs| :: gs[k].out < |vals|
    ensures Explains(gs, ValueOf(vals + more))
  {
    hide ConstsUnique, GateValue;
    var v, w := ValueOf(vals), ValueOf(vals + more);
    forall k | 0 <= k < |gs|
      ensures w(gs[k].out) == GateValue(gs[k], w)
    {
      assert v(gs[k].out) == w(gs[k].out);
      SameOperandsSameValue(gs[k], v, w);
    }
  }

  lemma CarriedOkMore(c1: Carried, c2: Carried, d1: Block, d2: Block, vals: seq<bool>, more: seq<bool>)
    requires CarriedOk(c1, c2, d1, d2, vals)
    ensures CarriedOk(c1, c2, d1, d2, vals + more)
  {
    hide StateOk;
  }

  lemma RecordingIsOk(v: View, g: Gate, d1: Block, d2: Block)
    requires v.Ok(d1, d2) && v.nextId < UINT32_MAX && g.out == v.nextId
    requires !g.IsConst() ==> g.in0 < v.nextId && (g.op != NotOp ==> g.in1 < v.nextId)
    requires (g.op == Const0 ==> v.const0 < 0) && (g.op == Const1 ==> v.const1 < 0)
    ensures v.Recorded(g).Ok(d1, d2) && v.Recorded(g).Stale() == v.Stale()
  {
    hide RecorderOk, CarriedOk, Explains, GateValue;
    var value := GateValue(g, ValueOf(v.vals));
    RecordingKeepsOk(v.nextId, v.chunk, v.pending, v.const0, v.const1, g);
    CarriedOkMore(v.carried1, v.carried2, d1, d2, v.vals, [value]);
    CarriedBelow(v, d1, d2);
    ExplainsOneMore(v, g, d1, d2);
    assert v.Recorded(g).Stale() == v.Stale();
  }

  lemma ExplainsOneMore(v: View, g: Gate, d1: Block, d2: Block)
    requires v.Ok(d1, d2) && g.out == v.nextId
    requires !g.IsConst() ==> g.in0 < v.nextId && (g.op != NotOp ==> g.in1 < v.nextId)
    ensures Explains(v.chunk + [g], ValueOf(v.vals + [GateValue(g, ValueOf(v.vals))]))
  {
    hide CarriedOk, GateValue, ConstsUnique, ConstCache;
    var value := GateValue(g, ValueOf(v.vals));
    ExplainsMore(v.chunk, v.vals, [value]);
    SameOperandsSameValue(g, ValueOf(v.vals), ValueOf(v.vals + [value]));
  }

  /** Carried and pending ids have been allocated. */
  lemma CarriedBelow(v: View, d1: Block, d2: Block)
    requires v.Ok(d1, d2)
    ensures forall id | id in v.carried1 :: id < v.nextId
    ensures forall id | id in v.pending :: id < v.nextId
    ensures v.carried1.Keys == v.carried2.Keys
  {
    hide StateOk, Explains, Chunk, ConstCache;
  }

  lemma ReservingIsOk(v: View, x: seq<bool>, d1: Block, d2: Block)
    requires v.Ok(d1, d2) && v.nextId + |x| <= UINT32_MAX
    ensures v.Reserved(x).Ok(d1, d2)
  {
    hide CarriedOk, Explains, ConstCache, Chunk;
    CarriedOkMore(v.carried1, v.carried2, d1, d2, v.vals, x);
    ChunkFacts(v, d1, d2);
    ExplainsMore(v.chunk, v.vals, x);
  }

  lemma ChunkFacts(v: View, d1: Block, d2: Block)
    requires v.Ok(d1, d2)
    ensures Chunk(v.chunk) && Explains(v.chunk, ValueOf(v.vals))
    ensures (forall k | 0 <= k < |v.chunk| :: v.chunk[k].out < |v.vals|) && |v.vals| == v.nextId <= UINT32_MAX
    ensures forall w: nat :: w in v.pending <==> Local(v.chunk, w)
  {
  }

  lemma DroppingIsOk(v: View, d1: Block, d2: Block)
    requires v.Ok(d1, d2)
    ensures v.Dropped().Ok(d1, d2) && v.Stale() <= v.Dropped().Stale()
  {
    hide CarriedOk;
  }

  lemma PruningIsOk(v: View, keeps: set<nat>, d1: Block, d2: Block)
    requires v.Ok(d1, d2)
    ensures v.Pruned(keeps).Ok(d1, d2) && v.Stale() <= v.Pruned(keeps).Stale()
  {
    hide RecorderOk, Explains, StateOk;
  }

  /** Storing well-formed wires under ids whose values they carry, none of them pending. */
  lemma LoadingIsOk(v: View, ids: seq<nat>, w1: SecureWires, w2: SecureWires, after1: Carried, after2: Carried, waiting: set<nat>,
                    d1: Block, d2: Block)
    requires v.Ok(d1, d2) && forall i | 0 <= i < |ids| :: ids[i] < v.nextId && ids[i] !in v.pending
    requires Encode(w1, w2, d1, d2, ValuesAt(v.vals, ids))
    requires IsLoaded(v.carried1, ids, w1, false, after1) && IsLoaded(v.carried2, ids, w2, true, after2)
    requires waiting <= v.waiting && forall i | 0 <= i < |ids| :: ids[i] !in waiting
    ensures v.(carried1 := after1, carried2 := after2, waiting := waiting).Ok(d1, d2)
  {
    hide RecorderOk, Explains, CarriedOk, Encode, ValuesAt, IsLoaded, View.Partitioned;
    OkParts(v, d1, d2);
    EncodedShapes(w1, w2, d1, d2, ValuesAt(v.vals, ids));
    LoadingKeepsOk(v.carried1, v.carried2, d1, d2, v.vals, ids, w1, w2, after1, after2);
    StaysPartitioned(v, ids, w1, after1, after2, waiting);
  }

  lemma OkParts(v: View, d1: Block, d2: Block)
    requires v.Ok(d1, d2)
    ensures CarriedOk(v.carried1, v.carried2, d1, d2, v.vals) && v.Partitioned() && |v.vals| == v.nextId
  {
    hide RecorderOk, Explains, CarriedOk, View.Partitioned;
  }

  lemma StaysPartitioned(v: View, ids: seq<nat>, w1: SecureWires, after1: Carried, after2: Carried, waiting: set<nat>)
    requires v.Partitioned() && forall i | 0 <= i < |ids| :: ids[i] !in v.pending && ids[i] !in waiting
    requires |w1.masks| == |w1.bundle| == |w1.label0| == |ids| && IsLoaded(v.carried1, ids, w1, false, after1) && waiting <= v.waiting
    ensures v.(carried1 := after1, carried2 := after2, waiting := waiting).Partitioned()
  {
  }

  /** A cached constant is pending and carries its bit. */
  lemma CachedConstant(v: View, bit: bool, d1: Block, d2: Block)
    requires v.Ok(d1, d2) && (if bit then v.const1 else v.const0) >= 0
    ensures var w := if bit then v.const1 else v.const0; w < |v.vals| && v.vals[w] == bit && w in v.pending
  {
    hide CarriedOk, Chunk;
  }

  /** The recorder's part of the state. */
  lemma RecorderPart(v: View, d1: Block, d2: Block)
    requires v.Ok(d1, d2)
    ensures RecorderOk(v.nextId, v.chunk, v.pending, v.const0, v.const1) && v.nextId == |v.vals| <= UINT32_MAX
  {
  }

  /** In every reachable state the allocated ids split into pending, carried, waiting and stale ones, and the chunk's
      gates drive increasing pending ids from earlier operands. */
  lemma StatesPartition(v: View, d1: Block, d2: Block, id: nat)
    requires v.Ok(d1, d2)
    ensures id in v.pending || id in v.carried1 || id in v.waiting || id in v.Stale() <==> id < v.nextId
    ensures id in v.pending ==> id !in v.carried1 && id !in v.waiting && id !in v.Stale()
    ensures id in v.carried1 ==> id in v.carried2 && id !in v.waiting && id !in v.Stale()
    ensures id in v.waiting ==> id !in v.Stale()
    ensures id in v.pending <==> exists k | 0 <= k < |v.chunk| :: v.chunk[k].out == id
    ensures forall j, k | 0 <= j < k < |v.chunk| :: v.chunk[j].out < v.chunk[k].out
    ensures forall k, w: nat | 0 <= k < |v.chunk| && v.chunk[k].Reads(w) :: w < v.chunk[k].out
  {
    CarriedBelow(v, d1, d2);
    ChunkFacts(v, d1, d2);
    hide RecorderOk, CarriedOk, Explains, ConstsUnique;
  }
}
