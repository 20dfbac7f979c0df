/** Liveness, slot allocation, and the per-run state the passes share (run_state.h, pass_ctx.h). */
module RunStates {
  import opened Blocks
  import opened Shares
  import opened Circuits

  /** Number of AND/XOR/NOT gates among the first `k`: the passes' gate index. */
  function GateIndex(gs: seq<Gate>, k: nat): nat
    requires k <= |gs|
  {
    if k == 0 then 0 else GateIndex(gs, k - 1) + if gs[k - 1].IsConst() then 0 else 1
  }

  /** Gate index of the last of the first `k` gates that reads wire `w`; -1 if none does. */
  function LastUse(gs: seq<Gate>, k: nat, w: nat): (last: int)
    requires k <= |gs|
    ensures last >= -1
  {
    if k == 0 then -1
    else if gs[k - 1].Reads(w) then GateIndex(gs, k - 1)
    else LastUse(gs, k - 1, w)
  }

  /** Wires that keep their slot to the end: inputs, AND outputs, and the circuit's outputs. */
  predicate Persists(n: nat, gs: seq<Gate>, outs: seq<nat>, w: nat)
    requires w < n + |gs|
  {
    w < n || gs[w - n].op == AndOp || w in outs
  }

  lemma {:induction false} GateIndexMonotone(gs: seq<Gate>, j: nat, k: nat)
    requires j <= k <= |gs|
    ensures GateIndex(gs, j) <= GateIndex(gs, k)
    ensures j < k && !gs[j].IsConst() ==> GateIndex(gs, j) < GateIndex(gs, k)
    decreases k
  {
    if j < k {
      GateIndexMonotone(gs, j, k - 1);
    }
  }

  lemma {:induction false} LastUseBoundsReads(gs: seq<Gate>, j: nat, k: nat, w: nat)
    requires j < k <= |gs| && gs[j].Reads(w)
    ensures GateIndex(gs, j) <= LastUse(gs, k, w)
    decreases k
  {
    GateIndexMonotone(gs, j, k - 1);
    if j < k - 1 {
      LastUseBoundsReads(gs, j, k - 1, w);
    }
  }

  lemma {:induction false} LastUseIsARead(gs: seq<Gate>, k: nat, w: nat)
    requires k <= |gs| && LastUse(gs, k, w) >= 0
    ensures exists j | 0 <= j < k :: gs[j].Reads(w) && LastUse(gs, k, w) == GateIndex(gs, j)
  {
    if !gs[k - 1].Reads(w) {
      LastUseIsARead(gs, k - 1, w);
    }
  }

  lemma {:induction false} LastUseIs(gs: seq<Gate>, k: nat, m: nat, w: nat)
    requires k < m <= |gs| && gs[k].Reads(w) && forall j | k < j < m :: !gs[j].Reads(w)
    ensures LastUse(gs, m, w) == GateIndex(gs, k)
    decreases m
  {
    if m > k + 1 {
      LastUseIs(gs, k, m - 1, w);
    }
  }

  /** A wire's last use is the gate that reads it last, and -1 if none reads it. */
  lemma LastUseIsLastRead(gs: seq<Gate>, w: nat)
    ensures LastUse(gs, |gs|, w) == -1 <==> forall k | 0 <= k < |gs| :: !gs[k].Reads(w)
    ensures forall k | 0 <= k < |gs| && gs[k].Reads(w) && NoLaterRead(gs, w, k + 1) :: LastUse(gs, |gs|, w) == GateIndex(gs, k)
  {
    if LastUse(gs, |gs|, w) >= 0 {
      LastUseIsARead(gs, |gs|, w);
    }
    forall k | 0 <= k < |gs| && gs[k].Reads(w)
      ensures LastUse(gs, |gs|, w) >= 0
      ensures NoLaterRead(gs, w, k + 1) ==> LastUse(gs, |gs|, w) == GateIndex(gs, k)
    {
      LastUseBoundsReads(gs, k, |gs|, w);
      if NoLaterRead(gs, w, k + 1) {
        LastUseIs(gs, k, |gs|, w);
      }
    }
  }

  /** What was counted over a stream does not change when the stream goes on. */
  lemma {:induction false} CountsOfPrefix(gs: seq<Gate>, ext: seq<Gate>, k: nat)
    requires gs <= ext && k <= |gs|
    ensures GateIndex(ext, k) == GateIndex(gs, k) && AndsBefore(ext, k) == AndsBefore(gs, k)
    ensures forall w :: LastUse(ext, k, w) == LastUse(gs, k, w)
  {
    if k > 0 {
      CountsOfPrefix(gs, ext, k - 1);
    }
  }

  ghost predicate NoLaterRead(gs: seq<Gate>, w: nat, from: nat) {
    forall j | from <= j < |gs| :: !gs[j].Reads(w)
  }

  /** A wire whose last use is the gate just processed is read by no later gate. */
  lemma LastUseRetires(gs: seq<Gate>, k: nat, w: nat)
    requires k < |gs| && !gs[k].IsConst() && LastUse(gs, |gs|, w) == GateIndex(gs, k)
    ensures NoLaterRead(gs, w, k + 1)
  {
    forall j | k + 1 <= j < |gs|
      ensures !gs[j].Reads(w)
    {
      GateIndexMonotone(gs, k, j);
      if gs[j].Reads(w) {
        LastUseBoundsReads(gs, j, |gs|, w);
      }
    }
  }

  /** The first `|phys|` wires have slots, and two wires share one only when both are recyclable and the earlier one is
      never read again once the later one is computed. Inputs sit in their own slots. */
  ghost predicate Allocated(n: nat, gs: seq<Gate>, outs: seq<nat>, phys: seq<int>, numSlots: nat) {
    && n <= |phys| <= n + |gs|
    && (forall w | 0 <= w < |phys| :: 0 <= phys[w] < numSlots)
    && (forall w | 0 <= w < n :: phys[w] == w)
    && forall w, v | 0 <= w < v < |phys| && phys[w] == phys[v] :: Retires(n, gs, outs, w, v)
  }

  ghost predicate Retires(n: nat, gs: seq<Gate>, outs: seq<nat>, w: nat, v: nat)
    requires w < v < n + |gs|
  {
    && n <= w
    && !Persists(n, gs, outs, w) && !Persists(n, gs, outs, v)
    && NoLaterRead(gs, w, v - n)
  }

  /** No wire below `upTo` was put into `w`'s slot after `w`. */
  ghost predicate Current(phys: seq<int>, w: nat, upTo: nat)
    requires w < upTo <= |phys|
  {
    forall v | w < v < upTo :: phys[v] != phys[w]
  }

  /** An operand still owns its slot when it is read. */
  lemma OperandIsCurrent(n: nat, gs: seq<Gate>, outs: seq<nat>, phys: seq<int>, numSlots: nat, k: nat, w: nat)
    requires Allocated(n, gs, outs, phys, numSlots) && k < |gs| && n + k <= |phys| && w < n + k && gs[k].Reads(w)
    ensures Current(phys, w, n + k)
  {
    forall v | w < v < n + k
      ensures phys[v] != phys[w]
    {
      assert phys[w] == phys[v] ==> Retires(n, gs, outs, w, v);
    }
  }

  /** A persistent wire shares its slot with no other wire. */
  lemma PersistentIsAlone(n: nat, gs: seq<Gate>, outs: seq<nat>, phys: seq<int>, numSlots: nat, w: nat)
    requires Allocated(n, gs, outs, phys, numSlots) && w < |phys| && Persists(n, gs, outs, w)
    ensures forall v | 0 <= v < |phys| && v != w :: phys[v] != phys[w]
  {
    forall v | 0 <= v < |phys| && v != w
      ensures phys[v] != phys[w]
    {
      assert phys[w] == phys[v] ==> Retires(n, gs, outs, if v < w then v else w, if v < w then w else v);
    }
  }

  /** Every wire below `upTo` that still owns its slot finds its own value there: reads through slots are reads of
      private cells. */
  ghost predicate SlotsHold<T>(slots: seq<T>, phys: seq<int>, upTo: nat, vals: seq<T>)
    requires upTo <= |phys| == |vals|
  {
    forall w | 0 <= w < upTo && Current(phys, w, upTo) :: 0 <= phys[w] < |slots| && slots[phys[w]] == vals[w]
  }

  lemma CurrentInPrefix(phys: seq<int>, w: nat, upTo: nat)
    requires w < upTo <= |phys| && Current(phys[..upTo], w, upTo)
    ensures Current(phys, w, upTo)
  {
    forall v | w < v < upTo
      ensures phys[v] != phys[w]
    {
      assert phys[..upTo][v] != phys[..upTo][w];
    }
  }

  /** Writing the next wire's value into its slot. */
  lemma WriteHolds<T>(slots: seq<T>, after: seq<T>, phys: seq<int>, physAfter: seq<int>, id: nat, vals: seq<T>)
    requires id < |phys| == |vals| == |physAfter|
    requires SlotsHold(slots, phys, id, vals) && physAfter[..id] == phys[..id]
    requires 0 <= physAfter[id] < |after| && after[physAfter[id]] == vals[id]
    requires |slots| <= |after| && forall i | 0 <= i < |slots| && i != physAfter[id] :: after[i] == slots[i]
    ensures SlotsHold(after, physAfter, id + 1, vals)
  {
    forall w | 0 <= w < id + 1 && Current(physAfter, w, id + 1)
      ensures 0 <= physAfter[w] < |after| && after[physAfter[w]] == vals[w]
    {
      if w < id {
        assert physAfter[id] != physAfter[w];
        assert physAfter[w] == physAfter[..id][w] == phys[w];
        assert Current(phys, w, id) by {
          forall v | w < v < id
            ensures phys[v] != phys[w]
          {
            assert phys[v] == physAfter[..id][v] == physAfter[v];
          }
        }
      }
    }
  }

  /** Wire shares part-way through a replay: the wires below `upTo` hold as above, and the outputs of the ANDs still to
      come sit untouched in their permanent slots. */
  ghost predicate SharesReady(n: nat, gs: seq<Gate>, slots: seq<Share>, phys: seq<int>, upTo: nat, vals: seq<Share>)
    requires n <= upTo <= n + |gs| == |phys| == |vals|
  {
    && SlotsHold(slots, phys, upTo, vals)
    && forall k | upTo - n <= k < |gs| && gs[k].op == AndOp :: 0 <= phys[n + k] < |slots| && slots[phys[n + k]] == vals[n + k]
  }

  /** A finished pass over the slots leaves everything in place for the next replay from the inputs. */
  lemma SharesRestart(n: nat, gs: seq<Gate>, outs: seq<nat>, slots: seq<Share>, phys: seq<int>, numSlots: nat, vals: seq<Share>)
    requires Allocated(n, gs, outs, phys, numSlots) && n + |gs| == |phys| == |vals|
    requires SlotsHold(slots, phys, n + |gs|, vals)
    ensures SharesReady(n, gs, slots, phys, n, vals)
  {
    forall w | 0 <= w < n + |gs| && Persists(n, gs, outs, w)
      ensures 0 <= phys[w] < |slots| && slots[phys[w]] == vals[w]
    {
      PersistentIsAlone(n, gs, outs, phys, numSlots, w);
      assert Current(phys, w, n + |gs|);
    }
  }

  /** Storing the share of a linear gate or constant. */
  lemma SharesWritten(n: nat, gs: seq<Gate>, outs: seq<nat>, slots: seq<Share>, phys: seq<int>, numSlots: nat, id: nat,
                      vals: seq<Share>)
    requires Allocated(n, gs, outs, phys, numSlots) && n <= id < n + |gs| == |phys| == |vals| && |slots| == numSlots
    requires SharesReady(n, gs, slots, phys, id, vals)
    ensures SharesReady(n, gs, slots[phys[id] := vals[id]], phys, id + 1, vals)
  {
    var after := slots[phys[id] := vals[id]];
    WriteHolds(slots, after, phys, phys, id, vals);
    forall k | id + 1 - n <= k < |gs| && gs[k].op == AndOp
      ensures 0 <= phys[n + k] < |after| && after[phys[n + k]] == vals[n + k]
    {
      PersistentIsAlone(n, gs, outs, phys, numSlots, n + k);
    }
  }

  /** An AND's output share is already in its slot. */
  lemma SharesPassAnd(n: nat, gs: seq<Gate>, outs: seq<nat>, slots: seq<Share>, phys: seq<int>, numSlots: nat, id: nat,
                      vals: seq<Share>)
    requires Allocated(n, gs, outs, phys, numSlots) && n <= id < n + |gs| == |phys| == |vals| && |slots| == numSlots
    requires SharesReady(n, gs, slots, phys, id, vals) && gs[id - n].op == AndOp
    ensures slots[phys[id]] == vals[id]
    ensures SharesReady(n, gs, slots, phys, id + 1, vals)
  {
    assert phys[n + (id - n)] == phys[id];
    WriteHolds(slots, slots, phys, phys, id, vals);
  }

  /** A constant cache of a pass that has emitted `gs`: -1, or the wire of the one gate that emitted the constant. */
  ghost predicate Cached(n: nat, gs: seq<Gate>, k: nat, cache: int, op: Op)
    requires k <= |gs|
  {
    if cache < 0
    then cache == -1 && forall j | 0 <= j < k :: gs[j].op != op
    else n <= cache < n + k && gs[cache - n].op == op
  }

  lemma CachedGoesOn(n: nat, gs: seq<Gate>, k: nat, cache: int, op: Op)
    requires k < |gs| && Cached(n, gs, k, cache, op) && gs[k].op != op
    ensures Cached(n, gs, k + 1, cache, op)
  {
  }

  lemma CachedAnew(n: nat, gs: seq<Gate>, k: nat, op: Op)
    requires k < |gs| && gs[k].op == op
    ensures Cached(n, gs, k + 1, n + k, op)
  {
  }

  /** The passes' shared per-run state at one party. Wire state is indexed by physical slot, through `phys`. */
  class RunState {
    const party: nat
    const delta: Block
    const numInputs: nat
    var numAnds: nat
    var numWires: nat
    var numSlots: nat
    var phys: seq<int>
    var lastUse: seq<int>
    var persist: seq<bool>
    var wireSlot: seq<Share>
    var maskInput: seq<bool>
    var labelSlot: seq<Block>
    var evalSlot: seq<Block>
    var repA: seq<Share>
    var repB: seq<Share>
    var sigma: seq<Share>
    var m1t: seq<Block>
    var lambdaAnd: seq<bool>
    var h: TweakedHash
    var tweak: nat

    constructor (party: nat, delta: Block, numInputs: nat)
      ensures this.party == party && this.delta == delta && this.numInputs == numInputs
    {
      this.party, this.delta, this.numInputs := party, delta, numInputs;
      numAnds, numWires, numSlots, tweak := 0, 0, 0, 0;
      phys, lastUse, persist, wireSlot, maskInput := [], [], [], [], [];
      labelSlot, evalSlot, repA, repB, sigma, m1t, lambdaAnd := [], [], [], [], [], [], [];
      h := (_, _) => ZERO;
    }

    /** What the liveness pass leaves behind for the stream `gs` with outputs `outs`. */
    ghost predicate LivenessDone(gs: seq<Gate>, outs: seq<nat>)
      reads `numWires, `lastUse, `persist, `numAnds
    {
      && numWires == numInputs + |gs| == |lastUse| == |persist|
      && numAnds == NumAnds(gs)
      && (forall w | 0 <= w < numWires :: lastUse[w] == LastUse(gs, |gs|, w))
      && forall w | 0 <= w < numWires :: persist[w] == Persists(numInputs, gs, outs, w)
    }

    /** `setS`: a fresh tweak sequence under a seed. */
    method SetS(seed: TweakedHash)
      modifies this`h, this`tweak
      ensures h == seed && tweak == 0
    {
      h, tweak := seed, 0;
    }

    /** `hash_cir<1, _>`: hash all the blocks under the next tweak. */
    method HashCir(blocks: seq<Block>) returns (out: seq<Block>)
      modifies this`tweak
      ensures |out| == |blocks| && forall i | 0 <= i < |blocks| :: out[i] == h(old(tweak), blocks[i])
      ensures tweak == old(tweak) + 1
    {
      out := seq(|blocks|, i requires 0 <= i < |blocks| reads this => h(tweak, blocks[i]));
      tweak := tweak + 1;
    }
  }
}
