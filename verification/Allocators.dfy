/** The slot allocator of the slot/mask pass on its own: soundness of recycling and the exact footprint. */
module Allocators {
  import opened Circuits
  import opened RunStates

  /** Slot of each wire so far, number of slots, and the recycled slots, last freed last. */
  datatype Allocator = Allocator(phys: seq<int>, numSlots: nat, freelist: seq<int>) {
    /** `alloc_slot` for the next wire: a persistent wire always takes a fresh slot. */
    function Take(persist: bool): Allocator {
      if !persist && freelist != []
      then Allocator(phys + [freelist[|freelist| - 1]], numSlots, freelist[..|freelist| - 1])
      else Allocator(phys + [numSlots], numSlots + 1, freelist)
    }

    function Free(slot: int): Allocator {
      this.(freelist := freelist + [slot])
    }
  }

  /** Is gate `k` the last read of the recyclable wire `w`? */
  predicate Dies(n: nat, gs: seq<Gate>, outs: seq<nat>, k: nat, w: nat)
    requires k < |gs| && w < n + |gs|
  {
    !Persists(n, gs, outs, w) && LastUse(gs, |gs|, w) == GateIndex(gs, k)
  }

  /** `free_if_dead` at gate `k`. */
  function FreeIfDead(n: nat, gs: seq<Gate>, outs: seq<nat>, k: nat, a: Allocator, w: nat): Allocator
    requires k < |gs| && w < |a.phys| <= n + |gs|
  {
    if Dies(n, gs, outs, k, w) then a.Free(a.phys[w]) else a
  }

  /** Gate `k`: allocate its output, then free the operands it reads last. */
  function GateStep(n: nat, gs: seq<Gate>, outs: seq<nat>, k: nat, a: Allocator): Allocator
    requires Ordered(n, gs) && k < |gs| && |a.phys| == n + k
  {
    var g, a1 := gs[k], a.Take(Persists(n, gs, outs, n + k));
    if g.IsConst() then a1 else
    var a2 := FreeIfDead(n, gs, outs, k, a1, g.in0);
    if g.op != NotOp && g.in1 != g.in0 then FreeIfDead(n, gs, outs, k, a2, g.in1) else a2
  }

  function AllocAt(n: nat, gs: seq<Gate>, outs: seq<nat>, k: nat): (a: Allocator)
    requires Ordered(n, gs) && k <= |gs|
    ensures |a.phys| == n + k
  {
    if k == 0 then Allocator(seq(n, i => i), n, []) else GateStep(n, gs, outs, k - 1, AllocAt(n, gs, outs, k - 1))
  }

  lemma AllocStep(n: nat, gs: seq<Gate>, outs: seq<nat>, k: nat)
    requires Ordered(n, gs) && k < |gs|
    ensures AllocAt(n, gs, outs, k + 1) == GateStep(n, gs, outs, k, AllocAt(n, gs, outs, k))
  {
  }

  // ----- soundness -----

  /** The freelist holds distinct slots, each abandoned: all its wires are recyclable and read by no gate from `k` on. */
  ghost predicate FreelistOk(n: nat, gs: seq<Gate>, outs: seq<nat>, k: nat, a: Allocator)
    requires |a.phys| <= n + |gs|
  {
    && (forall i, j | 0 <= i < j < |a.freelist| :: a.freelist[i] != a.freelist[j])
    && (forall i | 0 <= i < |a.freelist| :: 0 <= a.freelist[i] < a.numSlots)
    && forall w | 0 <= w < |a.phys| && a.phys[w] in a.freelist :: Abandoned(n, gs, outs, k, w)
  }

  ghost predicate Abandoned(n: nat, gs: seq<Gate>, outs: seq<nat>, k: nat, w: nat)
    requires w < n + |gs|
  {
    n <= w && !Persists(n, gs, outs, w) && NoLaterRead(gs, w, k)
  }

  ghost predicate Sound(n: nat, gs: seq<Gate>, outs: seq<nat>, k: nat, a: Allocator) {
    && Allocated(n, gs, outs, a.phys, a.numSlots)
    && n <= a.numSlots
    && FreelistOk(n, gs, outs, k, a)
  }

  lemma TakeIsSound(n: nat, gs: seq<Gate>, outs: seq<nat>, k: nat, a: Allocator)
    requires Ordered(n, gs) && k < |gs| && |a.phys| == n + k && Sound(n, gs, outs, k, a)
    ensures Sound(n, gs, outs, k, a.Take(Persists(n, gs, outs, n + k)))
  {
    hide Persists, Allocated, FreelistOk, Ordered;
    if !Persists(n, gs, outs, n + k) && a.freelist != [] {
      RecycledIsSound(n, gs, outs, k, a);
    } else {
      FreshIsSound(n, gs, outs, k, a);
    }
  }

  /** A recycled slot: everything that used it is abandoned, so it retires before the new wire. */
  lemma RecycledIsSound(n: nat, gs: seq<Gate>, outs: seq<nat>, k: nat, a: Allocator)
    requires k < |gs| && |a.phys| == n + k && Allocated(n, gs, outs, a.phys, a.numSlots) && FreelistOk(n, gs, outs, k, a)
    requires a.freelist != [] && !Persists(n, gs, outs, n + k)
    ensures var t := a.Take(false); Allocated(n, gs, outs, t.phys, t.numSlots) && FreelistOk(n, gs, outs, k, t)
  {
    hide Persists, NoLaterRead;
    var id, t := n + k, a.Take(false);
    forall w, v | 0 <= w < v < |t.phys| && t.phys[w] == t.phys[v]
      ensures Retires(n, gs, outs, w, v)
    {
      if v < id {
        assert a.phys[w] == a.phys[v];
      } else {
        assert a.phys[w] == t.phys[id];
        assert a.phys[w] in a.freelist;
        assert Abandoned(n, gs, outs, k, w);
      }
    }
    forall w | 0 <= w < |t.phys| && t.phys[w] in t.freelist
      ensures Abandoned(n, gs, outs, k, w)
    {
      if w < id {
        assert a.phys[w] in a.freelist;
      }
    }
  }

  lemma FreshIsSound(n: nat, gs: seq<Gate>, outs: seq<nat>, k: nat, a: Allocator)
    requires k < |gs| && |a.phys| == n + k && Allocated(n, gs, outs, a.phys, a.numSlots) && FreelistOk(n, gs, outs, k, a)
    ensures var t := Allocator(a.phys + [a.numSlots], a.numSlots + 1, a.freelist);
      Allocated(n, gs, outs, t.phys, t.numSlots) && FreelistOk(n, gs, outs, k, t)
  {
    hide Retires, Abandoned;
    var t := a.phys + [a.numSlots];
    forall w, v | 0 <= w < v < |t| && t[w] == t[v]
      ensures Retires(n, gs, outs, w, v)
    {
      assert a.phys[w] == a.phys[v];
    }
  }

  /** Everything in the slot of a wire that gate `k` reads last is abandoned. */
  lemma SharersAreAbandoned(n: nat, gs: seq<Gate>, outs: seq<nat>, k: nat, phys: seq<int>, numSlots: nat, w: nat, v: nat)
    requires k < |gs| && |phys| == n + k + 1 && w < n + k && Allocated(n, gs, outs, phys, numSlots) && gs[k].Reads(w)
    requires phys[w] != phys[n + k] && Dies(n, gs, outs, k, w) && v < |phys| && phys[v] == phys[w]
    ensures n <= w ==> Abandoned(n, gs, outs, k + 1, v)
  {
    hide LastUse, GateIndex, Persists;
    LastUseRetires(gs, k, w);
    if v < w {
      assert Retires(n, gs, outs, v, w);
    } else if w < v {
      assert Retires(n, gs, outs, w, v);
    }
  }

  lemma FreeIsSound(n: nat, gs: seq<Gate>, outs: seq<nat>, k: nat, a: Allocator, w: nat)
    requires Ordered(n, gs) && k < |gs| && |a.phys| == n + k + 1 && w < n + k
    requires Allocated(n, gs, outs, a.phys, a.numSlots) && n <= a.numSlots && gs[k].Reads(w)
    requires FreelistOk(n, gs, outs, k + 1, a) && a.phys[w] !in a.freelist && a.phys[w] != a.phys[n + k]
    ensures Allocated(n, gs, outs, FreeIfDead(n, gs, outs, k, a, w).phys, a.numSlots)
    ensures FreelistOk(n, gs, outs, k + 1, FreeIfDead(n, gs, outs, k, a, w))
  {
    hide Dies, Abandoned, Ordered, LastUse, GateIndex, Persists;
    if Dies(n, gs, outs, k, w) {
      var f := a.Free(a.phys[w]);
      DyingIsFabric(n, gs, outs, k, w);
      SlotInRange(n, gs, outs, a.phys, a.numSlots, w);
      forall v | 0 <= v < |f.phys| && f.phys[v] in f.freelist
        ensures Abandoned(n, gs, outs, k + 1, v)
      {
        if a.phys[v] !in a.freelist {
          SharersAreAbandoned(n, gs, outs, k, a.phys, a.numSlots, w, v);
        }
      }
      hide Allocated;
    }
  }

  /** Inputs persist, so they never die. */
  lemma DyingIsFabric(n: nat, gs: seq<Gate>, outs: seq<nat>, k: nat, w: nat)
    requires k < |gs| && w < n + |gs| && Dies(n, gs, outs, k, w)
    ensures n <= w
  {
    hide LastUse, GateIndex;
  }

  lemma SlotInRange(n: nat, gs: seq<Gate>, outs: seq<nat>, phys: seq<int>, numSlots: nat, w: nat)
    requires Allocated(n, gs, outs, phys, numSlots) && w < |phys|
    ensures 0 <= phys[w] < numSlots
  {
    hide Retires;
  }

  /** Two operands of one gate, and its output, sit in three different slots, none of them recycled. */
  lemma OperandsHoldTheirSlots(n: nat, gs: seq<Gate>, outs: seq<nat>, k: nat, a: Allocator, w: nat, v: nat)
    requires Ordered(n, gs) && k < |gs| && |a.phys| == n + k + 1 && Sound(n, gs, outs, k, a)
    requires gs[k].Reads(w) && gs[k].Reads(v) && w < n + k && v < n + k && w != v
    ensures a.phys[w] !in a.freelist && a.phys[w] != a.phys[n + k]
    ensures a.phys[w] != a.phys[v]
  {
    assert a.phys[w] in a.freelist ==> Abandoned(n, gs, outs, k, w);
    assert a.phys[w] == a.phys[n + k] ==> Retires(n, gs, outs, w, n + k);
    var lo, hi := if w < v then w else v, if w < v then v else w;
    assert a.phys[lo] == a.phys[hi] ==> Retires(n, gs, outs, lo, hi);
  }

  lemma OperandHoldsItsSlot(n: nat, gs: seq<Gate>, outs: seq<nat>, k: nat, a: Allocator, w: nat)
    requires Ordered(n, gs) && k < |gs| && |a.phys| == n + k + 1 && Sound(n, gs, outs, k, a)
    requires gs[k].Reads(w) && w < n + k
    ensures a.phys[w] !in a.freelist && a.phys[w] != a.phys[n + k]
  {
    assert a.phys[w] in a.freelist ==> Abandoned(n, gs, outs, k, w);
    assert a.phys[w] == a.phys[n + k] ==> Retires(n, gs, outs, w, n + k);
  }

  lemma GateStepIsSound(n: nat, gs: seq<Gate>, outs: seq<nat>, k: nat, a: Allocator)
    requires Ordered(n, gs) && k < |gs| && |a.phys| == n + k && Sound(n, gs, outs, k, a)
    ensures Sound(n, gs, outs, k + 1, GateStep(n, gs, outs, k, a))
  {
    hide Allocated, Persists, LastUse, GateIndex;
    var g, a1 := gs[k], a.Take(Persists(n, gs, outs, n + k));
    TakeIsSound(n, gs, outs, k, a);
    assert FreelistOk(n, gs, outs, k + 1, a1);
    if !g.IsConst() {
      OperandHoldsItsSlot(n, gs, outs, k, a1, g.in0);
      FreeIsSound(n, gs, outs, k, a1, g.in0);
      if g.op != NotOp && g.in1 != g.in0 {
        OperandHoldsItsSlot(n, gs, outs, k, a1, g.in1);
        OperandsHoldTheirSlots(n, gs, outs, k, a1, g.in0, g.in1);
        FreeIsSound(n, gs, outs, k, FreeIfDead(n, gs, outs, k, a1, g.in0), g.in1);
      }
    }
  }

  /** Slot recycling is sound for every circuit: two wires share a slot only if both are recyclable and the earlier one
      is never read once the later one is computed. */
  lemma {:induction false} AllocationIsSound(n: nat, gs: seq<Gate>, outs: seq<nat>, k: nat)
    requires Ordered(n, gs) && k <= |gs|
    ensures Sound(n, gs, outs, k, AllocAt(n, gs, outs, k))
  {
    hide GateStep;
    if k > 0 {
      AllocationIsSound(n, gs, outs, k - 1);
      GateStepIsSound(n, gs, outs, k - 1, AllocAt(n, gs, outs, k - 1));
    }
  }

  // ----- footprint -----

  /** Has wire `w` been read for the last time before gate `k`? */
  ghost predicate DeadBy(gs: seq<Gate>, k: nat, w: nat)
    requires k <= |gs|
  {
    (exists j | 0 <= j < k :: gs[j].Reads(w)) && NoLaterRead(gs, w, k)
  }

  /** Gate output `w` gives its slot back: no AND made it, and it is none of the circuit's outputs. */
  predicate Fabric(n: nat, gs: seq<Gate>, outs: seq<nat>, w: nat) {
    n <= w < n + |gs| && gs[w - n].op != AndOp && w !in outs
  }

  /** The recyclable wires holding a slot before gate `k`. A wire that is never read holds its slot to the end. */
  ghost function Holders(n: nat, gs: seq<Gate>, outs: seq<nat>, k: nat): set<nat>
    requires k <= |gs|
  {
    set w | n <= w < n + k && Fabric(n, gs, outs, w) && !DeadBy(gs, k, w)
  }

  /** The permanent wires other than inputs among the first `k` gates' outputs. */
  function Permanent(n: nat, gs: seq<Gate>, outs: seq<nat>, k: nat): set<nat>
    requires k <= |gs|
  {
    set w | n <= w < n + k && (gs[w - n].op == AndOp || w in outs)
  }

  /** Recyclable wires holding a slot at once while gate `k` runs: its operands are freed after its output is placed. */
  ghost function During(n: nat, gs: seq<Gate>, outs: seq<nat>, k: nat): nat
    requires k < |gs|
  {
    |Holders(n, gs, outs, k)| + if Fabric(n, gs, outs, n + k) then 1 else 0
  }

  /** The peak of `During` over the first `k` gates. */
  ghost function Peak(n: nat, gs: seq<Gate>, outs: seq<nat>, k: nat): nat
    requires k <= |gs|
  {
    if k == 0 then 0 else
    var before, now := Peak(n, gs, outs, k - 1), During(n, gs, outs, k - 1);
    if before < now then now else before
  }

  /** Only an operand of gate `k` can die there. */
  lemma DyingWireIsRead(n: nat, gs: seq<Gate>, outs: seq<nat>, k: nat, w: nat)
    requires k < |gs| && w < n + |gs| && !gs[k].IsConst() && Dies(n, gs, outs, k, w)
    ensures gs[k].Reads(w)
  {
    LastUseIsARead(gs, |gs|, w);
    var j :| 0 <= j < |gs| && gs[j].Reads(w) && LastUse(gs, |gs|, w) == GateIndex(gs, j);
    if j < k {
      GateIndexMonotone(gs, j, k);
    } else if k < j {
      GateIndexMonotone(gs, k, j);
    }
  }

  /** The operands that die at gate `k`, read off the gates. */
  lemma DiesIff(n: nat, gs: seq<Gate>, outs: seq<nat>, k: nat, w: nat)
    requires k < |gs| && w < n + |gs| && !gs[k].IsConst()
    ensures Dies(n, gs, outs, k, w) <==> Fabric(n, gs, outs, w) && gs[k].Reads(w) && NoLaterRead(gs, w, k + 1)
  {
    if Dies(n, gs, outs, k, w) {
      DyingWireIsRead(n, gs, outs, k, w);
      LastUseRetires(gs, k, w);
    } else if gs[k].Reads(w) && NoLaterRead(gs, w, k + 1) {
      LastUseIs(gs, k, |gs|, w);
    }
  }

  /** A wire's reads come after the gate that computes it. */
  lemma NewWireIsAlive(n: nat, gs: seq<Gate>, k: nat)
    requires Ordered(n, gs) && k < |gs|
    ensures !DeadBy(gs, k + 1, n + k)
  {
    forall j | 0 <= j < k + 1
      ensures !gs[j].Reads(n + k)
    {
    }
  }

  /** Holders after gate `k`: the old ones and a recyclable output, less the operands that die there. */
  lemma HoldersStep(n: nat, gs: seq<Gate>, outs: seq<nat>, k: nat)
    requires Ordered(n, gs) && k < |gs|
    ensures var g, held := gs[k], Holders(n, gs, outs, k);
      var placed := if Fabric(n, gs, outs, n + k) then held + {n + k} else held;
      && n + k !in held
      && (g.IsConst() ==> Holders(n, gs, outs, k + 1) == placed)
      && (!g.IsConst() ==>
            && (Dies(n, gs, outs, k, g.in0) ==> g.in0 in placed)
            && (g.op != NotOp && Dies(n, gs, outs, k, g.in1) ==> g.in1 in placed)
            && Holders(n, gs, outs, k + 1) == placed
                 - (if Dies(n, gs, outs, k, g.in0) then {g.in0} else {})
                 - (if g.op != NotOp && Dies(n, gs, outs, k, g.in1) then {g.in1} else {}))
  {
    hide Ordered, Dies;
    var g, before, after := gs[k], Holders(n, gs, outs, k), Holders(n, gs, outs, k + 1);
    NewWireIsAlive(n, gs, k);
    OperandsBelow(n, gs, k);
    if !g.IsConst() {
      forall w | 0 <= w < n + |gs|
        ensures Dies(n, gs, outs, k, w) <==> Fabric(n, gs, outs, w) && g.Reads(w) && NoLaterRead(gs, w, k + 1)
      {
        DiesIff(n, gs, outs, k, w);
      }
    }
    forall w: nat
      ensures DeadBy(gs, k + 1, w) <==> DeadBy(gs, k, w) || (g.Reads(w) && NoLaterRead(gs, w, k + 1))
    {
      DeadStep(gs, k, w);
    }
  }

  lemma DeadStep(gs: seq<Gate>, k: nat, w: nat)
    requires k < |gs|
    ensures DeadBy(gs, k + 1, w) <==> DeadBy(gs, k, w) || (gs[k].Reads(w) && NoLaterRead(gs, w, k + 1))
  {
    hide Gate.Reads;
  }

  /** How many operands die at gate `k`. */
  function Freed(n: nat, gs: seq<Gate>, outs: seq<nat>, k: nat): nat
    requires Ordered(n, gs) && k < |gs|
  {
    var g := gs[k];
    if g.IsConst() then 0 else
    (if Dies(n, gs, outs, k, g.in0) then 1 else 0)
    + if g.op != NotOp && g.in1 != g.in0 && Dies(n, gs, outs, k, g.in1) then 1 else 0
  }

  lemma StepCounts(n: nat, gs: seq<Gate>, outs: seq<nat>, k: nat, a: Allocator)
    requires Ordered(n, gs) && k < |gs| && |a.phys| == n + k
    ensures var b, p := GateStep(n, gs, outs, k, a), Persists(n, gs, outs, n + k);
      && (p || a.freelist == [] ==> b.numSlots == a.numSlots + 1 && |b.freelist| == |a.freelist| + Freed(n, gs, outs, k))
      && (!p && a.freelist != [] ==> b.numSlots == a.numSlots && |b.freelist| == |a.freelist| - 1 + Freed(n, gs, outs, k))
  {
    hide Persists, Dies;
  }

  lemma HolderCounts(n: nat, gs: seq<Gate>, outs: seq<nat>, k: nat)
    requires Ordered(n, gs) && k < |gs|
    ensures |Holders(n, gs, outs, k + 1)| == During(n, gs, outs, k) - Freed(n, gs, outs, k)
  {
    hide Holders, Fabric, Dies, Ordered;
    OperandsBelow(n, gs, k);
    HoldersStep(n, gs, outs, k);
    var g := gs[k];
    if g.IsConst() {
      PlacedOne(Holders(n, gs, outs, k), n + k, !Fabric(n, gs, outs, n + k));
    } else {
      CountsFrom(Holders(n, gs, outs, k), Holders(n, gs, outs, k + 1), n + k, !Fabric(n, gs, outs, n + k), g.in0, g.in1,
                 Dies(n, gs, outs, k, g.in0), g.op != NotOp && Dies(n, gs, outs, k, g.in1));
    }
  }

  /** The allocator's pin is the complement of what gives its slot back. */
  lemma PermanentStep(n: nat, gs: seq<Gate>, outs: seq<nat>, k: nat)
    requires k < |gs|
    ensures Persists(n, gs, outs, n + k) <==> !Fabric(n, gs, outs, n + k)
    ensures |Permanent(n, gs, outs, k + 1)| == |Permanent(n, gs, outs, k)| + if Fabric(n, gs, outs, n + k) then 0 else 1
  {
    var before := Permanent(n, gs, outs, k);
    assert n + k !in before;
    assert Permanent(n, gs, outs, k + 1) == if Fabric(n, gs, outs, n + k) then before else before + {n + k};
  }

  lemma OperandsBelow(n: nat, gs: seq<Gate>, k: nat)
    requires Ordered(n, gs) && k < |gs|
    ensures !gs[k].IsConst() ==> gs[k].in0 < n + k && (gs[k].op != NotOp ==> gs[k].in1 < n + k)
  {
  }

  lemma CountsFrom(before: set<nat>, after: set<nat>, id: nat, persist: bool, x: nat, y: nat, dropX: bool, dropY: bool)
    requires id !in before
    requires var placed := if persist then before else before + {id};
      && (dropX ==> x in placed) && (dropY ==> y in placed)
      && after == placed - (if dropX then {x} else {}) - (if dropY then {y} else {})
    ensures |after| == |before| + (if persist then 0 else 1) - (if dropX then 1 else 0) - (if dropY && !(dropX && x == y) then 1 else 0)
  {
    PlacedOne(before, id, persist);
    RemovedTwo(if persist then before else before + {id}, x, y, dropX, dropY);
  }

  lemma PlacedOne(s: set<nat>, x: nat, persist: bool)
    requires x !in s
    ensures |if persist then s else s + {x}| == |s| + if persist then 0 else 1
  {
  }

  lemma RemovedTwo(s: set<nat>, x: nat, y: nat, dropX: bool, dropY: bool)
    requires (dropX ==> x in s) && (dropY ==> y in s)
    ensures |s - (if dropX then {x} else {}) - (if dropY then {y} else {})|
         == |s| - (if dropX then 1 else 0) - (if dropY && !(dropX && x == y) then 1 else 0)
  {
    if dropX && dropY && x == y {
      assert s - {x} - {y} == s - {x};
    }
  }

  /** The slots split into inputs, permanent outputs, and recyclable slots, each held or recycled; a recyclable slot is
      added only when none is free, so there are exactly as many as were ever held at once. */
  lemma {:induction false} FootprintIsExact(n: nat, gs: seq<Gate>, outs: seq<nat>, k: nat)
    requires Ordered(n, gs) && k <= |gs|
    ensures var a := AllocAt(n, gs, outs, k);
      && a.numSlots == n + |Permanent(n, gs, outs, k)| + Peak(n, gs, outs, k)
      && Peak(n, gs, outs, k) == |Holders(n, gs, outs, k)| + |a.freelist|
  {
    hide Holders, GateStep, Persists, Freed, Ordered, Fabric;
    if k == 0 {
      NoHolders(n, gs, outs);
      assert Permanent(n, gs, outs, 0) == {};
    } else {
      FootprintIsExact(n, gs, outs, k - 1);
      PermanentStep(n, gs, outs, k - 1);
      StepCounts(n, gs, outs, k - 1, AllocAt(n, gs, outs, k - 1));
      HolderCounts(n, gs, outs, k - 1);
    }
  }

  lemma NoHolders(n: nat, gs: seq<Gate>, outs: seq<nat>)
    requires Ordered(n, gs)
    ensures Holders(n, gs, outs, 0) == {}
  {
  }

  /** After gate `k`, the slot of a wire that it reads last is free for reuse, unless the wire is an input, an AND output or one
      of the circuit's outputs. */
  lemma LastReadFrees(n: nat, gs: seq<Gate>, outs: seq<nat>, k: nat, w: nat)
    requires Ordered(n, gs) && k < |gs| && n <= w < n + k && gs[w - n].op != AndOp && w !in outs
    requires gs[k].Reads(w) && forall j | k < j < |gs| :: !gs[j].Reads(w)
    ensures var a := AllocAt(n, gs, outs, k + 1); a.phys[w] in a.freelist
  {
    hide Persists, LastUse, GateIndex, Ordered;
    DiesIff(n, gs, outs, k, w);
    AllocStep(n, gs, outs, k);
    OperandsBelow(n, gs, k);
  }
}
