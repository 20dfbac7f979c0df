/** The gate recorder of a session (ag2pc_ctx.h): it hands out wire ids that never restart and records gates into the
    current chunk. Both parties make the same calls, so one recorder stands for both. */
module Recorders {
  import opened Circuits
  import opened FlushPlans

  const UINT32_MAX: nat := 0xFFFF_FFFF

  /** How a call ends; everything but `Done` is a loud error in the session. */
  datatype Status = Done | IdOverflow | NeverAllocated | BadOwner | BadRecipient | StaleWire | Unflushed | BadWidth
                  | NotCanonical | CheckFailed | OpeningRefused | BatchFinished

  /** A constant's cache is empty exactly when the chunk has no such gate, and otherwise names the gate's output. */
  ghost predicate ConstCache(gs: seq<Gate>, cache: int, op: Op) {
    if cache < 0
    then cache == -1 && forall k | 0 <= k < |gs| :: gs[k].op != op
    else exists k | 0 <= k < |gs| :: gs[k].op == op && gs[k].out == cache
  }

  ghost predicate RecorderOk(nextId: nat, gs: seq<Gate>, pending: set<nat>, c0: int, c1: int) {
    && nextId <= UINT32_MAX
    && Chunk(gs) && (forall k | 0 <= k < |gs| :: gs[k].out < nextId)
    && (forall w: nat :: w in pending <==> Local(gs, w))
    && ConstCache(gs, c0, Const0) && ConstCache(gs, c1, Const1)
  }

  lemma RecordingKeepsOk(nextId: nat, gs: seq<Gate>, pending: set<nat>, c0: int, c1: int, g: Gate)
    requires RecorderOk(nextId, gs, pending, c0, c1) && nextId < UINT32_MAX && g.out == nextId
    requires !g.IsConst() ==> g.in0 < nextId && (g.op != NotOp ==> g.in1 < nextId)
    requires (g.op == Const0 ==> c0 < 0) && (g.op == Const1 ==> c1 < 0)
    ensures RecorderOk(nextId + 1, gs + [g], pending + {nextId}, if g.op == Const0 then nextId else c0,
                       if g.op == Const1 then nextId else c1)
  {
    ChunkGrows(nextId, gs, c0, c1, g);
    LocalGrows(gs, g);
    CacheGrows(gs, c0, Const0, g);
    CacheGrows(gs, c1, Const1, g);
    hide Chunk, Local, ConstCache;
  }

  lemma ChunkGrows(nextId: nat, gs: seq<Gate>, c0: int, c1: int, g: Gate)
    requires Chunk(gs) && (forall k | 0 <= k < |gs| :: gs[k].out < nextId) && g.out == nextId
    requires !g.IsConst() ==> g.in0 < nextId && (g.op != NotOp ==> g.in1 < nextId)
    requires ConstCache(gs, c0, Const0) && ConstCache(gs, c1, Const1)
    requires (g.op == Const0 ==> c0 < 0) && (g.op == Const1 ==> c1 < 0)
    ensures Chunk(gs + [g])
  {
  }

  lemma LocalGrows(gs: seq<Gate>, g: Gate)
    ensures forall w: nat :: Local(gs + [g], w) <==> Local(gs, w) || w == g.out
  {
    forall w: nat
      ensures Local(gs + [g], w) <==> Local(gs, w) || w == g.out
    {
      if Local(gs, w) {
        var k :| 0 <= k < |gs| && gs[k].out == w;
        assert (gs + [g])[k].out == w;
      }
      assert (gs + [g])[|gs|] == g;
    }
  }

  lemma CacheGrows(gs: seq<Gate>, cache: int, op: Op, g: Gate)
    requires ConstCache(gs, cache, op) && (g.op == op ==> cache < 0)
    ensures ConstCache(gs + [g], if g.op == op then g.out else cache, op)
  {
    if g.op == op {
      assert (gs + [g])[|gs|] == g;
    } else if cache >= 0 {
      var k :| 0 <= k < |gs| && gs[k].op == op && gs[k].out == cache;
      assert (gs + [g])[k] == gs[k];
    }
  }

  class Recorder {
    var nextId: nat
    var chunk: seq<Gate>
    var pending: set<nat>
    var const0: int
    var const1: int

    ghost predicate Valid()
      reads this
    {
      RecorderOk(nextId, chunk, pending, const0, const1)
    }

    constructor ()
      ensures Valid() && nextId == 0 && chunk == [] && pending == {}
    {
      nextId, chunk, pending, const0, const1 := 0, [], {}, -1, -1;
    }

    method AllocId() returns (st: Status, id: nat)
      requires nextId <= UINT32_MAX
      modifies this`nextId
      ensures st == if old(nextId) == UINT32_MAX then IdOverflow else Done
      ensures st.Done? ==> id == old(nextId) && nextId == id + 1
      ensures !st.Done? ==> nextId == old(nextId)
    {
      if nextId == UINT32_MAX {
        return IdOverflow, 0;
      }
      st, id, nextId := Done, nextId, nextId + 1;
    }

    /** A chunk emits each constant at most once; later calls reuse its wire. */
    method PublicBit(v: bool) returns (st: Status, w: nat)
      requires Valid()
      modifies this
      ensures Valid()
      ensures st == if old(if v then const1 else const0) < 0 && old(nextId) == UINT32_MAX then IdOverflow else Done
      ensures st.Done? && old(if v then const1 else const0) >= 0 ==>
        && w == old(if v then const1 else const0) && w in pending
        && nextId == old(nextId) && chunk == old(chunk) && pending == old(pending)
        && const0 == old(const0) && const1 == old(const1)
      ensures st.Done? && old(if v then const1 else const0) < 0 ==>
        && w == old(nextId) && nextId == w + 1 && pending == old(pending) + {w}
        && chunk == old(chunk) + [Gate(0, 0, w, if v then Const1 else Const0)]
        && const0 == (if v then old(const0) else w) && const1 == if v then w else old(const1)
    {
      st := Done;
      if (if v then const1 else const0) < 0 {
        st, w := Record(0, 0, if v then Const1 else Const0);
        if !st.Done? {
          return;
        }
        if v { const1 := w; } else { const0 := w; }
      } else {
        w := if v then const1 else const0;
      }
    }

    method Record(a: nat, b: nat, op: Op) returns (st: Status, w: nat)
      requires Valid() && (op != Const0 && op != Const1 ==> a < nextId && (op != NotOp ==> b < nextId))
      requires (op == Const0 ==> const0 < 0) && (op == Const1 ==> const1 < 0)
      modifies this`nextId, this`chunk, this`pending
      ensures st == if old(nextId) == UINT32_MAX then IdOverflow else Done
      ensures !st.Done? ==> nextId == old(nextId) && chunk == old(chunk) && pending == old(pending)
      ensures st.Done? ==>
        && w == old(nextId) && nextId == w + 1 && chunk == old(chunk) + [Gate(a, b, w, op)] && pending == old(pending) + {w}
        && RecorderOk(nextId, chunk, pending, if op == Const0 then w else const0, if op == Const1 then w else const1)
    {
      hide RecorderOk, Local, Chunk, ConstCache;
      IdsBounded();
      st, w := AllocId();
      if !st.Done? {
        return;
      }
      RecordingKeepsOk(w, chunk, pending, const0, const1, Gate(a, b, w, op));
      chunk, pending := chunk + [Gate(a, b, w, op)], pending + {w};
    }

    lemma IdsBounded()
      requires Valid()
      ensures nextId <= UINT32_MAX
    {
    }

    /** AND and XOR gates: operands must have been allocated; nothing else is known about them yet. */
    method BinaryGate(a: nat, b: nat, op: Op) returns (st: Status, w: nat)
      requires Valid() && (op == AndOp || op == XorOp)
      modifies this`nextId, this`chunk, this`pending
      ensures Valid()
      ensures st == if a >= old(nextId) || b >= old(nextId) then NeverAllocated
                    else if old(nextId) == UINT32_MAX then IdOverflow else Done
      ensures !st.Done? ==> nextId == old(nextId) && chunk == old(chunk) && pending == old(pending)
      ensures st.Done? ==> w == old(nextId) && nextId == w + 1 && chunk == old(chunk) + [Gate(a, b, w, op)]
                           && pending == old(pending) + {w}
    {
      hide RecorderOk;
      if a >= nextId || b >= nextId {
        return NeverAllocated, 0;
      }
      st, w := Record(a, b, op);
    }

    method NotGate(a: nat) returns (st: Status, w: nat)
      requires Valid()
      modifies this`nextId, this`chunk, this`pending
      ensures Valid()
      ensures st == if a >= old(nextId) then NeverAllocated else if old(nextId) == UINT32_MAX then IdOverflow else Done
      ensures !st.Done? ==> nextId == old(nextId) && chunk == old(chunk) && pending == old(pending)
      ensures st.Done? ==> w == old(nextId) && nextId == w + 1 && chunk == old(chunk) + [Gate(a, 0, w, NotOp)]
                           && pending == old(pending) + {w}
    {
      hide RecorderOk;
      if a >= nextId {
        return NeverAllocated, 0;
      }
      st, w := Record(a, 0, NotOp);
    }

    /** `n` fresh consecutive ids for a bundle about to be materialized; they are never pending. */
    method ReserveIds(n: nat) returns (st: Status, ids: seq<nat>)
      requires Valid()
      modifies this`nextId
      ensures Valid()
      ensures st == if old(nextId) + n <= UINT32_MAX then Done else IdOverflow
      ensures st.Done? ==> nextId == old(nextId) + n && |ids| == n && forall i | 0 <= i < n :: ids[i] == old(nextId) + i
      ensures nextId >= old(nextId)
    {
      ids := [];
      for i := 0 to n
        invariant nextId == old(nextId) + i <= UINT32_MAX
        invariant |ids| == i && forall j | 0 <= j < i :: ids[j] == old(nextId) + j
      {
        var id;
        st, id := AllocId();
        if !st.Done? {
          return;
        }
        ids := ids + [id];
      }
      st := Done;
    }

    method DropChunk()
      requires Valid()
      modifies this`chunk, this`pending, this`const0, this`const1
      ensures Valid() && chunk == [] && pending == {} && const0 == const1 == -1
    {
      chunk, pending, const0, const1 := [], {}, -1, -1;
    }
  }
}
