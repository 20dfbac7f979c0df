/** Pass 0: last uses and persistence over the gate stream (AG2PCLivenessPass). */
module LivenessPasses {
  import opened Circuits
  import opened Recordings
  import opened RunStates

  class LivenessPass {
    const s: RunState
    var wid: nat
    var gi: nat
    var ai: nat
    var lastUse: seq<int>
    var persist: seq<bool>
    var c0: int
    var c1: int
    /** The gates emitted so far. */
    ghost var gates: seq<Gate>

    ghost predicate Valid()
      reads this
    {
      && Canonical(s.numInputs, gates)
      && wid == s.numInputs + |gates| == |lastUse| == |persist|
      && gi == GateIndex(gates, |gates|) && ai == NumAnds(gates)
      && CacheOk(s.numInputs, gates, c0, Const0) && CacheOk(s.numInputs, gates, c1, Const1)
      && (forall w | 0 <= w < wid :: lastUse[w] == LastUse(gates, |gates|, w))
      && forall w | 0 <= w < wid :: persist[w] == (w < s.numInputs || gates[w - s.numInputs].op == AndOp)
    }

    constructor (s: RunState)
      ensures this.s == s && Valid() && gates == [] && c0 == c1 == -1
    {
      this.s := s;
      wid, gi, ai, c0, c1, gates := s.numInputs, 0, 0, -1, -1, [];
      lastUse := seq(s.numInputs, _ => -1);
      persist := seq(s.numInputs, _ => true);
    }

    /** `emit_`: a fresh wire for gate `g`, not yet read by anyone. The caller then records what `g` reads. */
    method Emit(ghost g: Gate, isPersist: bool) returns (w: nat)
      requires Valid() && g.out == wid && isPersist == (g.op == AndOp)
      requires !g.IsConst() ==> g.in0 < wid && (g.op != NotOp ==> g.in1 < wid)
      requires g.op == Const0 ==> c0 < 0
      requires g.op == Const1 ==> c1 < 0
      modifies this`wid, this`lastUse, this`persist, this`gates
      ensures w == old(wid) && wid == w + 1 && gates == old(gates) + [g] && Canonical(s.numInputs, gates)
      ensures |lastUse| == |persist| == wid
      ensures forall v | 0 <= v < wid :: lastUse[v] == LastUse(gates, |gates| - 1, v)
      ensures forall v | 0 <= v < wid :: persist[v] == (v < s.numInputs || gates[v - s.numInputs].op == AndOp)
      ensures GateIndex(gates, |gates| - 1) == gi && AndsBefore(gates, |gates| - 1) == ai
    {
      UnreadWire(s.numInputs, gates, wid, |gates|);
      CountsOfPrefix(gates, gates + [g], |gates|);
      w, wid := wid, wid + 1;
      lastUse, persist := lastUse + [-1], persist + [isPersist];
      gates := gates + [g];
    }

    method PublicBit(v: bool) returns (w: nat)
      requires Valid()
      modifies this
      ensures Valid()
      ensures var c, op := if v then old(c1) else old(c0), if v then Const1 else Const0;
        if c >= 0 then w == c && gates == old(gates) && c0 == old(c0) && c1 == old(c1)
        else w == old(wid) && gates == old(gates) + [Gate(0, 0, w, op)]
             && c0 == (if v then old(c0) else w) && c1 == (if v then w else old(c1))
    {
      hide Ordered, ConstsUnique;
      var c := if v then c1 else c0;
      if c >= 0 {
        return c;
      }
      w := Emit(Gate(0, 0, wid, if v then Const1 else Const0), false);
      if v {
        c1 := w;
      } else {
        c0 := w;
      }
    }

    /** A gate that is no constant leaves both caches right. */
    lemma CachesGoOn(g: Gate)
      requires Valid() && !g.IsConst()
      ensures CacheOk(s.numInputs, gates + [g], c0, Const0) && CacheOk(s.numInputs, gates + [g], c1, Const1)
    {
      hide Ordered, ConstsUnique, LastUse, GateIndex;
    }

    method AndGate(i0: nat, i1: nat) returns (w: nat)
      requires Valid() && i0 < wid && i1 < wid
      modifies this
      ensures Valid() && w == old(wid) && gates == old(gates) + [Gate(i0, i1, w, AndOp)] && c0 == old(c0) && c1 == old(c1)
    {
      hide Canonical, CacheOk, Ordered, ConstsUnique;
      CachesGoOn(Gate(i0, i1, wid, AndOp));
      w := Emit(Gate(i0, i1, wid, AndOp), true);
      lastUse := lastUse[i0 := gi][i1 := gi];
      gi, ai := gi + 1, ai + 1;
    }

    method XorGate(i0: nat, i1: nat) returns (w: nat)
      requires Valid() && i0 < wid && i1 < wid
      modifies this
      ensures Valid() && w == old(wid) && gates == old(gates) + [Gate(i0, i1, w, XorOp)] && c0 == old(c0) && c1 == old(c1)
    {
      hide Canonical, CacheOk, Ordered, ConstsUnique;
      CachesGoOn(Gate(i0, i1, wid, XorOp));
      w := Emit(Gate(i0, i1, wid, XorOp), false);
      lastUse := lastUse[i0 := gi][i1 := gi];
      gi := gi + 1;
    }

    method NotGate(i: nat) returns (w: nat)
      requires Valid() && i < wid
      modifies this
      ensures Valid() && w == old(wid) && gates == old(gates) + [Gate(i, 0, w, NotOp)] && c0 == old(c0) && c1 == old(c1)
    {
      hide Canonical, CacheOk, Ordered, ConstsUnique;
      CachesGoOn(Gate(i, 0, wid, NotOp));
      w := Emit(Gate(i, 0, wid, NotOp), false);
      lastUse := lastUse[i := gi];
      gi := gi + 1;
    }

    /** Commit liveness to the run state and pin the circuit outputs. */
    method Commit(outs: seq<nat>)
      requires Valid() && forall i | 0 <= i < |outs| :: outs[i] < wid
      modifies this`persist, s`numWires, s`numAnds, s`lastUse, s`persist
      ensures s.LivenessDone(gates, outs)
      ensures forall w | 0 <= w < s.numWires ::
        s.persist[w] <==> w < s.numInputs || gates[w - s.numInputs].op == AndOp || w in outs
      ensures forall w | 0 <= w < s.numWires :: s.lastUse[w] == -1 <==> forall k | 0 <= k < |gates| :: !gates[k].Reads(w)
      ensures forall w, k | 0 <= w < s.numWires && 0 <= k < |gates| && gates[k].Reads(w) && NoLaterRead(gates, w, k + 1) ::
        s.lastUse[w] == GateIndex(gates, k)
    {
      for i := 0 to |outs|
        invariant |persist| == wid
        invariant forall w | 0 <= w < wid ::
          persist[w] == (w < s.numInputs || gates[w - s.numInputs].op == AndOp || w in outs[..i])
      {
        assert outs[..i + 1] == outs[..i] + [outs[i]];
        if outs[i] < wid {
          persist := persist[outs[i] := true];
        }
      }
      assert outs[..|outs|] == outs;
      forall w | 0 <= w < wid
        ensures lastUse[w] == -1 <==> forall k | 0 <= k < |gates| :: !gates[k].Reads(w)
        ensures forall k | 0 <= k < |gates| && gates[k].Reads(w) && NoLaterRead(gates, w, k + 1) :: lastUse[w] == GateIndex(gates, k)
      {
        LastUseIsLastRead(gates, w);
      }
      s.numWires, s.numAnds, s.lastUse, s.persist := wid, ai, lastUse, persist;
    }

    /** Dispatch one call of a body over the scratch map from values to wires. */
    method Apply(g: Gate, scratch: seq<nat>) returns (w: nat)
      requires Valid() && forall v | 0 <= v < |scratch| :: scratch[v] < wid
      requires !g.IsConst() ==> g.in0 < |scratch| && (g.op != NotOp ==> g.in1 < |scratch|)
      modifies this
      ensures Valid()
      ensures Recording(gates, scratch + [w], c0, c1)
           == Recording(old(gates), scratch, old(c0), old(c1)).Step(s.numInputs, g)
    {
      assert wid == s.numInputs + |gates|;
      hide Valid, CacheOk, Canonical;
      match g.op {
        case Const0 => w := PublicBit(false);
        case Const1 => w := PublicBit(true);
        case AndOp => w := AndGate(scratch[g.in0], scratch[g.in1]);
        case XorOp => w := XorGate(scratch[g.in0], scratch[g.in1]);
        case NotOp => w := NotGate(scratch[g.in0]);
      }
    }

    /** Drive the pass over a body; the result maps each value to its wire. */
    method Run(calls: seq<Gate>) returns (scratch: seq<nat>)
      requires Valid() && gates == [] && c0 == c1 == -1 && Ordered(s.numInputs, calls)
      modifies this
      ensures Valid() && gates == Stream(s.numInputs, calls)
      ensures scratch == Record(s.numInputs, calls, |calls|).ids
    {
      hide Canonical, CacheOk;
      scratch := seq(s.numInputs, i => i);
      for k := 0 to |calls|
        invariant Valid() && Recording(gates, scratch, c0, c1) == Record(s.numInputs, calls, k)
      {
        RecordIsCanonical(s.numInputs, calls, k);
        IdsInRange(s.numInputs, Record(s.numInputs, calls, k));
        var w := Apply(calls[k], scratch);
        scratch := scratch + [w];
      }
    }
  }

  /** Nobody reads a wire before it exists. */
  lemma {:induction false} UnreadWire(n: nat, gs: seq<Gate>, w: nat, k: nat)
    requires Ordered(n, gs) && w >= n + |gs| && k <= |gs|
    ensures LastUse(gs, k, w) == -1
  {
    if k > 0 {
      UnreadWire(n, gs, w, k - 1);
    }
  }
}
