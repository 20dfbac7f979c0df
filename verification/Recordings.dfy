/** A circuit body as the calls it makes, and what a constant-deduplicating context makes of them.

    A body is a list of gate calls whose operands and results are value numbers: the inputs are values `0 .. n`, and
    call `k` yields value `n + k`. Unlike a recorded program, a body may ask for the same constant many times.
    `Record` is what every context with `public_bit` dedup (the recorder and each pass) emits for it. */
module Recordings {
  import opened Circuits

  /** Emitted gates, the wire id of each value so far, and the two constant caches (-1 when empty). */
  datatype Recording = Recording(gates: seq<Gate>, ids: seq<nat>, c0: int, c1: int) {
    function Emit(n: nat, in0: nat, in1: nat, op: Op): Recording {
      var id := n + |gates|;
      Recording(gates + [Gate(in0, in1, id, op)], ids + [id],
                if op == Const0 then id else c0, if op == Const1 then id else c1)
    }

    function Reuse(id: nat): Recording {
      this.(ids := ids + [id])
    }

    /** One call: a constant already emitted is reused, anything else is emitted over its operands' wires. */
    function Step(n: nat, g: Gate): Recording
      requires !g.IsConst() ==> g.in0 < |ids| && (g.op != NotOp ==> g.in1 < |ids|)
    {
      match g.op
      case Const0 => if c0 >= 0 then Reuse(c0) else Emit(n, 0, 0, Const0)
      case Const1 => if c1 >= 0 then Reuse(c1) else Emit(n, 0, 0, Const1)
      case NotOp => Emit(n, ids[g.in0], 0, NotOp)
      case _ => Emit(n, ids[g.in0], ids[g.in1], g.op)
    }
  }

  function Record(n: nat, calls: seq<Gate>, k: nat): (r: Recording)
    requires Ordered(n, calls) && k <= |calls|
    ensures |r.ids| == n + k
  {
    if k == 0 then Recording([], seq(n, i => i), -1, -1)
    else Record(n, calls, k - 1).Step(n, calls[k - 1])
  }

  /** The recorded gate stream of a whole body. */
  function Stream(n: nat, calls: seq<Gate>): seq<Gate>
    requires Ordered(n, calls)
  {
    Record(n, calls, |calls|).gates
  }

  /** A cache is empty exactly when its constant was never emitted, and otherwise names the gate that emitted it. */
  ghost predicate CacheOk(n: nat, gs: seq<Gate>, cache: int, op: Op) {
    if cache < 0
    then cache == -1 && forall k | 0 <= k < |gs| :: gs[k].op != op
    else n <= cache < n + |gs| && gs[cache - n].op == op
  }

  ghost predicate RecordingOk(n: nat, r: Recording) {
    && Canonical(n, r.gates)
    && CacheOk(n, r.gates, r.c0, Const0)
    && CacheOk(n, r.gates, r.c1, Const1)
    && forall v | 0 <= v < |r.ids| :: r.ids[v] < n + |r.gates|
  }

  lemma StepKeepsOk(n: nat, r: Recording, g: Gate)
    requires RecordingOk(n, r)
    requires !g.IsConst() ==> g.in0 < |r.ids| && (g.op != NotOp ==> g.in1 < |r.ids|)
    ensures RecordingOk(n, r.Step(n, g))
  {
    IdsInRange(n, r);
    hide RecordingOk, Recording.Emit;
    match g.op
    case Const0 => if r.c0 < 0 { EmitKeepsOk(n, r, 0, 0, Const0); } else { ReuseKeepsOk(n, r, r.c0); }
    case Const1 => if r.c1 < 0 { EmitKeepsOk(n, r, 0, 0, Const1); } else { ReuseKeepsOk(n, r, r.c1); }
    case NotOp => EmitKeepsOk(n, r, r.ids[g.in0], 0, NotOp);
    case _ => EmitKeepsOk(n, r, r.ids[g.in0], r.ids[g.in1], g.op);
  }

  lemma IdsInRange(n: nat, r: Recording)
    requires RecordingOk(n, r)
    ensures forall v | 0 <= v < |r.ids| :: r.ids[v] < n + |r.gates|
    ensures r.c0 >= 0 ==> n <= r.c0
    ensures r.c1 >= 0 ==> n <= r.c1
  {
  }

  lemma EmitKeepsOk(n: nat, r: Recording, in0: nat, in1: nat, op: Op)
    requires RecordingOk(n, r)
    requires op == Const0 ==> r.c0 < 0
    requires op == Const1 ==> r.c1 < 0
    requires op == AndOp || op == XorOp || op == NotOp ==> in0 < n + |r.gates|
    requires op == AndOp || op == XorOp ==> in1 < n + |r.gates|
    ensures RecordingOk(n, r.Emit(n, in0, in1, op))
  {
  }

  lemma ReuseKeepsOk(n: nat, r: Recording, id: nat)
    requires RecordingOk(n, r) && n <= id && (id == r.c0 || id == r.c1)
    ensures RecordingOk(n, r.Reuse(id))
  {
  }

  lemma {:induction false} RecordIsCanonical(n: nat, calls: seq<Gate>, k: nat)
    requires Ordered(n, calls) && k <= |calls|
    ensures RecordingOk(n, Record(n, calls, k))
  {
    hide RecordingOk;
    if k > 0 {
      RecordIsCanonical(n, calls, k - 1);
      StepKeepsOk(n, Record(n, calls, k - 1), calls[k - 1]);
    } else {
      EmptyRecordingOk(n);
    }
  }

  lemma EmptyRecordingOk(n: nat)
    ensures RecordingOk(n, Recording([], seq(n, i => i), -1, -1))
  {
  }

  lemma {:induction false} RecordGrows(n: nat, calls: seq<Gate>, j: nat, k: nat)
    requires Ordered(n, calls) && j <= k <= |calls|
    ensures Record(n, calls, j).gates <= Record(n, calls, k).gates
    ensures Record(n, calls, j).ids <= Record(n, calls, k).ids
    decreases k
  {
    hide Ordered;
    if j < k {
      RecordGrows(n, calls, j, k - 1);
    }
  }

  /** The wire `w` does to the recorded operands what `g` does to its own. */
  ghost predicate Implements(n: nat, gs: seq<Gate>, ids: seq<nat>, g: Gate, w: nat) {
    && n <= w < n + |gs| && gs[w - n].op == g.op
    && (!g.IsConst() ==> g.in0 < |ids| && gs[w - n].in0 == ids[g.in0])
    && (!g.IsConst() && g.op != NotOp ==> g.in1 < |ids| && gs[w - n].in1 == ids[g.in1])
  }

  lemma StepImplements(n: nat, r: Recording, g: Gate)
    requires RecordingOk(n, r)
    requires !g.IsConst() ==> g.in0 < |r.ids| && (g.op != NotOp ==> g.in1 < |r.ids|)
    ensures r.gates <= r.Step(n, g).gates && r.ids <= r.Step(n, g).ids
    ensures |r.Step(n, g).ids| == |r.ids| + 1
    ensures Implements(n, r.Step(n, g).gates, r.ids, g, r.Step(n, g).ids[|r.ids|])
  {
  }

  /** What the wire given to value `n + k` is: a gate computing the same operation on the operands' wires. */
  lemma RecordedGate(n: nat, calls: seq<Gate>, k: nat)
    requires Ordered(n, calls) && k < |calls|
    ensures var ids := Record(n, calls, |calls|).ids;
            Implements(n, Stream(n, calls), ids, calls[k], ids[n + k])
  {
    hide RecordingOk, Record;
    RecordGrows(n, calls, k, |calls|);
    RecordGrows(n, calls, k + 1, |calls|);
    RecordIsCanonical(n, calls, k);
    RecordUnfolds(n, calls, k + 1);
    var before, after, all := Record(n, calls, k), Record(n, calls, k + 1), Record(n, calls, |calls|);
    StepImplements(n, before, calls[k]);
    assert all.ids[n + k] == after.ids[n + k];
  }

  lemma RecordUnfolds(n: nat, calls: seq<Gate>, k: nat)
    requires Ordered(n, calls) && 0 < k <= |calls|
    ensures Record(n, calls, k) == Record(n, calls, k - 1).Step(n, calls[k - 1])
  {
  }

  /** Recording preserves meaning: every value of the body is computed by the wire it was given. */
  lemma {:induction false} RecordKeepsMeaning(n: nat, calls: seq<Gate>, x: seq<bool>, v: nat)
    requires Ordered(n, calls) && |x| == n && v < n + |calls|
    ensures Canonical(n, Stream(n, calls))
    ensures var w := Record(n, calls, |calls|).ids[v];
            w < n + |Stream(n, calls)| && Plain(n, calls, x, v) == Plain(n, Stream(n, calls), x, w)
    decreases v
  {
    RecordIsCanonical(n, calls, |calls|);
    if v < n {
      RecordGrows(n, calls, 0, |calls|);
      assert Record(n, calls, 0).ids[v] == v;
    } else {
      var g := calls[v - n];
      RecordedGate(n, calls, v - n);
      hide Record;
      if !g.IsConst() {
        RecordKeepsMeaning(n, calls, x, g.in0);
        if g.op != NotOp {
          RecordKeepsMeaning(n, calls, x, g.in1);
        }
      }
    }
  }

  /** The same gate up to the operands its operation ignores. */
  predicate SameGate(a: Gate, b: Gate) {
    && a.op == b.op && a.out == b.out
    && (!b.IsConst() ==> a.in0 == b.in0)
    && (!b.IsConst() && b.op != NotOp ==> a.in1 == b.in1)
  }

  /** On a canonical program the context numbers every gate as the program does, so the scratch map is the identity. */
  lemma {:induction false} CanonicalReplaysAsItself(n: nat, gs: seq<Gate>, k: nat)
    requires Canonical(n, gs) && k <= |gs|
    ensures var r := Record(n, gs, k);
      && |r.gates| == k
      && (forall v | 0 <= v < n + k :: r.ids[v] == v)
      && forall j | 0 <= j < k :: SameGate(r.gates[j], gs[j])
  {
    hide ConstsUnique, RecordingOk, Record, Ordered;
    if k > 0 {
      CanonicalReplaysAsItself(n, gs, k - 1);
      RecordIsCanonical(n, gs, k - 1);
      RecordUnfolds(n, gs, k);
      FirstConst(n, gs, k, Record(n, gs, k - 1));
      StepIsItself(n, gs, k - 1, Record(n, gs, k - 1));
    } else {
      NothingRecorded(n, gs);
    }
  }

  lemma NothingRecorded(n: nat, gs: seq<Gate>)
    requires Canonical(n, gs)
    ensures Ordered(n, gs) && Record(n, gs, 0) == Recording([], seq(n, i => i), -1, -1)
  {
  }

  /** One more gate of a canonical program over the identity map. */
  lemma StepIsItself(n: nat, gs: seq<Gate>, k: nat, r: Recording)
    requires Canonical(n, gs) && k < |gs| && |r.gates| == k && |r.ids| == n + k && forall v | 0 <= v < n + k :: r.ids[v] == v
    requires (gs[k].op == Const0 ==> r.c0 < 0) && (gs[k].op == Const1 ==> r.c1 < 0)
    ensures !gs[k].IsConst() ==> gs[k].in0 < n + k && (gs[k].op != NotOp ==> gs[k].in1 < n + k)
    ensures var g := r.Step(n, gs[k]).gates; |g| == k + 1 && g[..k] == r.gates && SameGate(g[k], gs[k])
    ensures r.Step(n, gs[k]).ids == r.ids + [n + k]
  {
    hide ConstsUnique;
  }

  lemma FirstConst(n: nat, gs: seq<Gate>, k: nat, r: Recording)
    requires Canonical(n, gs) && 0 < k <= |gs| && |r.gates| == k - 1 && RecordingOk(n, r)
    requires forall j | 0 <= j < k - 1 :: SameGate(r.gates[j], gs[j])
    ensures gs[k - 1].op == Const0 ==> r.c0 < 0
    ensures gs[k - 1].op == Const1 ==> r.c1 < 0
  {
  }

  /** Recording a recorded program again changes nothing: live replay of a body and stored replay of its recording
      drive a context through the same stream. */
  lemma RecordingIsIdempotent(n: nat, calls: seq<Gate>)
    requires Ordered(n, calls)
    ensures Canonical(n, Stream(n, calls))
    ensures Stream(n, Stream(n, calls)) == Stream(n, calls)
  {
    RecordIsCanonical(n, calls, |calls|);
    CanonicalReplaysAsItself(n, Stream(n, calls), |Stream(n, calls)|);
    DummiesAreZero(n, calls, |calls|);
    DummiesAreZero(n, Stream(n, calls), |Stream(n, calls)|);
  }

  lemma {:induction false} DummiesAreZero(n: nat, calls: seq<Gate>, k: nat)
    requires Ordered(n, calls) && k <= |calls|
    ensures forall g | g in Record(n, calls, k).gates :: (g.IsConst() ==> g.in0 == 0) && (g.IsConst() || g.op == NotOp ==> g.in1 == 0)
  {
    if k > 0 {
      DummiesAreZero(n, calls, k - 1);
    }
  }

  /** One more call of a body: the context is at `Record(n, calls, k)` and the next gate it emits is in the stream. */
  lemma NextCall(n: nat, calls: seq<Gate>, k: nat)
    requires Ordered(n, calls) && k < |calls|
    ensures var r, g := Record(n, calls, k), calls[k];
      && RecordingOk(n, r)
      && (!g.IsConst() ==> g.in0 < |r.ids| && (g.op != NotOp ==> g.in1 < |r.ids|))
      && Record(n, calls, k + 1) == r.Step(n, g)
      && r.Step(n, g).gates <= Stream(n, calls)
  {
    hide Record;
    RecordIsCanonical(n, calls, k);
    RecordUnfolds(n, calls, k + 1);
    RecordGrows(n, calls, k + 1, |calls|);
  }
}
