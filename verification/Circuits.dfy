/** Boolean programs, their plaintext meaning, the canonical form every pass relies on (canonical.h), and the
    constant-deduplicating recorder that produces it. */
module Circuits {
  datatype Op = Const0 | Const1 | AndOp | XorOp | NotOp

  datatype Gate = Gate(in0: nat, in1: nat, out: nat, op: Op) {
    predicate IsConst() {
      op == Const0 || op == Const1
    }

    /** Does the gate read wire `w`? Constants have no operands; NOT ignores its second one. */
    predicate Reads(w: nat) {
      !IsConst() && (in0 == w || (op != NotOp && in1 == w))
    }
  }

  datatype Program = Program(numInputs: nat, gates: seq<Gate>, outputs: seq<nat>, numWires: nat)

  /** Every gate drives the next wire id, and its operands come earlier. */
  ghost predicate Ordered(n: nat, gs: seq<Gate>) {
    forall k | 0 <= k < |gs| ::
      && gs[k].out == n + k
      && (!gs[k].IsConst() ==> gs[k].in0 < n + k && (gs[k].op != NotOp ==> gs[k].in1 < n + k))
  }

  /** At most one gate of each constant. */
  ghost predicate ConstsUnique(gs: seq<Gate>) {
    forall j, k | 0 <= j < k < |gs| && gs[j].IsConst() :: gs[j].op != gs[k].op
  }

  /** A record-canonical gate stream: what the dedup'ing passes number exactly as the program does. */
  ghost predicate Canonical(n: nat, gs: seq<Gate>) {
    Ordered(n, gs) && ConstsUnique(gs)
  }

  ghost predicate CanonicalProgram(p: Program) {
    && Canonical(p.numInputs, p.gates)
    && p.numWires == p.numInputs + |p.gates|
    && forall i | 0 <= i < |p.outputs| :: p.outputs[i] < p.numWires
  }

  /** Number of ANDs among the first `k` gates. */
  function AndsBefore(gs: seq<Gate>, k: nat): nat
    requires k <= |gs|
  {
    if k == 0 then 0 else AndsBefore(gs, k - 1) + if gs[k - 1].op == AndOp then 1 else 0
  }

  function NumAnds(gs: seq<Gate>): nat {
    AndsBefore(gs, |gs|)
  }

  lemma {:induction false} AndsBeforeMonotone(gs: seq<Gate>, j: nat, k: nat)
    requires j <= k <= |gs|
    ensures AndsBefore(gs, j) <= AndsBefore(gs, k)
    ensures j < k && gs[j].op == AndOp ==> AndsBefore(gs, j) < AndsBefore(gs, k)
    decreases k
  {
    if j < k {
      AndsBeforeMonotone(gs, j, k - 1);
    }
  }

  /** The plaintext value of wire `w` under the inputs `x`. */
  predicate Plain(n: nat, gs: seq<Gate>, x: seq<bool>, w: nat)
    requires Ordered(n, gs) && |x| == n && w < n + |gs|
    decreases w
  {
    if w < n then x[w] else
    var g := gs[w - n];
    match g.op
    case Const0 => false
    case Const1 => true
    case AndOp => Plain(n, gs, x, g.in0) && Plain(n, gs, x, g.in1)
    case XorOp => Plain(n, gs, x, g.in0) != Plain(n, gs, x, g.in1)
    case NotOp => !Plain(n, gs, x, g.in0)
  }

  /** The shape check of a stored program: bounds, single definition and order (validate_program), then
      out == num_inputs + i and the two constant counters. */
  method RequireRecordCanonical(p: Program) returns (ok: bool)
    ensures ok <==> CanonicalProgram(p)
  {
    if p.numWires != p.numInputs + |p.gates| {
      return false;
    }
    for i := 0 to |p.outputs|
      invariant forall j | 0 <= j < i :: p.outputs[j] < p.numWires
    {
      if p.outputs[i] >= p.numWires {
        return false;
      }
    }
    var c0, c1 := 0, 0;
    ghost var dup := false;
    for i := 0 to |p.gates|
      invariant Ordered(p.numInputs, p.gates[..i])
      invariant c0 == CountOp(p.gates[..i], Const0) && c1 == CountOp(p.gates[..i], Const1)
    {
      var g := p.gates[i];
      assert p.gates[..i + 1][..i] == p.gates[..i];
      if g.out != p.numInputs + i || (!g.IsConst() && (g.in0 >= g.out || (g.op != NotOp && g.in1 >= g.out))) {
        return false;
      }
      if g.op == Const0 {
        c0 := c0 + 1;
      }
      if g.op == Const1 {
        c1 := c1 + 1;
      }
    }
    assert p.gates[..|p.gates|] == p.gates;
    CountsDecideUniqueness(p.gates);
    ok := c0 <= 1 && c1 <= 1;
  }

  function CountOp(gs: seq<Gate>, op: Op): nat {
    if gs == [] then 0 else CountOp(gs[..|gs| - 1], op) + if gs[|gs| - 1].op == op then 1 else 0
  }

  lemma {:induction false} CountsDecideUniqueness(gs: seq<Gate>)
    ensures ConstsUnique(gs) <==> CountOp(gs, Const0) <= 1 && CountOp(gs, Const1) <= 1
    ensures forall op :: CountOp(gs, op) > 0 <==> exists k | 0 <= k < |gs| :: gs[k].op == op
  {
    if gs != [] {
      var rest, last := gs[..|gs| - 1], gs[|gs| - 1];
      CountsDecideUniqueness(rest);
      assert forall op :: CountOp(gs, op) == CountOp(rest, op) + if last.op == op then 1 else 0;
      if ConstsUnique(gs) {
        assert ConstsUnique(rest) by {
          forall j, k | 0 <= j < k < |rest| && rest[j].IsConst()
            ensures rest[j].op != rest[k].op
          {
            assert gs[j] == rest[j] && gs[k] == rest[k];
          }
        }
      }
      if CountOp(gs, Const0) <= 1 && CountOp(gs, Const1) <= 1 {
        forall j, k | 0 <= j < k < |gs| && gs[j].IsConst()
          ensures gs[j].op != gs[k].op
        {
          assert gs[j] == rest[j];
          if k < |rest| {
            assert gs[k] == rest[k];
          }
        }
      }
      forall op
        ensures CountOp(gs, op) > 0 <==> exists k | 0 <= k < |gs| :: gs[k].op == op
      {
        if CountOp(rest, op) > 0 {
          var k :| 0 <= k < |rest| && rest[k].op == op;
          assert gs[k].op == op;
        }
        if exists k | 0 <= k < |gs| :: gs[k].op == op {
          var k :| 0 <= k < |gs| && gs[k].op == op;
          assert k < |rest| ==> rest[k].op == op;
        }
      }
    }
  }
}
