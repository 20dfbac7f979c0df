/** What a recorded wire depends on, computed forward as gates are recorded. The planner walks backward from the kept wires
    (flush_plan.h); both ways of asking find the same outside reads and the same ANDs. */
module Cones {
  import opened Circuits
  import opened FlushPlans
  import opened Flushes

  /** The wires from outside the chunk that a recorded wire depends on, whether an AND lies on the way, and whether it is a
      constant. */
  datatype Cone = Cone(outside: set<nat>, ands: bool, isConst: bool)

  type Open = map<nat, Cone>

  /** A wire that no gate of the chunk drives depends on itself alone. */
  function ConeAt(open: Open, w: nat): Cone {
    if w in open then open[w] else Cone({w}, false, false)
  }

  function ConeOf(open: Open, g: Gate): Cone {
    var a, b := ConeAt(open, g.in0), ConeAt(open, g.in1);
    match g.op
    case Const0 => Cone({}, false, true)
    case Const1 => Cone({}, false, true)
    case AndOp => Cone(a.outside + b.outside, true, false)
    case XorOp => Cone(a.outside + b.outside, a.ands || b.ands, false)
    case NotOp => Cone(a.outside, a.ands, false)
  }

  /** The cones of a chunk's wires. */
  function ConesOf(gs: seq<Gate>): Open {
    if gs == [] then map[] else
    var before, g := ConesOf(gs[..|gs| - 1]), gs[|gs| - 1];
    before[g.out := ConeOf(before, g)]
  }

  lemma OneMoreCone(gs: seq<Gate>, g: Gate)
    ensures ConesOf(gs + [g]) == ConesOf(gs)[g.out := ConeOf(ConesOf(gs), g)]
  {
    assert (gs + [g])[..|gs|] == gs;
  }

  /** The closure of a keep list is the union of the closures of its members. */
  lemma {:induction false} NeededByOne(gs: seq<Gate>, keeps: seq<nat>, k: nat)
    requires k < |gs|
    ensures Needed(gs, keeps, k) <==> exists i | 0 <= i < |keeps| :: Needed(gs, [keeps[i]], k)
    decreases |gs| - k
  {
    if gs[k].out in keeps {
      var i :| 0 <= i < |keeps| && keeps[i] == gs[k].out;
      assert Needed(gs, [keeps[i]], k);
    } else {
      forall j | k < j < |gs|
        ensures Needed(gs, keeps, j) <==> exists i | 0 <= i < |keeps| :: Needed(gs, [keeps[i]], j)
      {
        NeededByOne(gs, keeps, j);
      }
      if Needed(gs, keeps, k) {
        var j :| k < j < |gs| && Needed(gs, keeps, j) && gs[j].Reads(gs[k].out);
        var i :| 0 <= i < |keeps| && Needed(gs, [keeps[i]], j);
        assert Needed(gs, [keeps[i]], k);
      }
      if i :| 0 <= i < |keeps| && Needed(gs, [keeps[i]], k) {
        var j :| k < j < |gs| && Needed(gs, [keeps[i]], j) && gs[j].Reads(gs[k].out);
        assert Needed(gs, keeps, j);
      }
    }
  }

  /** Only a wire of the chunk makes gates needed. */
  lemma {:induction false} NeededIsLocal(gs: seq<Gate>, w: nat, k: nat)
    requires k < |gs| && Needed(gs, [w], k)
    ensures Local(gs, w)
    decreases |gs| - k
  {
    if gs[k].out != w {
      var j :| k < j < |gs| && Needed(gs, [w], j) && gs[j].Reads(gs[k].out);
      NeededIsLocal(gs, w, j);
    }
  }

  /** One more gate: below it, what it reads is kept if it is. */
  lemma {:induction false} NeededBelow(gs: seq<Gate>, g: Gate, w: nat, k: nat)
    requires Chunk(gs + [g]) && k < |gs|
    ensures w != g.out ==> (Needed(gs + [g], [w], k) <==> Needed(gs, [w], k))
    ensures w == g.out ==> (Needed(gs + [g], [w], k) <==> Needed(gs, Operands(g), k))
    ensures Needed(gs + [g], [w], |gs|) <==> w == g.out
    decreases |gs| - k
  {
    hide ConstsUnique;
    var hs := gs + [g];
    assert hs[|gs|] == g && hs[k] == gs[k] && hs[k].out < g.out;
    forall j | k < j < |gs|
      ensures hs[j] == gs[j]
      ensures w != g.out ==> (Needed(hs, [w], j) <==> Needed(gs, [w], j))
      ensures w == g.out ==> (Needed(hs, [w], j) <==> Needed(gs, Operands(g), j))
    {
      NeededBelow(gs, g, w, j);
    }
    assert Needed(hs, [w], |gs|) <==> w == g.out;
    if Needed(hs, [w], k) && gs[k].out != w {
      var j :| k < j < |hs| && Needed(hs, [w], j) && hs[j].Reads(hs[k].out);
      if j < |gs| {
        assert gs[j].Reads(gs[k].out);
      }
    }
    if w != g.out && Needed(gs, [w], k) && gs[k].out != w {
      var j :| k < j < |gs| && Needed(gs, [w], j) && gs[j].Reads(gs[k].out);
      assert hs[j].Reads(hs[k].out);
    }
    if w == g.out && Needed(gs, Operands(g), k) {
      if gs[k].out in Operands(g) {
        assert hs[|gs|].Reads(hs[k].out);
      } else {
        var j :| k < j < |gs| && Needed(gs, Operands(g), j) && gs[j].Reads(gs[k].out);
        assert hs[j].Reads(hs[k].out);
      }
    }
  }

  /** What the cone of wire `w` should be, read off the planner's closure. */
  ghost predicate ConeRight(gs: seq<Gate>, w: nat, c: Cone) {
    && (forall v: nat :: v in c.outside <==> External(gs, [w], v))
    && (c.ands <==> exists k | 0 <= k < |gs| :: Needed(gs, [w], k) && gs[k].op == AndOp)
    && (c.isConst <==> exists k | 0 <= k < |gs| :: gs[k].out == w && gs[k].IsConst())
  }

  lemma OlderCone(gs: seq<Gate>, g: Gate, w: nat, c: Cone)
    requires Chunk(gs + [g]) && w != g.out && ConeRight(gs, w, c)
    ensures ConeRight(gs + [g], w, c)
  {
    hide ConstsUnique, Needed;
    var hs := gs + [g];
    assert forall k | 0 <= k < |gs| :: hs[k] == gs[k] && hs[k].out < hs[|gs|].out;
    forall k | 0 <= k < |gs|
      ensures Needed(hs, [w], k) <==> Needed(gs, [w], k)
      ensures !Needed(hs, [w], |gs|)
    {
      NeededBelow(gs, g, w, k);
    }
    LoneNotNeeded(gs, g, w);
    forall v: nat
      ensures External(hs, [w], v) <==> External(gs, [w], v)
    {
      LocalGrew(gs, g, v);
      if External(hs, [w], v) {
        var k :| 0 <= k < |hs| && Needed(hs, [w], k) && hs[k].Reads(v);
        assert gs[k].Reads(v);
      }
      if External(gs, [w], v) {
        var k :| 0 <= k < |gs| && Needed(gs, [w], k) && gs[k].Reads(v);
        assert hs[k].Reads(v);
      }
    }
    assert (exists k | 0 <= k < |hs| :: Needed(hs, [w], k) && hs[k].op == AndOp)
      <==> exists k | 0 <= k < |gs| :: Needed(gs, [w], k) && gs[k].op == AndOp;
  }

  lemma LoneNotNeeded(gs: seq<Gate>, g: Gate, w: nat)
    requires w != g.out
    ensures !Needed(gs + [g], [w], |gs|)
  {
  }

  lemma LocalGrew(gs: seq<Gate>, g: Gate, v: nat)
    ensures Local(gs + [g], v) <==> Local(gs, v) || v == g.out
  {
    if Local(gs, v) {
      var k :| 0 <= k < |gs| && gs[k].out == v;
      assert (gs + [g])[k].out == v;
    }
    assert (gs + [g])[|gs|] == g;
  }

  /** Following the operands `ops` back leads to `v`, outside the chunk. */
  ghost predicate LeadsTo(gs: seq<Gate>, ops: seq<nat>, v: nat) {
    !Local(gs, v) && (v in ops || exists k | 0 <= k < |gs| :: Needed(gs, ops, k) && gs[k].Reads(v))
  }

  /** Following them back meets an AND. */
  ghost predicate MeetsAnd(gs: seq<Gate>, ops: seq<nat>) {
    exists k | 0 <= k < |gs| :: Needed(gs, ops, k) && gs[k].op == AndOp
  }

  lemma OneOperand(gs: seq<Gate>, open: Open, o: nat)
    requires forall w: nat :: w in open <==> Local(gs, w)
    requires forall w | w in open :: ConeRight(gs, w, open[w])
    ensures forall v: nat :: v in ConeAt(open, o).outside <==> LeadsTo(gs, [o], v)
    ensures ConeAt(open, o).ands <==> MeetsAnd(gs, [o])
  {
    hide Needed;
    if o in open {
      assert ConeRight(gs, o, open[o]);
    } else {
      forall k | 0 <= k < |gs|
        ensures !Needed(gs, [o], k)
      {
        if Needed(gs, [o], k) {
          NeededIsLocal(gs, o, k);
        }
      }
    }
  }

  lemma TwoOperands(gs: seq<Gate>, a: nat, b: nat)
    ensures forall v :: LeadsTo(gs, [a, b], v) <==> LeadsTo(gs, [a], v) || LeadsTo(gs, [b], v)
    ensures MeetsAnd(gs, [a, b]) <==> MeetsAnd(gs, [a]) || MeetsAnd(gs, [b])
  {
    hide Needed, Local, Gate.Reads;
    var ops := [a, b];
    forall k | 0 <= k < |gs|
      ensures Needed(gs, ops, k) <==> Needed(gs, [a], k) || Needed(gs, [b], k)
    {
      NeededByOne(gs, ops, k);
      if Needed(gs, [a], k) {
        assert Needed(gs, [ops[0]], k);
      }
      if Needed(gs, [b], k) {
        assert Needed(gs, [ops[1]], k);
      }
    }
  }

  lemma NothingKept(gs: seq<Gate>)
    ensures !MeetsAnd(gs, []) && forall v :: !LeadsTo(gs, [], v)
  {
    hide Needed;
    forall k | 0 <= k < |gs|
      ensures !Needed(gs, [], k)
    {
      NeededByOne(gs, [], k);
    }
  }

  /** The cone of the newest gate, from those of its operands. */
  lemma OperandsCone(gs: seq<Gate>, g: Gate, open: Open)
    requires forall w: nat :: w in open <==> Local(gs, w)
    requires forall w | w in open :: ConeRight(gs, w, open[w])
    ensures forall v: nat :: v in ConeOf(open, g).outside <==> LeadsTo(gs, Operands(g), v)
    ensures ConeOf(open, g).ands <==> g.op == AndOp || MeetsAnd(gs, Operands(g))
  {
    hide LeadsTo, MeetsAnd, ConeRight, ConeAt, Local;
    OneOperand(gs, open, g.in0);
    OneOperand(gs, open, g.in1);
    TwoOperands(gs, g.in0, g.in1);
    NothingKept(gs);
  }

  lemma NewestCone(gs: seq<Gate>, g: Gate, open: Open)
    requires Chunk(gs + [g])
    requires forall w: nat :: w in open <==> Local(gs, w)
    requires forall w | w in open :: ConeRight(gs, w, open[w])
    ensures ConeRight(gs + [g], g.out, ConeOf(open, g))
  {
    hide ConstsUnique, Needed, ConeRight;
    OperandsCone(gs, g, open);
    var hs, c := gs + [g], ConeOf(open, g);
    assert forall k | 0 <= k < |gs| :: hs[k] == gs[k] && hs[k].out < hs[|gs|].out;
    forall k | 0 <= k < |gs|
      ensures Needed(hs, [g.out], k) <==> Needed(gs, Operands(g), k)
    {
      NeededBelow(gs, g, g.out, k);
    }
    assert Needed(hs, [g.out], |gs|) by { NewestNeeded(gs, g); }
    forall v: nat
      ensures v in c.outside <==> External(hs, [g.out], v)
    {
      LocalGrew(gs, g, v);
      if External(hs, [g.out], v) {
        var k :| 0 <= k < |hs| && Needed(hs, [g.out], k) && hs[k].Reads(v);
        if k < |gs| {
          assert gs[k].Reads(v);
        }
      }
      if v in c.outside {
        if g.Reads(v) {
          assert hs[|gs|].Reads(v);
        } else {
          var k :| 0 <= k < |gs| && Needed(gs, Operands(g), k) && gs[k].Reads(v);
          assert hs[k].Reads(v);
        }
      }
    }
    assert c.ands <==> exists k | 0 <= k < |hs| :: Needed(hs, [g.out], k) && hs[k].op == AndOp by {
      if k :| 0 <= k < |gs| && Needed(gs, Operands(g), k) && gs[k].op == AndOp {
        assert hs[k].op == AndOp;
      }
      if k :| 0 <= k < |hs| && Needed(hs, [g.out], k) && hs[k].op == AndOp {
        assert k < |gs| ==> gs[k].op == AndOp;
      }
    }
    assert c.isConst <==> exists k | 0 <= k < |hs| :: hs[k].out == g.out && hs[k].IsConst() by {
      assert hs[|gs|] == g;
    }
    ConeParts(hs, g.out, c);
  }

  lemma ConeParts(gs: seq<Gate>, w: nat, c: Cone)
    requires forall v: nat :: v in c.outside <==> External(gs, [w], v)
    requires c.ands <==> exists k | 0 <= k < |gs| :: Needed(gs, [w], k) && gs[k].op == AndOp
    requires c.isConst <==> exists k | 0 <= k < |gs| :: gs[k].out == w && gs[k].IsConst()
    ensures ConeRight(gs, w, c)
  {
  }

  lemma NewestNeeded(gs: seq<Gate>, g: Gate)
    ensures Needed(gs + [g], [g.out], |gs|)
  {
  }

  /** Forward and backward agree: the cones computed while recording are those of the planner's closure. */
  lemma {:induction false} ConesAreRight(gs: seq<Gate>)
    requires Chunk(gs)
    ensures forall w: nat :: w in ConesOf(gs) <==> Local(gs, w)
    ensures forall w | w in ConesOf(gs) :: ConeRight(gs, w, ConesOf(gs)[w])
  {
    hide ConstsUnique, Needed, ConeRight, ConeOf;
    if gs != [] {
      var before, g := gs[..|gs| - 1], gs[|gs| - 1];
      assert gs == before + [g];
      ShorterChunk(before, g);
      ConesAreRight(before);
      var open := ConesOf(before);
      NewestCone(before, g, open);
      forall w: nat
        ensures Local(gs, w) <==> Local(before, w) || w == g.out
        ensures w in open && w != g.out ==> ConeRight(gs, w, open[w])
      {
        LocalGrew(before, g, w);
        if w in open && w != g.out {
          OlderCone(before, g, w, open[w]);
        }
      }
    }
  }

  lemma ShorterChunk(gs: seq<Gate>, g: Gate)
    requires Chunk(gs + [g])
    ensures Chunk(gs)
  {
    var hs := gs + [g];
    assert forall k | 0 <= k < |gs| :: gs[k] == hs[k];
  }

  /** What a flush needs from outside, read off the cones of the kept wires. */
  lemma OutsideReads(gs: seq<Gate>, keeps: seq<nat>, v: nat)
    requires Chunk(gs)
    ensures External(gs, keeps, v) <==> exists i | 0 <= i < |keeps| :: keeps[i] in ConesOf(gs) && v in ConesOf(gs)[keeps[i]].outside
  {
    hide ConstsUnique, Needed, ConesOf, Chunk;
    ConesAreRight(gs);
    if External(gs, keeps, v) {
      var k :| 0 <= k < |gs| && Needed(gs, keeps, k) && gs[k].Reads(v);
      NeededByOne(gs, keeps, k);
      var i :| 0 <= i < |keeps| && Needed(gs, [keeps[i]], k);
      NeededIsLocal(gs, keeps[i], k);
      assert External(gs, [keeps[i]], v);
    }
    if i :| 0 <= i < |keeps| && keeps[i] in ConesOf(gs) && v in ConesOf(gs)[keeps[i]].outside {
      assert External(gs, [keeps[i]], v);
      var k :| 0 <= k < |gs| && Needed(gs, [keeps[i]], k) && gs[k].Reads(v);
      NeededByOne(gs, keeps, k);
    }
  }

  /** Whether a flush leaves the opened masks right, read off the cones of the kept wires. */
  lemma TravelsByCones(gs: seq<Gate>, keeps: seq<nat>)
    requires Chunk(gs)
    ensures FlushTravels(gs, keeps) <==>
      || (exists i | 0 <= i < |keeps| :: keeps[i] in ConesOf(gs) && ConesOf(gs)[keeps[i]].ands)
      || forall i | 0 <= i < |keeps| && keeps[i] in ConesOf(gs) :: ConesOf(gs)[keeps[i]].isConst
  {
    hide ConstsUnique, Needed, ConesOf;
    ConesAreRight(gs);
    assert (exists k | 0 <= k < |gs| :: Needed(gs, keeps, k) && gs[k].op == AndOp)
      <==> exists i | 0 <= i < |keeps| :: keeps[i] in ConesOf(gs) && ConesOf(gs)[keeps[i]].ands by {
      if k :| 0 <= k < |gs| && Needed(gs, keeps, k) && gs[k].op == AndOp {
        NeededByOne(gs, keeps, k);
        var i :| 0 <= i < |keeps| && Needed(gs, [keeps[i]], k);
        NeededIsLocal(gs, keeps[i], k);
      }
      if i :| 0 <= i < |keeps| && keeps[i] in ConesOf(gs) && ConesOf(gs)[keeps[i]].ands {
        var k :| 0 <= k < |gs| && Needed(gs, [keeps[i]], k) && gs[k].op == AndOp;
        NeededByOne(gs, keeps, k);
      }
    }
    KeptConstants(gs, keeps);
  }

  lemma KeptConstants(gs: seq<Gate>, keeps: seq<nat>)
    requires Chunk(gs)
    requires forall w: nat :: w in ConesOf(gs) <==> Local(gs, w)
    requires forall w | w in ConesOf(gs) :: ConeRight(gs, w, ConesOf(gs)[w])
    ensures (forall k | 0 <= k < |gs| && gs[k].out in keeps :: gs[k].IsConst())
      <==> forall i | 0 <= i < |keeps| && keeps[i] in ConesOf(gs) :: ConesOf(gs)[keeps[i]].isConst
  {
    hide ConstsUnique, Needed, ConesOf, External;
    forall k | 0 <= k < |gs|
      ensures gs[k].out in ConesOf(gs) && (ConesOf(gs)[gs[k].out].isConst <==> gs[k].IsConst())
    {
      assert Local(gs, gs[k].out);
      assert ConeRight(gs, gs[k].out, ConesOf(gs)[gs[k].out]);
      assert forall j | 0 <= j < |gs| && gs[j].out == gs[k].out :: j == k;
    }
    if forall k | 0 <= k < |gs| && gs[k].out in keeps :: gs[k].IsConst() {
      forall i | 0 <= i < |keeps| && keeps[i] in ConesOf(gs)
        ensures ConesOf(gs)[keeps[i]].isConst
      {
        var k :| 0 <= k < |gs| && gs[k].out == keeps[i];
      }
    }
    if forall i | 0 <= i < |keeps| && keeps[i] in ConesOf(gs) :: ConesOf(gs)[keeps[i]].isConst {
      forall k | 0 <= k < |gs| && gs[k].out in keeps
        ensures gs[k].IsConst()
      {
        var i :| 0 <= i < |keeps| && keeps[i] == gs[k].out;
      }
    }
  }
}
