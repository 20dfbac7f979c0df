/** Runs over inputs whose opened masks the two parties do not agree on.

    An AND-free run can leave the garbler with other opened masks than the evaluator (AndFreeRuns). This module follows
    such a difference through a later run: linear gates pass it on, and constants and ANDs drop it, since both parties
    take an AND's mask from the evaluator (engine.h, garbler_path_). */
module MaskOffsets {
  import opened Blocks
  import opened Shares
  import opened Circuits
  import opened Cells
  import opened AndFreeRuns

  /** Where two mask vectors differ. */
  function Differences(m1: seq<bool>, m2: seq<bool>): (r: seq<bool>)
    requires |m1| == |m2|
    ensures |r| == |m1|
  {
    seq(|m1|, i requires 0 <= i < |m1| => m1[i] != m2[i])
  }

  /** Do the parties' masks of wire `w` differ once the AND masks were exchanged, if their input masks differ at `offs`? */
  predicate Offset(n: nat, gs: seq<Gate>, offs: seq<bool>, w: nat)
    requires Ordered(n, gs) && |offs| == n && w < n + |gs|
    decreases w
  {
    if w < n then offs[w] else
    var g := gs[w - n];
    match g.op
    case XorOp => Offset(n, gs, offs, g.in0) != Offset(n, gs, offs, g.in1)
    case NotOp => Offset(n, gs, offs, g.in0)
    case _ => false
  }

  /** At every AND, the garbler's MACs of the operands hide what the differences do to its witness: a difference at one
      operand selects the MAC of the other. */
  ghost predicate Undisturbed(n: nat, gs: seq<Gate>, offs: seq<bool>, ins: seq<Share>, lg: nat -> Share)
    requires Ordered(n, gs) && |offs| == |ins| == n
  {
    forall k | 0 <= k < |gs| && gs[k].op == AndOp :: UndisturbedAt(n, gs, offs, ins, lg, k)
  }

  ghost predicate UndisturbedAt(n: nat, gs: seq<Gate>, offs: seq<bool>, ins: seq<Share>, lg: nat -> Share, k: nat)
    requires Ordered(n, gs) && |offs| == |ins| == n && k < |gs| && gs[k].op == AndOp
  {
    Sel(Offset(n, gs, offs, gs[k].in0), ShareOf(n, gs, ins, lg, gs[k].in1).mac)
      == Sel(Offset(n, gs, offs, gs[k].in1), ShareOf(n, gs, ins, lg, gs[k].in0).mac)
  }

  /** Agreed inputs never differ anywhere. */
  lemma {:induction false} AgreedStaysAgreed(n: nat, gs: seq<Gate>, offs: seq<bool>, w: nat)
    requires Ordered(n, gs) && |offs| == n && w < n + |gs| && forall i | 0 <= i < n :: !offs[i]
    ensures !Offset(n, gs, offs, w)
    decreases w
  {
    if w >= n && !gs[w - n].IsConst() {
      AgreedStaysAgreed(n, gs, offs, gs[w - n].in0);
      if gs[w - n].op != NotOp {
        AgreedStaysAgreed(n, gs, offs, gs[w - n].in1);
      }
    }
  }

  /** Does argument `i` reach wire `w` through XOR and NOT gates only? */
  predicate Feeds(n: nat, gs: seq<Gate>, i: nat, w: nat)
    requires Ordered(n, gs) && w < n + |gs|
    decreases w
  {
    if w < n then w == i else
    var g := gs[w - n];
    match g.op
    case XorOp => Feeds(n, gs, i, g.in0) || Feeds(n, gs, i, g.in1)
    case NotOp => Feeds(n, gs, i, g.in0)
    case _ => false
  }

  /** A difference comes from an argument that reaches the wire linearly. */
  lemma {:induction false} OffsetHasSource(n: nat, gs: seq<Gate>, offs: seq<bool>, w: nat) returns (i: nat)
    requires Ordered(n, gs) && |offs| == n && w < n + |gs| && Offset(n, gs, offs, w)
    ensures i < n && offs[i] && Feeds(n, gs, i, w)
    decreases w
  {
    if w < n {
      i := w;
    } else {
      var g := gs[w - n];
      if g.op == NotOp || Offset(n, gs, offs, g.in0) {
        i := OffsetHasSource(n, gs, offs, g.in0);
      } else {
        i := OffsetHasSource(n, gs, offs, g.in1);
      }
    }
  }

  /** Argument `i` feeds no AND. */
  ghost predicate FeedsNoAnd(n: nat, gs: seq<Gate>, i: nat)
    requires Ordered(n, gs)
  {
    forall k | 0 <= k < |gs| && gs[k].op == AndOp :: !Feeds(n, gs, i, gs[k].in0) && !Feeds(n, gs, i, gs[k].in1)
  }

  /** The condition a caller can check argument by argument: an argument is safe if the parties agree on its mask or no AND
      reads it through linear gates. Over safe arguments nothing is disturbed, whatever the shares. */
  lemma SafeArgumentsDoNotDisturb(n: nat, gs: seq<Gate>, offs: seq<bool>, ins: seq<Share>, lg: nat -> Share)
    requires Ordered(n, gs) && |offs| == |ins| == n && forall i | 0 <= i < n :: offs[i] ==> FeedsNoAnd(n, gs, i)
    ensures Undisturbed(n, gs, offs, ins, lg)
  {
    hide Offset, Feeds, ShareOf;
    forall k | 0 <= k < |gs| && gs[k].op == AndOp
      ensures UndisturbedAt(n, gs, offs, ins, lg, k)
    {
      if Offset(n, gs, offs, gs[k].in0) {
        var i := OffsetHasSource(n, gs, offs, gs[k].in0);
        assert false;
      }
      if Offset(n, gs, offs, gs[k].in1) {
        var i := OffsetHasSource(n, gs, offs, gs[k].in1);
        assert false;
      }
    }
  }

  /** At one AND: with a difference at just one operand, all depends on the other operand's MAC; with differences at both,
      on whether the two MACs are equal. */
  lemma DisturbedIff(n: nat, gs: seq<Gate>, offs: seq<bool>, ins: seq<Share>, lg: nat -> Share, k: nat)
    requires Ordered(n, gs) && |offs| == |ins| == n && k < |gs| && gs[k].op == AndOp
    ensures var o0, o1 := Offset(n, gs, offs, gs[k].in0), Offset(n, gs, offs, gs[k].in1);
      var m0, m1 := ShareOf(n, gs, ins, lg, gs[k].in0).mac, ShareOf(n, gs, ins, lg, gs[k].in1).mac;
      UndisturbedAt(n, gs, offs, ins, lg, k) <==> (o0 && o1 ==> m0 == m1) && (o0 && !o1 ==> m1 == ZERO) && (!o0 && o1 ==> m0 == ZERO)
  {
    hide Offset, ShareOf;
  }

  /** How the parties' masks of output `w` differ after a run: with an AND, the difference that reached it; without one, the
      garbler keeps what slot assignment wrote while the evaluator computes the circuit. */
  predicate OutputOff(n: nat, gs: seq<Gate>, m1: seq<bool>, m2: seq<bool>, w: nat)
    requires Ordered(n, gs) && |m1| == |m2| == n && w < n + |gs|
  {
    if NumAnds(gs) > 0 then Offset(n, gs, Differences(m1, m2), w)
    else InitialMask(n, gs, m1, w) != Plain(n, gs, m2, w)
  }

  /** From agreed inputs: with an AND the outputs agree; without one, exactly the inputs, the constants, and the linear gates
      that send the input masks to 0. */
  lemma AgreedOutputOff(n: nat, gs: seq<Gate>, m: seq<bool>, w: nat)
    requires Ordered(n, gs) && |m| == n && w < n + |gs|
    ensures OutputOff(n, gs, m, m, w) <==> NumAnds(gs) == 0 && !InputOrConst(n, gs, w) && Plain(n, gs, m, w)
  {
    hide NumAnds;
    AgreedStaysAgreed(n, gs, Differences(m, m), w);
  }
}
