/** The smallest honest session that aborts: reveal a lone NOT, then use the revealed wire in an AND. */
module HonestAborts {
  import opened Blocks
  import opened Shares
  import opened Circuits
  import opened TriplePools
  import opened Engines
  import opened Options
  import opened Protocols
  import opened FlushPlans
  import opened Flushes
  import opened FlushMasks
  import opened Recorders
  import opened CarriedStates
  import opened Sessions

  /** Reveal a lone NOT to BOB. It never fails, BOB reads the right bit, and the parties then disagree on the new wire's opened
      mask exactly when the operand's is 0. */
  method RevealNot(s: Session, a: nat, seed: RunSeed) returns (n: nat, notA: Option<seq<bool>>)
    requires s.Valid() && s.ctx.chunk == [] && s.ctx.nextId < UINT32_MAX && a in s.carried1
    modifies s, s.ctx, s.q1.pool, s.q2.pool
    ensures s.Valid() && s.ctx.chunk == [] && s.ctx.nextId == old(s.ctx.nextId) + 1
    ensures a < old(|s.vals|) && notA == Some([!old(s.vals)[a]])
    ensures n in s.carried1 && DiffersAt(s.carried1, s.carried2, n) == !MaskAt(old(s.carried2), a)
    ensures forall id | id in old(s.carried1) ::
      && id in s.carried1 && MaskAt(s.carried1, id) == MaskAt(old(s.carried1), id)
      && BundleAt(s.carried1, id) == BundleAt(old(s.carried1), id) && MaskAt(s.carried2, id) == MaskAt(old(s.carried2), id)
  {
    hide View.Ok, View.Stale, Linked, FlushPasses, FreshMasks, FlushOff, Misread, FlushAnds, ValuesAt, Flushable, Flushed;
    hide RecorderOk;
    ghost var d1, d2, lg := s.q1.pool.delta, s.q2.pool.delta, FreshMasks(s.q1.pool.cot, s.q1.pool.drawn);
    RecorderPart(s.Now(), d1, d2);
    CarriedBelow(s.Now(), d1, d2);
    var st, out1;
    st, n := s.NotGate(a);
    ghost var v := s.Now();
    LoneGate(v, Gate(a, 0, n, NotOp), lg);
    assert [n] + [] == [n];
    st, out1, notA := s.Reveal([n], BOB, [], seed);
    LoneGateFlushed(v, n, s.Now(), d1, d2);
    OneValue(s.vals, n);
  }

  lemma OneValue(vals: seq<bool>, n: nat)
    requires n < |vals|
    ensures ValuesAt(vals, [n]) == [vals[n]] && Learned(ValuesAt(vals, [n]), 1) == Some([vals[n]])
  {
  }

  lemma LoneGateFlushed(v: View, n: nat, after: View, d1: Block, d2: Block)
    requires v.Ok(d1, d2) && n in v.pending && Flushed(v, [n], after)
    ensures after.chunk == [] && after.nextId == v.nextId && after.vals == v.vals && n in after.carried1
    ensures DiffersAt(after.carried1, after.carried2, n) == FlushOff(v, [n], n)
    ensures forall id | id in v.carried1 ::
      && id in after.carried1 && MaskAt(after.carried1, id) == MaskAt(v.carried1, id)
      && BundleAt(after.carried1, id) == BundleAt(v.carried1, id) && MaskAt(after.carried2, id) == MaskAt(v.carried2, id)
  {
    hide RecorderOk, Explains, StateOk, FlushOff;
    forall id | id in v.carried1
      ensures id in v.carried2 && id !in v.pending
    {
      assert id in v.carried1.Keys;
    }
  }

  /** NOT of an agreed input, revealed to BOB, then an AND of that wire with another agreed input. The first reveal is right.
      The second fails the c_gamma check, although both parties are honest, if and only if the first input's opened mask is 0
      and the garbler's MAC of the second input is not zero. */
  method NotThenAnd(s: Session, a: nat, b: nat, seed: RunSeed) returns (st: Status, notA: Option<seq<bool>>)
    requires s.Valid() && s.ctx.chunk == [] && s.ctx.nextId + 2 <= UINT32_MAX
    requires a in s.carried1 && b in s.carried1
    requires !DiffersAt(s.carried1, s.carried2, a) && !DiffersAt(s.carried1, s.carried2, b)
    modifies s, s.ctx, s.q1.pool, s.q2.pool
    ensures a < old(|s.vals|) && notA == Some([!old(s.vals)[a]])
    ensures st.Done? || st.CheckFailed?
    ensures st.CheckFailed? <==> !MaskAt(old(s.carried1), a) && BundleAt(old(s.carried1), b).mac != ZERO
  {
    hide View.Ok, View.Stale, Linked, FlushPasses, FreshMasks, FlushOff, Misread, FlushAnds, ValuesAt, Flushable, Flushed;
    hide RecorderOk, MaskAt, BundleAt;
    var n, t;
    n, notA := RevealNot(s, a, seed);
    RecorderPart(s.Now(), s.q1.pool.delta, s.q2.pool.delta);
    CarriedBelow(s.Now(), s.q1.pool.delta, s.q2.pool.delta);
    st, t := s.BinaryGate(n, b, AndOp);
    ghost var u := s.Now();
    LoneGate(u, Gate(n, b, t, AndOp), FreshMasks(s.q1.pool.cot, s.q1.pool.drawn));
    assert [t] + [] == [t];
    var out1, out2;
    st, out1, out2 := s.Reveal([t], BOB, [], seed);
  }

  /** A chunk of one kept gate over carried operands. */
  lemma LoneGate(v: View, g: Gate, lg: nat -> Share)
    requires v.chunk == [g] && g.out in v.pending && (g.op == AndOp || g.op == NotOp)
    requires g.in0 in v.carried1 && g.in0 != g.out && (g.op == AndOp ==> g.in1 in v.carried1 && g.in1 != g.out)
    ensures Flushable(v, [g.out])
    ensures g.op == AndOp ==> (FlushPasses(v, [g.out], lg) <==>
      Sel(DiffersAt(v.carried1, v.carried2, g.in0), BundleAt(v.carried1, g.in1).mac)
      == Sel(DiffersAt(v.carried1, v.carried2, g.in1), BundleAt(v.carried1, g.in0).mac))
    ensures g.op == NotOp ==> FlushPasses(v, [g.out], lg) && (FlushOff(v, [g.out], g.out) <==> !MaskAt(v.carried2, g.in0))
  {
    hide Needed, NeededAnds, ChunkOffsets, ChunkShares, ChunkValues, Sel, MaskAt, BundleAt;
    LoneGateNeeded(g);
    LoneGateRuns(g, Differing(v.carried1, v.carried2), Bundles(v.carried1), Masks(v.carried2), lg);
    assert AnyPending(v, [g.out]) by {
      assert [g.out][0] in v.pending;
    }
    assert v.chunk[0] == g;
  }

  lemma LoneGateNeeded(g: Gate)
    ensures Needed([g], [g.out], 0) && NeededAnds([g], [g.out], 1) == (if g.op == AndOp then 1 else 0)
  {
    assert NeededAnds([g], [g.out], 0) == 0;
  }

  lemma LoneGateRuns(g: Gate, offs: nat -> bool, sh: nat -> Share, masks: nat -> bool, lg: nat -> Share)
    ensures forall w: nat | w != g.out :: ChunkOffsets([g], offs, 1)(w) == offs(w) && ChunkShares([g], [g.out], sh, lg, 1)(w) == sh(w)
    ensures ChunkValues([g], masks, 1)(g.out) == GateValue(g, masks)
  {
    assert ChunkOffsets([g], offs, 0) == offs && ChunkShares([g], [g.out], sh, lg, 0) == sh && ChunkValues([g], masks, 0) == masks;
  }
}
