/** The smallest session that opens a secret before the COT consistency check has run over it. */
module RawReveals {
  import opened Blocks
  import opened TriplePools
  import opened Engines
  import opened Options
  import opened Protocols
  import opened FlushPlans
  import opened Recorders
  import opened CarriedStates
  import opened Sessions

  /** Input, then reveal: at least one bit of ALICE's is authenticated and opened at once. No call fails, BOB and the public get
      the right bits, and both parties still hold correlations that no check has seen. */
  method RevealRawInput(s: Session, bits1: seq<bool>, bits2: seq<bool>, recipient: int, prg: nat -> Block, seed: RunSeed)
    returns (st: Status, out1: Option<seq<bool>>, out2: Option<seq<bool>>)
    requires s.Valid() && bits1 != [] && |bits1| == |bits2| && s.ctx.nextId + |bits1| <= UINT32_MAX
    requires recipient == PUBLIC || recipient == ALICE || recipient == BOB
    modifies s, s.ctx, s.q1, s.q2, s.q1.pool, s.q2.pool
    ensures st.Done? && s.q1.pool.mintedSinceCheck && s.q2.pool.mintedSinceCheck && !s.Checked()
    ensures out2 == if recipient == ALICE then None else Some(bits1)
  {
    hide View.Ok, View.Stale, Linked, FlushPasses, FreshMasks, FlushOff, Misread, FlushAnds, ValuesAt, External, OnlyAgreedAdded, Holds, IsInput;
    ghost var before := s.Now();
    AllBelow(before, s.q1.pool.delta, s.q2.pool.delta);
    RecorderPart(before, s.q1.pool.delta, s.q2.pool.delta);
    var ids;
    st, ids := s.Input(ALICE, bits1, bits2, prg);
    FreshValues(before.vals, bits1, ids);
    NothingOpen(s.Now(), ids);
    assert ids + [] == ids;
    st, out1, out2 := s.Reveal(ids, recipient, [], seed);
  }

  /** Keeping only carried wires flushes nothing and cannot fail. */
  lemma NothingOpen(v: View, ids: seq<nat>)
    requires forall i | 0 <= i < |ids| :: ids[i] !in v.pending && ids[i] in v.carried1
    ensures !AnyPending(v, ids) && Flushable(v, ids) && forall lg :: FlushPasses(v, ids, lg)
  {
    hide External;
  }
}
