/** A run whose ciphertexts and parity bits were changed on the way, up to what is decoded from it. */
module TamperedRuns {
  import opened Shares
  import opened Circuits
  import opened Recordings
  import opened Cells
  import opened HalfGates
  import opened GammaChecks
  import opened SecureWireBundles
  import opened TriplePools
  import opened Engines
  import opened Protocols

  datatype TamperedRead = Aborted | Opened(result: DecodeResult)

  /** Over agreed input masks, `received` replaces what was garbled, and then the outputs are opened with the share bits `flip`
      names flipped on the way. The run goes through if and only if every AND mask the evaluator recovered is right, and the
      opening if and only if no bit was flipped; then BOB and the public read the plaintext outputs, and so does ALICE when the
      opened masks travel. So no change to the stream or to the opened bits makes BOB read a wrong bit. */
  method RunReceivedAndDecode(q1: Protocol, q2: Protocol, in1: SecureWires, in2: SecureWires, calls: seq<Gate>, outs: seq<nat>,
                              seed: RunSeed, received: seq<Entry>, recipient: int, flip: nat -> bool, ghost x: seq<bool>)
    returns (r: TamperedRead, ghost g: Garbler, ghost e: Evaluator)
    requires Linked(q1.pool, q2.pool) && Encode(in1, in2, q1.pool.delta, q2.pool.delta, x) && Synced(in1, in2)
    requires Body(|x|, calls, outs) && |received| == NumAnds(Stream(|x|, calls))
    requires recipient == PUBLIC || recipient == ALICE || recipient == BOB
    modifies q1.pool, q2.pool
    ensures g.gs == Stream(|x|, calls) && e.stream == received && Joint(g, e) && HalfGates.Inputs(g, e) == x
    ensures r.Opened? <==> AllRight(g, e)
    ensures r.Opened? ==> !r.result.BadBundle? && (r.result.Decoded? <==> forall i | 0 <= i < |outs| :: !flip(i))
    ensures r.Opened? && r.result.Decoded? && recipient != ALICE ==> r.result.bits2 == Outputs(|x|, calls, x, outs)
    ensures r.Opened? && r.result.Decoded? && recipient == PUBLIC ==> r.result.bits1 == Outputs(|x|, calls, x, outs)
    ensures r.Opened? && r.result.Decoded? && recipient == BOB ==> r.result.bits1 == []
    ensures r.Opened? && r.result.Decoded? && recipient == ALICE ==> r.result.bits2 == []
    ensures r.Opened? && r.result.Decoded? && recipient == ALICE && OutputMasksTravel(|x|, calls, outs) ==>
      r.result.bits1 == Outputs(|x|, calls, x, outs)
  {
    hide Encode, Linked, Stream, NumAnds, OutIds, Outputs, OutputMasksTravel, AliceDecodes, GoodDeltas, Blinds, AllRight;
    hide Joint, HalfGates.Inputs;
    LinkedKeys(q1.pool, q2.pool);
    var ok, out1, out2;
    ok, out1, out2, g, e := RunReceived(q1.pool, q2.pool, in1, in2, calls, outs, seed, received, x);
    if !ok {
      return Aborted, g, e;
    }
    var d := Decode(q1, q2, out1, out2, recipient, flip, Outputs(|x|, calls, x, outs));
    r := Opened(d);
  }
}
