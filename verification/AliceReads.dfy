/** What ALICE decodes right after an AND-free run: the exact condition, and the smallest run that misleads her. */
module AliceReads {
  import opened Shares
  import opened Circuits
  import opened Recordings
  import opened AndFreeRuns
  import opened SecureWireBundles
  import opened Buckets
  import opened TriplePools
  import opened Engines
  import opened Protocols

  /** One AND-free run over agreed inputs, then a decode to ALICE. Nothing fails, and she reads the plaintext outputs if and
      only if every output is an input or a constant, or a linear gate that sends the opened input masks to 0. */
  method RunAndDecode(q1: Protocol, q2: Protocol, in1: SecureWires, in2: SecureWires, calls: seq<Gate>, outs: seq<nat>,
                      seed: RunSeed, ghost x: seq<bool>)
    returns (y: seq<bool>)
    requires Linked(q1.pool, q2.pool) && Encode(in1, in2, q1.pool.delta, q2.pool.delta, x) && Synced(in1, in2)
    requires Body(|x|, calls, outs) && NumAnds(Stream(|x|, calls)) == 0
    modifies q1.pool, q2.pool
    ensures |in1.masks| == |x| && (y == Outputs(|x|, calls, x, outs) <==> OutputsComeOutRight(|x|, calls, outs, in1.masks))
  {
    hide Encode, Synced, Linked, Stream, NumAnds, OutIds, Outputs, OutputsComeOutRight, AliceDecodes, Canonical;
    hide GoodDeltas, Blinds;
    EncodedShapes(in1, in2, q1.pool.delta, q2.pool.delta, x);
    LinkedKeys(q1.pool, q2.pool);
    var ok, out1, out2, ands, g, e := RunSource(q1.pool, q2.pool, in1, in2, calls, outs, seed, x);
    ghost var z := Outputs(|x|, calls, x, outs);
    EncodedShapes(out1, out2, q1.pool.delta, q2.pool.delta, z);
    EncodedBlinds(out1, out2, q1.pool.delta, q2.pool.delta, z);
    var r := Decode(q1, q2, out1, out2, ALICE, AS_SENT, z);
    AgreedDecodes(out1, out2, z);
    y := r.bits1;
  }

  /** A lone NOT of one agreed input: ALICE reads the right value if and only if the input's opened mask is 1. */
  method DecodeLoneNot(q1: Protocol, q2: Protocol, in1: SecureWires, in2: SecureWires, seed: RunSeed, ghost x: bool)
    returns (y: seq<bool>)
    requires Linked(q1.pool, q2.pool) && Encode(in1, in2, q1.pool.delta, q2.pool.delta, [x]) && Synced(in1, in2)
    modifies q1.pool, q2.pool
    ensures |in1.masks| == 1 && (y == [!x] <==> in1.masks[0])
  {
    hide Encode, Synced, Linked, Stream, NumAnds, OutIds, Outputs, OutputsComeOutRight, Body;
    var calls := [Gate(0, 0, 1, NotOp)];
    LoneNotStream(in1.masks, x);
    EncodedShapes(in1, in2, q1.pool.delta, q2.pool.delta, [x]);
    y := RunAndDecode(q1, q2, in1, in2, calls, [1], seed, [x]);
  }

  lemma LoneNotStream(masks: seq<bool>, x: bool)
    ensures var calls := [Gate(0, 0, 1, NotOp)];
      && Body(1, calls, [1]) && NumAnds(Stream(1, calls)) == 0
      && Outputs(1, calls, [x], [1]) == [!x]
      && (|masks| == 1 ==> (OutputsComeOutRight(1, calls, [1], masks) <==> masks[0]))
  {
    var calls := [Gate(0, 0, 1, NotOp)];
    assert Ordered(1, calls);
    assert Record(1, calls, 0) == Recording([], [0], -1, -1);
    assert Record(1, calls, 1) == Record(1, calls, 0).Step(1, calls[0]);
    assert Stream(1, calls) == calls && OutIds(1, calls, [1]) == [1];
    assert AndsBefore(calls, 1) == AndsBefore(calls, 0) == 0;
    assert Plain(1, calls, [x], 1) == !x;
    if |masks| == 1 {
      assert Plain(1, calls, masks, [1][0]) == !masks[0];
      assert !InputOrConst(1, calls, [1][0]);
      assert OutIds(1, calls, [1])[0] == 1;
    }
  }
}
