/** Running the garbler's pass to its end and the evaluator's pass after it is one schedule of the four threads. */
module SequentialRuns {
  import opened Blocks
  import opened Shares
  import opened Circuits
  import opened Recordings
  import opened Cells
  import opened RunStates
  import opened Framing
  import opened SecureWireBundles
  import opened Engines
  import opened Streams

  /** Taking `moves` from `t`, each enabled and safe when its turn comes, ends in `u`. */
  ghost predicate Schedule(es: seq<Entry>, t: Threads, moves: seq<Move>, u: Threads)
    decreases |moves|
  {
    if moves == [] then u == t
    else Enabled(es, t, moves[0]) && Safe(es, t, moves[0]) && Schedule(es, Step(es, t, moves[0]), moves[1..], u)
  }

  lemma {:induction false} ScheduleGrows(es: seq<Entry>, t: Threads, moves: seq<Move>, u: Threads, m: Move)
    requires Schedule(es, t, moves, u) && Enabled(es, u, m) && Safe(es, u, m)
    ensures Schedule(es, t, moves + [m], Step(es, u, m))
    decreases |moves|
  {
    hide Enabled, Safe, Step;
    if moves == [] {
      assert [m][1..] == [] && ([] + [m])[0] == m;
    } else {
      ScheduleGrows(es, Step(es, t, moves[0]), moves[1..], u, m);
      assert (moves + [m])[1..] == moves[1..] + [m];
    }
  }

  /** The receiver and the evaluator have not moved. */
  predicate ReadersIdle(t: Threads) {
    t.recvBase == 0 && t.receiver == ReceiverIdle && t.pipe2 == [] && !t.closed2 && t.usedBase == 0
    && t.evaluator == NeedChunk && t.used == []
  }

  lemma SendersLeaveReaders(es: seq<Entry>, t: Threads, m: Move)
    requires ReadersIdle(t) && (m == Garble || m == Send) && Enabled(es, t, m) && Safe(es, t, m)
    ensures ReadersIdle(Step(es, t, m))
  {
    if m == Garble {
      GarbleFrame(es, t);
    } else {
      SendFrame(es, t);
    }
    hide Enabled, Safe, GarbleStep, SendStep;
  }

  lemma ReadersLeaveSenders(es: seq<Entry>, t: Threads, m: Move)
    requires (m == Receive || m == Evaluate) && Enabled(es, t, m) && Safe(es, t, m)
    ensures Step(es, t, m).garbler == t.garbler && Step(es, t, m).sender == t.sender
  {
  }

  /** Everything is on the wire once the senders are done and nothing was read. */
  lemma WholeStreamOnWire(es: seq<Entry>, t: Threads)
    requires Inv(es, t) && t.garbler.GarblerDone? && t.sender.SenderDone? && ReadersIdle(t)
    ensures t.wire == Framed(es)
  {
    hide Framed, GarblerOk, ReceiverOk, EvaluatorOk, Boundary;
    AllSent(es, t);
  }

  /** The garbler and the sender alone run to their ends, and leave the whole framed stream on the wire. */
  lemma SendersFirst(es: seq<Entry>) returns (t: Threads, moves: seq<Move>)
    ensures Schedule(es, START, moves, t) && Inv(es, t) && forall m | m in moves :: m == Garble || m == Send
    ensures t.garbler.GarblerDone? && t.sender.SenderDone? && ReadersIdle(t)
    ensures t.wire == Framed(es)
  {
    hide Inv, Enabled, Safe, Step, StepsLeft, Schedule, ReadersIdle, Framed;
    t, moves := START, [];
    StartOk(es);
    while !t.garbler.GarblerDone? || !t.sender.SenderDone?
      invariant Schedule(es, START, moves, t) && Inv(es, t) && StepsLeft(es, t) >= 0 && ReadersIdle(t)
      invariant forall m | m in moves :: m == Garble || m == Send
      decreases StepsLeft(es, t)
    {
      if !Enabled(es, t, Garble) && !Enabled(es, t, Send) {
        SendersMove(es, t);
      }
      var m := if Enabled(es, t, Garble) then Garble else Send;
      Advance(es, t, moves, m);
      SendersLeaveReaders(es, t, m);
      t, moves := Step(es, t, m), moves + [m];
    }
    WholeStreamOnWire(es, t);
  }

  lemma StartOk(es: seq<Entry>)
    ensures Schedule(es, START, [], START) && Inv(es, START) && StepsLeft(es, START) >= 0 && ReadersIdle(START)
  {
    hide Inv, StepsLeft;
    StartsOk(es);
    LeftIsNat(es, START);
  }

  lemma Advance(es: seq<Entry>, t: Threads, moves: seq<Move>, m: Move)
    requires Schedule(es, START, moves, t) && Inv(es, t) && Enabled(es, t, m)
    ensures Safe(es, t, m) && Schedule(es, START, moves + [m], Step(es, t, m)) && Inv(es, Step(es, t, m))
    ensures 0 <= StepsLeft(es, Step(es, t, m)) < StepsLeft(es, t)
  {
    hide Inv, Enabled, Safe, Step, StepsLeft, Schedule;
    StepKeeps(es, t, m);
    StepDecreases(es, t, m);
    LeftIsNat(es, Step(es, t, m));
    ScheduleGrows(es, START, moves, t, m);
  }

  /** From there the receiver and the evaluator alone run to their ends, and AND `i` reads entry `i`. */
  lemma ReadersAfter(es: seq<Entry>, t: Threads, first: seq<Move>) returns (u: Threads, moves: seq<Move>)
    requires Schedule(es, START, first, t) && Inv(es, t) && t.garbler.GarblerDone? && t.sender.SenderDone?
    ensures Schedule(es, START, first + moves, u) && AllDone(u) && forall m | m in moves :: m == Receive || m == Evaluate
    ensures u.used == es
  {
    hide Inv, Enabled, Safe, Step, StepsLeft, Schedule;
    u, moves := t, [];
    LeftIsNat(es, t);
    assert first + [] == first;
    while !AllDone(u)
      invariant Schedule(es, START, first + moves, u) && Inv(es, u) && StepsLeft(es, u) >= 0
      invariant u.garbler.GarblerDone? && u.sender.SenderDone?
      invariant forall m | m in moves :: m == Receive || m == Evaluate
      decreases StepsLeft(es, u)
    {
      ReadersMove(es, u);
      var m := if Enabled(es, u, Receive) then Receive else Evaluate;
      Advance(es, u, first + moves, m);
      ReadersLeaveSenders(es, u, m);
      assert first + moves + [m] == first + (moves + [m]);
      u, moves := Step(es, u, m), moves + [m];
    }
    DoneDelivers(es, u);
  }

  /** The two passes in order: what the garbler's pass ships is the wire at the end of a schedule of the garbler and the sender
      alone, and the entries the evaluator's pass is run over are those that the rest of that schedule delivers. */
  method PassesAreASchedule(st1: RunState, st2: RunState, in1: SecureWires, in2: SecureWires, calls: seq<Gate>, ghost ids: seq<nat>,
                            ghost lg1: nat -> Share, ghost lg2: nat -> Share, sigma1: seq<Share>, sigma2: seq<Share>, h: TweakedHash,
                            ghost g: Garbler, ghost e: Evaluator)
    returns (items: seq<Item>, ghost first: seq<Move>, ghost t: Threads, ghost rest: seq<Move>, ghost u: Threads)
    requires st1 != st2 && st1.party == 1 && st2.party == 2 && st1.numInputs == st2.numInputs
    requires Ordered(st1.numInputs, calls) && in1.WellShaped(1) && in2.WellShaped(2)
    requires Prepared(st1, in1, Stream(st1.numInputs, calls), ids, lg1) && Prepared(st2, in2, Stream(st1.numInputs, calls), ids, lg2)
    requires |sigma1| == |sigma2| == NumAnds(Stream(st1.numInputs, calls))
    requires g == GarblerOf(st1.numInputs, Stream(st1.numInputs, calls), in1, lg1, sigma1, st1.delta, h) && g.Ok()
    requires e == Evaluator(st2.numInputs, Stream(st1.numInputs, calls), in2.bundle, in2.evalLabel, in2.masks, lg2, sigma2,
                            st2.delta, h, g.Entries(|g.gs|))
    modifies st1, st2
    ensures Engines.GarblerDone(st1, in1, ids, g) && Engines.EvaluatorDone(st2, ids, e)
    ensures Schedule(e.stream, START, first, t) && (forall m | m in first :: m == Garble || m == Send) && items == t.wire
    ensures Schedule(e.stream, START, first + rest, u) && (forall m | m in rest :: m == Receive || m == Evaluate)
    ensures AllDone(u) && u.used == e.stream
  {
    hide Prepared, Stream, Ordered, ConstsUnique, NumAnds, Engines.GarblerDone, Engines.EvaluatorDone, Framed;
    hide Garbler.Entries, Inv, Schedule, ReadersIdle, AllDone;
    EntriesCount(g);
    items := GarblerPhase(st1, in1, calls, ids, lg1, sigma1, h, g);
    EvaluatorPhase(st2, in2, calls, ids, lg2, sigma2, h, items, e);
    t, first := SendersFirst(e.stream);
    u, rest := ReadersAfter(e.stream, t, first);
  }

  lemma EntriesCount(g: Garbler)
    requires g.Ok()
    ensures |g.Entries(|g.gs|)| == NumAnds(g.gs)
  {
  }
}
