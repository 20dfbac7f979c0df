/** Pass 2 at the evaluator: consume the garbled chunks, derive labels and opened masks, and build the c_gamma witness
    (AG2PCEvaluatePass). */
module EvaluatePasses {
  import opened Blocks
  import opened Shares
  import opened Circuits
  import opened Recordings
  import opened Cells
  import opened RunStates
  import opened Framing
  import opened GarblePasses

  lemma NothingEvaluated(e: Evaluator)
    requires e.Ok()
    ensures e.AndMasks(0) == [] && e.Witnesses(0) == [] && AndsBefore(e.gs, 0) == 0 && |e.stream| == NumAnds(e.gs)
    ensures Cached(e.n, e.gs, 0, -1, Const0) && Cached(e.n, e.gs, 0, -1, Const1)
  {
    hide Evaluator.Cell;
  }

  class EvaluatePass {
    const s: RunState
    var wid: nat
    var ai: nat
    var c0: int
    var c1: int
    /** The pipe's two staging slots, and how many chunks and entries the receiver has put into them. */
    var slots: seq<Chunk>
    var received: nat
    var recvBase: nat
    /** Position of the next entry in the chunk being consumed, which is chunk `received - 1` once there is one. */
    var loc: nat
    /** What the garbler put on the wire. */
    const incoming: seq<Item>
    ghost const outs: seq<nat>
    ghost const ref: Evaluator

    ghost predicate PlanOk()
      reads s`phys, s`numSlots, s`sigma, s`h, s`numAnds
    {
      && ref.Ok() && Canonical(ref.n, ref.gs)
      && ref.n == s.numInputs && ref.delta == s.delta && ref.h == s.h && ref.sigma == s.sigma
      && s.numAnds == NumAnds(ref.gs) && incoming == Framed(ref.stream)
      && |s.phys| == ref.n + |ref.gs| && Allocated(ref.n, ref.gs, outs, s.phys, s.numSlots)
    }

    ghost predicate CountersOk(k: nat)
      reads `ai, `c0, `c1, s`tweak
    {
      && k <= |ref.gs|
      && ai == s.tweak == AndsBefore(ref.gs, k)
      && Cached(ref.n, ref.gs, k, c0, Const0) && Cached(ref.n, ref.gs, k, c1, Const1)
    }

    ghost predicate SlotsOk(k: nat)
      reads s`phys, s`numSlots, s`wireSlot, s`evalSlot, s`maskInput
    {
      && ref.Ok() && k <= |ref.gs| && |s.phys| == ref.n + |ref.gs|
      && |s.wireSlot| == |s.evalSlot| == |s.maskInput| == s.numSlots
      && SharesReady(ref.n, ref.gs, s.wireSlot, s.phys, ref.n + k, Shares())
      && SlotsHold(s.evalSlot, s.phys, ref.n + k, ref.AllLabels())
      && SlotsHold(s.maskInput, s.phys, ref.n + k, ref.AllMasks())
    }

    /** The masks and witnesses of the ANDs evaluated so far are recorded. */
    ghost predicate WitnessOk(k: nat)
      reads s`lambdaAnd, s`m1t
    {
      && ref.Ok() && k <= |ref.gs|
      && |s.lambdaAnd| >= NumAnds(ref.gs) && |s.m1t| >= NumAnds(ref.gs)
      && ref.AndMasks(k) <= s.lambdaAnd
      && ref.Witnesses(k) <= s.m1t
    }

    /** The chunk in hand is the one framed at its first entry, and `taken` entries have been consumed in all. */
    ghost predicate StreamOk(taken: nat)
      reads `slots, `received, `recvBase, `loc
    {
      && |slots| == 2
      && |slots[0].g| == |slots[1].g| == 2 * Capacity(|ref.stream|) && |slots[0].b| == |slots[1].b| == Capacity(|ref.stream|)
      && (received == 0 ==> recvBase == loc == taken == 0)
      && (received > 0 ==>
            && 0 < Cur().n <= recvBase <= |ref.stream| && (recvBase - Cur().n) % BATCH == 0
            && Cur().n <= Capacity(|ref.stream|)
            && (recvBase < |ref.stream| ==> Cur().n == BATCH)
            && loc <= Cur().n && taken == recvBase - Cur().n + loc
            && Cur().Filled() == ref.stream[recvBase - Cur().n..recvBase])
    }

    function Cur(): Chunk
      requires |slots| == 2 && received > 0
      reads `slots, `received
    {
      slots[(received - 1) % 2]
    }

    ghost function Shares(): (sh: seq<Share>)
      requires ref.Ok()
      ensures |sh| == ref.n + |ref.gs|
    {
      AllShares(ref.n, ref.gs, ref.shares, ref.lg)
    }

    ghost predicate Valid()
      reads this, s
    {
      && PlanOk() && ref.n <= wid <= ref.n + |ref.gs|
      && CountersOk(wid - ref.n) && SlotsOk(wid - ref.n) && WitnessOk(wid - ref.n) && StreamOk(ai)
    }

    constructor (s: RunState, incoming: seq<Item>, ghost outs: seq<nat>, ghost ref: Evaluator)
      requires ref.Ok() && Canonical(ref.n, ref.gs) && incoming == Framed(ref.stream)
      requires ref.n == s.numInputs && ref.delta == s.delta && ref.h == s.h && ref.sigma == s.sigma && s.tweak == 0
      requires s.numAnds == NumAnds(ref.gs) <= |s.lambdaAnd| && s.numAnds <= |s.m1t|
      requires |s.phys| == ref.n + |ref.gs| && Allocated(ref.n, ref.gs, outs, s.phys, s.numSlots)
      requires |s.wireSlot| == |s.evalSlot| == |s.maskInput| == s.numSlots
      requires SharesReady(ref.n, ref.gs, s.wireSlot, s.phys, ref.n, AllShares(ref.n, ref.gs, ref.shares, ref.lg))
      requires SlotsHold(s.evalSlot, s.phys, ref.n, ref.AllLabels())
      requires SlotsHold(s.maskInput, s.phys, ref.n, ref.AllMasks())
      ensures this.s == s && this.outs == outs && this.ref == ref
      ensures Valid() && wid == ref.n && c0 == c1 == -1
    {
      hide Canonical, Allocated, SharesReady, SlotsHold, AllShares, Framed, Cached, AndsBefore, Evaluator.Ok;
      hide Evaluator.AllLabels, Evaluator.AllMasks, Evaluator.AndMasks, Evaluator.Witnesses;
      NothingEvaluated(ref);
      this.s, this.incoming, this.outs, this.ref := s, incoming, outs, ref;
      wid, ai, c0, c1 := s.numInputs, 0, -1, -1;
      var cap := Capacity(s.numAnds);
      slots := seq(2, _ => Chunk(seq(2 * cap, _ => ZERO), seq(cap, _ => false), 0));
      received, recvBase, loc := 0, 0, 0;
    }

    /** `wslot(i)`, `evl(i)` and `minp(i)`: an operand of the next gate still finds its state in its slot. */
    method ReadOperand(i: nat) returns (share: Share, cell: EvalCell)
      requires PlanOk() && ref.n <= wid < ref.n + |ref.gs| && SlotsOk(wid - ref.n) && ref.gs[wid - ref.n].Reads(i)
      ensures i < wid && share == Shares()[i] && cell == EvalCell(ref.AllLabels()[i], ref.AllMasks()[i])
    {
      hide AllShares, Evaluator.AllLabels, Evaluator.AllMasks;
      OperandIsCurrent(ref.n, ref.gs, outs, s.phys, s.numSlots, wid - ref.n, i);
      share, cell := s.wireSlot[s.phys[i]], EvalCell(s.evalSlot[s.phys[i]], s.maskInput[s.phys[i]]);
    }

    /** Store label and mask of the wire being computed. */
    method StoreCell(cell: EvalCell)
      requires PlanOk() && ref.n < wid <= ref.n + |ref.gs|
      requires |s.evalSlot| == |s.maskInput| == s.numSlots
      requires SlotsHold(s.evalSlot, s.phys, wid - 1, ref.AllLabels()) && SlotsHold(s.maskInput, s.phys, wid - 1, ref.AllMasks())
      requires cell == EvalCell(ref.AllLabels()[wid - 1], ref.AllMasks()[wid - 1])
      modifies s`evalSlot, s`maskInput
      ensures |s.evalSlot| == |s.maskInput| == s.numSlots
      ensures SlotsHold(s.evalSlot, s.phys, wid, ref.AllLabels()) && SlotsHold(s.maskInput, s.phys, wid, ref.AllMasks())
    {
      hide Evaluator.AllLabels, Evaluator.AllMasks, SlotsHold;
      var slot := s.phys[wid - 1];
      WriteHolds(s.evalSlot, s.evalSlot[slot := cell.lab], s.phys, s.phys, wid - 1, ref.AllLabels());
      WriteHolds(s.maskInput, s.maskInput[slot := cell.mask], s.phys, s.phys, wid - 1, ref.AllMasks());
      s.evalSlot, s.maskInput := s.evalSlot[slot := cell.lab], s.maskInput[slot := cell.mask];
    }

    /** Store the state of the next linear gate or constant. */
    method Store(share: Share, cell: EvalCell) returns (w: nat)
      requires PlanOk() && ref.n <= wid < ref.n + |ref.gs| && SlotsOk(wid - ref.n)
      requires share == Shares()[wid] && cell == EvalCell(ref.AllLabels()[wid], ref.AllMasks()[wid])
      modifies this`wid, s`wireSlot, s`evalSlot, s`maskInput
      ensures w == old(wid) && wid == w + 1 && SlotsOk(wid - ref.n)
    {
      hide AllShares, Evaluator.AllLabels, Evaluator.AllMasks, SharesReady, SlotsHold;
      w, wid := wid, wid + 1;
      SharesWritten(ref.n, ref.gs, outs, s.wireSlot, s.phys, s.numSlots, w, Shares());
      s.wireSlot := s.wireSlot[s.phys[w] := share];
      StoreCell(cell);
    }

    /** The share of the AND output about to be computed, left in its slot by the mask pass. */
    method ReadOutputShare() returns (share: Share)
      requires PlanOk() && ref.n <= wid < ref.n + |ref.gs| && SlotsOk(wid - ref.n) && ref.gs[wid - ref.n].op == AndOp
      ensures share == Shares()[wid]
    {
      hide AllShares;
      SharesPassAnd(ref.n, ref.gs, outs, s.wireSlot, s.phys, s.numSlots, wid, Shares());
      share := s.wireSlot[s.phys[wid]];
    }

    /** Store label and mask of the next AND. */
    method StoreAnd(cell: EvalCell) returns (w: nat)
      requires PlanOk() && ref.n <= wid < ref.n + |ref.gs| && SlotsOk(wid - ref.n)
      requires ref.gs[wid - ref.n].op == AndOp && cell == EvalCell(ref.AllLabels()[wid], ref.AllMasks()[wid])
      modifies this`wid, s`evalSlot, s`maskInput
      ensures w == old(wid) && wid == w + 1 && SlotsOk(wid - ref.n)
    {
      hide AllShares, Evaluator.AllLabels, Evaluator.AllMasks, SharesReady, SlotsHold;
      w, wid := wid, wid + 1;
      SharesPassAnd(ref.n, ref.gs, outs, s.wireSlot, s.phys, s.numSlots, w, Shares());
      StoreCell(cell);
    }

    /** Read the chunk of `n` entries framed at `recvBase` into a staging slot. */
    method ReadChunk(slot: Chunk, n: nat) returns (c: Chunk)
      requires incoming == Framed(ref.stream) && recvBase % BATCH == 0 && recvBase < |ref.stream|
      requires n == (if |ref.stream| - recvBase < BATCH then |ref.stream| - recvBase else BATCH)
      requires 2 * n <= |slot.g| && n <= |slot.b|
      ensures |c.g| == |slot.g| && |c.b| == |slot.b| && c.n == n && recvBase + n <= |ref.stream|
      ensures c.Filled() == ref.stream[recvBase..recvBase + n]
    {
      hide Framed, Chunk.Filled;
      var pos := 3 * recvBase;
      ChunkOnWire(incoming, ref.stream, recvBase, n);
      var rows := seq(2 * n, i requires 0 <= i < 2 * n => incoming[pos + i].row);
      var flags := seq(n, i requires 0 <= i < n => incoming[pos + 2 * n + i].flag);
      c := Chunk(rows + slot.g[2 * n..], flags + slot.b[n..], n);
      assert OnWire(incoming, pos, c);
      ChunkIsReceived(incoming, ref.stream, recvBase, c);
    }

    /** The receiver: fill the next staging slot with as many entries as the sender put into that chunk. */
    method Receive(ghost taken: nat)
      requires incoming == Framed(ref.stream) && s.numAnds == |ref.stream|
      requires StreamOk(taken) && taken == recvBase < |ref.stream|
      modifies this`slots, this`received, this`recvBase, this`loc
      ensures StreamOk(taken) && received == old(received) + 1 && loc == 0
    {
      hide Framed, Chunk.Filled, StreamOk, Capacity;
      BoundaryAgain(taken);
      var n := if s.numAnds - recvBase < BATCH then s.numAnds - recvBase else BATCH;
      var slot := ReadChunk(slots[received % 2], n);
      slots := slots[received % 2 := slot];
      received, recvBase, loc := received + 1, recvBase + n, 0;
      InHand(taken);
    }

    /** A chunk used up ends at a multiple of the batch size, and the next one fits its staging slot. */
    lemma BoundaryAgain(taken: nat)
      requires StreamOk(taken) && taken == recvBase < |ref.stream|
      ensures recvBase % BATCH == 0 && |slots| == 2
      ensures |slots[0].g| == |slots[1].g| == 2 * Capacity(|ref.stream|) && |slots[0].b| == |slots[1].b| == Capacity(|ref.stream|)
      ensures (if |ref.stream| - recvBase < BATCH then |ref.stream| - recvBase else BATCH) <= Capacity(|ref.stream|)
    {
      hide Chunk.Filled;
    }

    /** A chunk just received is in hand, none of it read. */
    lemma InHand(taken: nat)
      requires |slots| == 2 && received > 0 && loc == 0 && taken % BATCH == 0 && taken < |ref.stream|
      requires |slots[0].g| == |slots[1].g| == 2 * Capacity(|ref.stream|) && |slots[0].b| == |slots[1].b| == Capacity(|ref.stream|)
      requires Cur().n == (if |ref.stream| - taken < BATCH then |ref.stream| - taken else BATCH) <= Capacity(|ref.stream|)
      requires recvBase == taken + Cur().n && Cur().Filled() == ref.stream[taken..recvBase]
      ensures StreamOk(taken)
    {
      hide Chunk.Filled, Capacity;
    }

    /** Take the receiver's next chunk if the one in hand is used up. */
    method EnsureChunk()
      requires incoming == Framed(ref.stream) && s.numAnds == |ref.stream| && StreamOk(ai) && ai < |ref.stream|
      modifies this`slots, this`received, this`recvBase, this`loc
      ensures StreamOk(ai) && received > 0 && loc < Cur().n
    {
      hide Framed, Chunk.Filled;
      if received == 0 || loc == Cur().n {
        Receive(ai);
      }
    }

    /** The next entry on the wire. */
    method NextEntry() returns (e: Entry)
      requires incoming == Framed(ref.stream) && s.numAnds == |ref.stream| && StreamOk(ai) && ai < |ref.stream|
      modifies this`slots, this`received, this`recvBase, this`loc
      ensures e == ref.stream[ai] && StreamOk(ai + 1)
    {
      hide Framed, Chunk.Filled, StreamOk;
      EnsureChunk();
      e := EntryAt();
    }

    /** Read the next entry of the chunk in hand. */
    method EntryAt() returns (e: Entry)
      requires StreamOk(ai) && ai < |ref.stream| && received > 0 && loc < Cur().n
      modifies this`loc
      ensures e == ref.stream[ai] && StreamOk(ai + 1)
    {
      hide Chunk.Filled, Capacity;
      var c := Cur();
      e := Entry(c.g[2 * loc], c.g[2 * loc + 1], c.b[loc]);
      FilledAt(c, loc);
      loc := loc + 1;
    }

    method PublicBit(v: bool) returns (w: nat)
      requires Valid()
      requires var c, op := if v then c1 else c0, if v then Const1 else Const0;
        c >= 0 || (wid < ref.n + |ref.gs| && ref.gs[wid - ref.n] == Gate(0, 0, wid, op))
      modifies this, s`wireSlot, s`evalSlot, s`maskInput
      ensures Valid()
      ensures var c := if v then old(c1) else old(c0);
        if c >= 0 then w == c && wid == old(wid) && c0 == old(c0) && c1 == old(c1)
        else w == old(wid) && wid == w + 1 && c0 == (if v then old(c0) else w) && c1 == (if v then w else old(c1))
    {
      hide PlanOk, SlotsOk, StreamOk, WitnessOk, Cached, Evaluator.Ok, Evaluator.AllLabels, Evaluator.AllMasks;
      hide AndsBefore, Shares, Canonical, Framed, Xor;
      var c := if v then c1 else c0;
      if c >= 0 {
        return c;
      }
      ghost var k := wid - ref.n;
      StepFacts(k);
      w := Store(NO_SHARE, EvalCell(ZERO, v));
      CachedAnew(ref.n, ref.gs, k, if v then Const1 else Const0);
      if v {
        CachedGoesOn(ref.n, ref.gs, k, c0, Const0);
        c1 := w;
      } else {
        CachedGoesOn(ref.n, ref.gs, k, c1, Const1);
        c0 := w;
      }
    }

    method XorGate(i0: nat, i1: nat) returns (w: nat)
      requires Valid() && wid < ref.n + |ref.gs| && ref.gs[wid - ref.n] == Gate(i0, i1, wid, XorOp)
      modifies this, s`wireSlot, s`evalSlot, s`maskInput
      ensures Valid() && w == old(wid) && wid == w + 1 && c0 == old(c0) && c1 == old(c1)
    {
      hide PlanOk, SlotsOk, StreamOk, WitnessOk, Cached, Evaluator.Ok, Evaluator.AllLabels, Evaluator.AllMasks;
      hide AndsBefore, Shares, Canonical, Framed, Xor;
      ghost var k := wid - ref.n;
      StepFacts(k);
      var sa, a := ReadOperand(i0);
      var sb, b := ReadOperand(i1);
      w := Store(XorShare(sa, sb), EvalCell(Xor(a.lab, b.lab), a.mask != b.mask));
      CachedGoesOn(ref.n, ref.gs, k, c0, Const0);
      CachedGoesOn(ref.n, ref.gs, k, c1, Const1);
    }

    method NotGate(i: nat) returns (w: nat)
      requires Valid() && wid < ref.n + |ref.gs| && ref.gs[wid - ref.n] == Gate(i, 0, wid, NotOp)
      modifies this, s`wireSlot, s`evalSlot, s`maskInput
      ensures Valid() && w == old(wid) && wid == w + 1 && c0 == old(c0) && c1 == old(c1)
    {
      hide PlanOk, SlotsOk, StreamOk, WitnessOk, Cached, Evaluator.Ok, Evaluator.AllLabels, Evaluator.AllMasks;
      hide AndsBefore, Shares, Canonical, Framed, Xor;
      ghost var k := wid - ref.n;
      StepFacts(k);
      var sa, a := ReadOperand(i);
      w := Store(sa, EvalCell(a.lab, !a.mask));
      CachedGoesOn(ref.n, ref.gs, k, c0, Const0);
      CachedGoesOn(ref.n, ref.gs, k, c1, Const1);
    }

    /** The evaluator's half-gate computation. */
    method EvaluateAnd(a: EvalCell, b: EvalCell, sa: Share, sb: Share, sg: Share, sig: Share, e: Entry) returns (c: EvalCell)
      modifies s`tweak
      ensures s.tweak == old(s.tweak) + 1
      ensures c == AndCell(s.h, old(s.tweak), a, b, sa, sb, sg, sig, e)
    {
      hide Xor, Sel;
      var mr := Xor(Xor(Xor(sig.mac, sg.mac), Sel(a.mask, sb.mac)), Sel(b.mask, sa.mac));
      var buf := s.HashCir([a.lab, b.lab]);
      var t := Xor(buf[0], buf[1]);
      t := Xor(t, Sel(a.mask, e.g0));
      t := Xor(t, Sel(b.mask, Xor(e.g1, a.lab)));
      t := Xor(t, mr);
      c := EvalCell(t, e.b != Lsb1(t));
    }

    /** Record the opened mask and the c_gamma witness of the AND at gate `k`. */
    method RecordWitness(lm: bool, m: Block, ghost k: nat)
      requires WitnessOk(k) && ref.Ok() && k < |ref.gs| && ref.gs[k].op == AndOp && ai == AndsBefore(ref.gs, k) < NumAnds(ref.gs)
      requires lm == ref.Cell(ref.n + k).mask && m == ref.WitnessAt(k)
      modifies s`lambdaAnd, s`m1t
      ensures WitnessOk(k + 1)
    {
      hide Evaluator.WitnessAt, Evaluator.Cell, Evaluator.Ok;
      s.lambdaAnd := s.lambdaAnd[ai := lm];
      s.m1t := s.m1t[ai := m];
    }

    /** Read the operands of the AND at gate `k`, take its entry, and compute its cell and witness. */
    method ComputeAnd(i0: nat, i1: nat, ghost k: nat) returns (c: EvalCell, m: Block)
      requires PlanOk() && SlotsOk(k) && k < |ref.gs| && wid == ref.n + k && ref.gs[k] == Gate(i0, i1, wid, AndOp)
      requires ai == s.tweak == AndsBefore(ref.gs, k) && StreamOk(ai)
      modifies this`slots, this`received, this`recvBase, this`loc, s`tweak
      ensures c == EvalCell(ref.AllLabels()[wid], ref.AllMasks()[wid]) && c.mask == ref.Cell(wid).mask && m == ref.WitnessAt(k)
      ensures StreamOk(ai + 1) && s.tweak == old(s.tweak) + 1
    {
      hide PlanOk, SlotsOk, StreamOk, Evaluator.Ok, Evaluator.AllLabels, Evaluator.AllMasks, AndsBefore;
      hide Shares, Canonical, Framed, Xor, AndCell, EvalWitness, Evaluator.Cell, Evaluator.WitnessAt;
      PlanFacts();
      AndStepFacts(k);
      var e := NextEntry();
      var sa, a := ReadOperand(i0);
      var sb, b := ReadOperand(i1);
      var sg := ReadOutputShare();
      var sig := s.sigma[ai];
      c := EvaluateAnd(a, b, sa, sb, sg, sig, e);
      m := EvalWitness(a.mask, b.mask, c.mask, sa, sb, sg, sig, s.delta);
    }

    method AndGate(i0: nat, i1: nat) returns (w: nat)
      requires Valid() && wid < ref.n + |ref.gs| && ref.gs[wid - ref.n] == Gate(i0, i1, wid, AndOp)
      modifies this, s`evalSlot, s`maskInput, s`tweak, s`lambdaAnd, s`m1t
      ensures Valid() && w == old(wid) && wid == w + 1 && c0 == old(c0) && c1 == old(c1)
    {
      hide PlanOk, SlotsOk, StreamOk, WitnessOk, Cached, Evaluator.Ok, Evaluator.AllLabels, Evaluator.AllMasks;
      hide AndsBefore;
      hide Shares, Canonical, Framed, AndFacts, Evaluator.Cell, Evaluator.WitnessAt;
      ghost var k := wid - ref.n;
      PlanFacts();
      AndStepFacts(k);
      var c, m := ComputeAnd(i0, i1, k);
      RecordWitness(c.mask, m, k);
      w := StoreAnd(c);
      CachedGoesOn(ref.n, ref.gs, k, c0, Const0);
      CachedGoesOn(ref.n, ref.gs, k, c1, Const1);
      ai := ai + 1;
    }

    /** The pass's numbering and caches are those of the recording `r`. */
    ghost predicate At(r: Recording)
      reads `wid, `c0, `c1
    {
      wid == ref.n + |r.gates| && c0 == r.c0 && c1 == r.c1
    }

    /** Dispatch one call of a body over the scratch map from values to wires. */
    method Apply(g: Gate, scratch: seq<nat>, ghost r: Recording) returns (w: nat)
      requires Valid() && At(r) && r.ids == scratch && RecordingOk(ref.n, r)
      requires !g.IsConst() ==> g.in0 < |scratch| && (g.op != NotOp ==> g.in1 < |scratch|)
      requires r.Step(ref.n, g).gates <= ref.gs
      modifies this, s`wireSlot, s`evalSlot, s`maskInput, s`tweak, s`lambdaAnd, s`m1t
      ensures Valid() && At(r.Step(ref.n, g)) && r.Step(ref.n, g).ids == scratch + [w]
    {
      hide Valid, RecordingOk;
      assert |r.Step(ref.n, g).gates| > |r.gates| ==> ref.gs[|r.gates|] == r.Step(ref.n, g).gates[|r.gates|];
      match g.op {
        case Const0 => w := PublicBit(false);
        case Const1 => w := PublicBit(true);
        case AndOp => w := AndGate(scratch[g.in0], scratch[g.in1]);
        case XorOp => w := XorGate(scratch[g.in0], scratch[g.in1]);
        case NotOp => w := NotGate(scratch[g.in0]);
      }
    }

    /** Drive the pass over a body that records to the stream it was prepared for. */
    method Run(calls: seq<Gate>)
      requires Valid() && ref.n == s.numInputs && Ordered(ref.n, calls) && ref.gs == Stream(ref.n, calls)
      requires wid == ref.n && c0 == c1 == -1
      modifies this, s`wireSlot, s`evalSlot, s`maskInput, s`tweak, s`lambdaAnd, s`m1t
      ensures Valid() && wid == ref.n + |ref.gs|
    {
      hide Valid, RecordingOk;
      var scratch := seq(s.numInputs, i => i);
      for k := 0 to |calls|
        invariant Valid() && At(Record(ref.n, calls, k)) && scratch == Record(ref.n, calls, k).ids
      {
        NextCall(ref.n, calls, k);
        var w := Apply(calls[k], scratch, Record(ref.n, calls, k));
        scratch := scratch + [w];
      }
    }

    /** What the finished pass leaves behind. */
    lemma Finished()
      requires Valid() && wid == ref.n + |ref.gs|
      ensures |s.wireSlot| == |s.evalSlot| == |s.maskInput| == s.numSlots && |s.phys| == ref.n + |ref.gs|
      ensures SlotsHold(s.wireSlot, s.phys, ref.n + |ref.gs|, Shares())
      ensures SlotsHold(s.evalSlot, s.phys, ref.n + |ref.gs|, ref.AllLabels())
      ensures SlotsHold(s.maskInput, s.phys, ref.n + |ref.gs|, ref.AllMasks())
      ensures ref.AndMasks(|ref.gs|) <= s.lambdaAnd && ref.Witnesses(|ref.gs|) <= s.m1t
    {
      hide SlotsHold, Shares, Evaluator.AllLabels, Evaluator.AllMasks, Evaluator.AndMasks, Evaluator.Witnesses;
      hide AndsBefore;
      hide StreamOk, Canonical, Cached, Allocated;
    }

    lemma PlanFacts()
      requires PlanOk()
      ensures ref.Ok() && ref.delta == s.delta && ref.h == s.h && ref.sigma == s.sigma
      ensures incoming == Framed(ref.stream) && s.numAnds == |ref.stream| == NumAnds(ref.gs) == |ref.sigma|
    {
    }

    /** What a linear gate or constant `k` does to everything the evaluator keeps track of. */
    lemma {:induction false} StepFacts(k: nat)
      requires PlanOk() && k < |ref.gs| && ref.gs[k].op != AndOp
      ensures ref.Ok()
      ensures var sh, ls, ms, g, n := Shares(), ref.AllLabels(), ref.AllMasks(), ref.gs[k], ref.n;
        && |sh| == |ls| == |ms| == n + |ref.gs|
        && (!g.IsConst() ==> g.in0 < n + k && (g.op != NotOp ==> g.in1 < n + k))
        && (g.IsConst() ==> sh[n + k] == NO_SHARE && ls[n + k] == ZERO && ms[n + k] == (g.op == Const1))
        && (g.op == XorOp ==> && sh[n + k] == XorShare(sh[g.in0], sh[g.in1]) && ls[n + k] == Xor(ls[g.in0], ls[g.in1])
                              && ms[n + k] == (ms[g.in0] != ms[g.in1]))
        && (g.op == NotOp ==> sh[n + k] == sh[g.in0] && ls[n + k] == ls[g.in0] && ms[n + k] == !ms[g.in0])
        && AndsBefore(ref.gs, k + 1) == AndsBefore(ref.gs, k)
      ensures WitnessOk(k) ==> WitnessOk(k + 1)
    {
      hide Xor, AndCell, WitnessOk, ShareOf, Canonical, Evaluator.WitnessAt, ConstsUnique;
      SharesStep(ref.n, ref.gs, ref.shares, ref.lg, k);
      if WitnessOk(k) {
        WitnessGoesOn(k);
      }
    }

    lemma WitnessGoesOn(k: nat)
      requires WitnessOk(k) && k < |ref.gs| && ref.gs[k].op != AndOp
      ensures WitnessOk(k + 1)
    {
      hide Evaluator.WitnessAt, Evaluator.Cell;
    }

    lemma {:induction false} AndStepFacts(k: nat)
      requires PlanOk() && k < |ref.gs| && ref.gs[k].op == AndOp
      ensures ref.Ok() && AndFacts(k)
      ensures AndsBefore(ref.gs, k) < NumAnds(ref.gs)
      ensures AndsBefore(ref.gs, k + 1) == AndsBefore(ref.gs, k) + 1
    {
      hide AndCell, EvalWitness, Evaluator.Cell, Evaluator.WitnessAt, Evaluator.AllLabels, Evaluator.AllMasks, AllShares;
      ref.CellOfAnd(k);
      ref.CellsAt(ref.gs[k].in0);
      ref.CellsAt(ref.gs[k].in1);
      ref.CellsAt(ref.n + k);
    }

    /** The AND at gate `k` is computed from its operands' cells and its own entry and sigma share. */
    ghost predicate AndFacts(k: nat)
      requires ref.Ok() && k < |ref.gs| && ref.gs[k].op == AndOp
    {
      var sh, ls, ms, g, n, t := Shares(), ref.AllLabels(), ref.AllMasks(), ref.gs[k], ref.n, AndsBefore(ref.gs, k);
      && t < NumAnds(ref.gs)
      && g.in0 < n + k && g.in1 < n + k
      && var a, b := EvalCell(ls[g.in0], ms[g.in0]), EvalCell(ls[g.in1], ms[g.in1]);
         var c := AndCell(ref.h, t, a, b, sh[g.in0], sh[g.in1], sh[n + k], ref.sigma[t], ref.stream[t]);
      && EvalCell(ls[n + k], ms[n + k]) == c && ref.Cell(n + k).mask == c.mask
      && ref.WitnessAt(k) == EvalWitness(a.mask, b.mask, c.mask, sh[g.in0], sh[g.in1], sh[n + k], ref.sigma[t], ref.delta)
    }
  }

  /** The receiver's chunk size is the sender's, so what it reads parses as rows and then flags. */
  lemma ChunkOnWire(items: seq<Item>, es: seq<Entry>, base: nat, n: nat)
    requires items == Framed(es) && base % BATCH == 0 && base < |es|
    requires n == if |es| - base < BATCH then |es| - base else BATCH
    ensures 3 * (base + n) <= |items|
    ensures forall i | 3 * base <= i < 3 * base + 2 * n :: items[i].Row?
    ensures forall i | 3 * base + 2 * n <= i < 3 * (base + n) :: items[i].Flag?
  {
    hide Framed, Frame;
    FrameAt(es, base, n);
    FrameShape(es[base..base + n]);
    var frame := items[3 * base..3 * (base + n)];
    forall i | 3 * base <= i < 3 * (base + n)
      ensures if i < 3 * base + 2 * n then items[i].Row? else items[i].Flag?
    {
      assert frame[i - 3 * base] == items[i];
    }
  }

  lemma FrameShape(es: seq<Entry>)
    ensures forall j | 0 <= j < 2 * |es| :: Frame(es)[j].Row?
    ensures forall j | 2 * |es| <= j < 3 * |es| :: Frame(es)[j].Flag?
  {
    hide Frame;
    forall j | 0 <= j < 3 * |es|
      ensures if j < 2 * |es| then Frame(es)[j].Row? else Frame(es)[j].Flag?
    {
      FrameReadsBack(es, if j < 2 * |es| then j / 2 else j - 2 * |es|);
    }
  }

  /** From `at` on the wire holds the ciphertexts of a staging slot and then its parity bits. */
  ghost predicate OnWire(items: seq<Item>, at: nat, c: Chunk) {
    && 2 * c.n <= |c.g| && c.n <= |c.b| && at + 3 * c.n <= |items|
    && (forall i | 0 <= i < 2 * c.n :: items[at + i] == Row(c.g[i]))
    && (forall i | 0 <= i < c.n :: items[at + 2 * c.n + i] == Flag(c.b[i]))
  }

  /** A slot filled from the wire at entry `base` holds the entries framed there. */
  lemma ChunkIsReceived(items: seq<Item>, es: seq<Entry>, base: nat, c: Chunk)
    requires items == Framed(es) && base % BATCH == 0 && base < |es|
    requires c.n == (if |es| - base < BATCH then |es| - base else BATCH) && OnWire(items, 3 * base, c)
    ensures 2 * c.n <= |c.g| && c.n <= |c.b| && c.Filled() == es[base..base + c.n]
  {
    hide Framed, Frame, Chunk.Filled, OnWire;
    FrameAt(es, base, c.n);
    FilledFromWire(items, 3 * base, c, es[base..base + c.n]);
  }

  lemma FilledFromWire(items: seq<Item>, at: nat, c: Chunk, es: seq<Entry>)
    requires OnWire(items, at, c) && c.n == |es| && items[at..at + 3 * c.n] == Frame(es)
    ensures 2 * c.n <= |c.g| && c.n <= |c.b| && c.Filled() == es
  {
    hide Frame;
    forall i | 0 <= i < c.n
      ensures c.Filled()[i] == es[i]
    {
      FrameReadsBack(es, i);
      SliceEntry(items, at, at + 3 * c.n, 2 * i);
      SliceEntry(items, at, at + 3 * c.n, 2 * i + 1);
      SliceEntry(items, at, at + 3 * c.n, 2 * c.n + i);
      assert items[at + 2 * i] == Row(c.g[2 * i]) && items[at + (2 * i + 1)] == Row(c.g[2 * i + 1]);
      assert items[at + 2 * c.n + i] == Flag(c.b[i]);
    }
  }

  lemma SliceEntry(s: seq<Item>, lo: nat, hi: nat, i: nat)
    requires lo <= hi <= |s| && i < hi - lo
    ensures s[lo..hi][i] == s[lo + i]
  {
  }
}
