/** What each protocol pass computes for every logical wire, as if each wire had a private cell: the reference the
    slot-recycling passes (pass_ctx.h) are proved against. */
module Cells {
  import opened Blocks
  import opened Shares
  import opened Circuits

  /** The ciphertexts and the parity bit the garbler ships for one AND. */
  datatype Entry = Entry(g0: Block, g1: Block, b: bool)

  /** This party's authenticated share of wire `w`. AND outputs carry the freshly drawn mask shares `lg`. */
  function ShareOf(n: nat, gs: seq<Gate>, ins: seq<Share>, lg: nat -> Share, w: nat): Share
    requires Ordered(n, gs) && |ins| == n && w < n + |gs|
    decreases w
  {
    if w < n then ins[w] else
    var g := gs[w - n];
    match g.op
    case Const0 => NO_SHARE
    case Const1 => NO_SHARE
    case AndOp => lg(AndsBefore(gs, w - n))
    case XorOp => XorShare(ShareOf(n, gs, ins, lg, g.in0), ShareOf(n, gs, ins, lg, g.in1))
    case NotOp => ShareOf(n, gs, ins, lg, g.in0)
  }

  /** The shares of all wires. */
  function AllShares(n: nat, gs: seq<Gate>, ins: seq<Share>, lg: nat -> Share): (sh: seq<Share>)
    requires Ordered(n, gs) && |ins| == n
    ensures |sh| == n + |gs|
  {
    seq(n + |gs|, w requires 0 <= w < n + |gs| => ShareOf(n, gs, ins, lg, w))
  }

  /** How the share of the next wire comes from those of its operands. */
  lemma SharesStep(n: nat, gs: seq<Gate>, ins: seq<Share>, lg: nat -> Share, k: nat)
    requires Ordered(n, gs) && |ins| == n && k < |gs|
    ensures var sh, g := AllShares(n, gs, ins, lg), gs[k];
      && |sh| == n + |gs|
      && (g.IsConst() ==> sh[n + k] == NO_SHARE)
      && (g.op == AndOp ==> sh[n + k] == lg(AndsBefore(gs, k)))
      && (g.op == XorOp ==> sh[n + k] == XorShare(sh[g.in0], sh[g.in1]))
      && (g.op == NotOp ==> sh[n + k] == sh[g.in0])
  {
  }

  /** What slot assignment leaves as the opened mask: the input's, a constant's own bit, and 0 for gates. */
  predicate InitialMask(n: nat, gs: seq<Gate>, masks: seq<bool>, w: nat)
    requires |masks| == n && w < n + |gs|
  {
    if w < n then masks[w] else gs[w - n].op == Const1
  }

  function AllInitialMasks(n: nat, gs: seq<Gate>, masks: seq<bool>): (ms: seq<bool>)
    requires |masks| == n
    ensures |ms| == n + |gs|
  {
    seq(n + |gs|, w requires 0 <= w < n + |gs| => InitialMask(n, gs, masks, w))
  }

  lemma InitialMasksStep(n: nat, gs: seq<Gate>, masks: seq<bool>, k: nat)
    requires |masks| == n && k < |gs|
    ensures |AllInitialMasks(n, gs, masks)| == n + |gs|
    ensures AllInitialMasks(n, gs, masks)[n + k] == (gs[k].op == Const1)
  {
  }

  /** The first (or second) operand shares of the ANDs among the first `k` gates, in order. */
  function OperandShares(gs: seq<Gate>, shares: seq<Share>, n: nat, second: bool, k: nat): (r: seq<Share>)
    requires Ordered(n, gs) && |shares| == n + |gs| && k <= |gs|
    ensures |r| == AndsBefore(gs, k)
  {
    if k == 0 then [] else
    var rest, g := OperandShares(gs, shares, n, second, k - 1), gs[k - 1];
    if g.op == AndOp then rest + [shares[if second then g.in1 else g.in0]] else rest
  }

  /** The two label hashes under the tweak of AND number `t`. */
  function AndLabel(h: TweakedHash, t: nat, a0: Block, b0: Block, sa: Share, sb: Share, sg: Share, sig: Share, d: Block): Block {
    Xor(Xor(Xor(Xor(Xor(h(t, a0), h(t, b0)), sig.key), Sel(Bit(sig), d)), sg.key), Sel(Bit(sg), d))
  }

  function AndEntry(h: TweakedHash, t: nat, a0: Block, b0: Block, sa: Share, sb: Share, sg: Share, sig: Share, d: Block): Entry {
    Entry(Xor(Xor(Xor(h(t, a0), h(t, Xor(a0, d))), sb.key), Sel(Bit(sb), d)),
          Xor(Xor(Xor(Xor(h(t, b0), h(t, Xor(b0, d))), a0), sa.key), Sel(Bit(sa), d)),
          Lsb1(AndLabel(h, t, a0, b0, sa, sb, sg, sig, d)))
  }

  /** Everything the garbler's pass depends on. */
  datatype Garbler = Garbler(n: nat, gs: seq<Gate>, shares: seq<Share>, labels: seq<Block>, lg: nat -> Share,
                             sigma: seq<Share>, delta: Block, h: TweakedHash)
  {
    ghost predicate Ok() {
      Ordered(n, gs) && |shares| == n && |labels| == n && |sigma| == NumAnds(gs)
    }

    function ShareAt(w: nat): Share
      requires Ok() && w < n + |gs|
    {
      ShareOf(n, gs, shares, lg, w)
    }

    /** The sigma share of the AND at gate `k`. */
    function Sigma(k: nat): Share
      requires Ok() && k < |gs| && gs[k].op == AndOp
    {
      AndsBeforeMonotone(gs, k, |gs|);
      sigma[AndsBefore(gs, k)]
    }

    /** The zero label of wire `w`. */
    function Label(w: nat): Block
      requires Ok() && w < n + |gs|
      decreases w
    {
      if w < n then labels[w] else
      var g := gs[w - n];
      match g.op
      case Const0 => ZERO
      case Const1 => delta
      case AndOp => AndLabel(h, AndsBefore(gs, w - n), Label(g.in0), Label(g.in1),
                           ShareAt(g.in0), ShareAt(g.in1), ShareAt(w), Sigma(w - n), delta)
      case XorOp => Xor(Label(g.in0), Label(g.in1))
      case NotOp => Xor(Label(g.in0), delta)
    }

    function AllLabels(): (ls: seq<Block>)
      requires Ok()
      ensures |ls| == n + |gs|
    {
      seq(n + |gs|, w requires 0 <= w < n + |gs| => Label(w))
    }

    function EntryAt(k: nat): Entry
      requires Ok() && k < |gs| && gs[k].op == AndOp
    {
      var g := gs[k];
      AndEntry(h, AndsBefore(gs, k), Label(g.in0), Label(g.in1), ShareAt(g.in0), ShareAt(g.in1), ShareAt(n + k), Sigma(k), delta)
    }

    /** What is shipped for the ANDs among the first `k` gates, in order. */
    function Entries(k: nat): (es: seq<Entry>)
      requires Ok() && k <= |gs|
      ensures |es| == AndsBefore(gs, k)
    {
      if k == 0 then []
      else if gs[k - 1].op == AndOp then Entries(k - 1) + [EntryAt(k - 1)]
      else Entries(k - 1)
    }
  }

  datatype EvalCell = EvalCell(lab: Block, mask: bool)

  /** The evaluator's AND: its label and the recovered opened mask. */
  function AndCell(h: TweakedHash, t: nat, a: EvalCell, b: EvalCell, sa: Share, sb: Share, sg: Share, sig: Share,
                   e: Entry): EvalCell {
    var mr := Xor(Xor(Xor(sig.mac, sg.mac), Sel(a.mask, sb.mac)), Sel(b.mask, sa.mac));
    var t0 := Xor(h(t, a.lab), h(t, b.lab));
    var t1 := Xor(t0, Sel(a.mask, e.g0));
    var t2 := Xor(t1, Sel(b.mask, Xor(e.g1, a.lab)));
    var lab := Xor(t2, mr);
    EvalCell(lab, e.b != Lsb1(lab))
  }

  /** The evaluator's c_gamma witness of an AND with recovered output mask `lm`. */
  function EvalWitness(la: bool, lb: bool, lm: bool, sa: Share, sb: Share, sg: Share, sig: Share, d: Block): Block {
    var t1 := (((((la && lb) != lm) != (la && Bit(sb))) != (lb && Bit(sa))) != Bit(sig)) != Bit(sg);
    Xor(Xor(Xor(Xor(Sel(t1, d), Sel(la, sb.key)), Sel(lb, sa.key)), sig.key), sg.key)
  }

  /** The garbler's c_gamma witness of the same AND. */
  function CheckWitness(la: bool, lb: bool, sa: Share, sb: Share, sg: Share, sig: Share): Block {
    Xor(Xor(Xor(sig.mac, sg.mac), Sel(la, sb.mac)), Sel(lb, sa.mac))
  }

  /** Everything the evaluator's pass depends on; `stream` is whatever was received for the ANDs. */
  datatype Evaluator = Evaluator(n: nat, gs: seq<Gate>, shares: seq<Share>, labels: seq<Block>, masks: seq<bool>,
                                 lg: nat -> Share, sigma: seq<Share>, delta: Block, h: TweakedHash, stream: seq<Entry>)
  {
    ghost predicate Ok() {
      && Ordered(n, gs) && |shares| == n && |labels| == n && |masks| == n
      && |sigma| == |stream| == NumAnds(gs)
    }

    function ShareAt(w: nat): Share
      requires Ok() && w < n + |gs|
    {
      ShareOf(n, gs, shares, lg, w)
    }

    function Sigma(k: nat): Share
      requires Ok() && k < |gs| && gs[k].op == AndOp
    {
      AndsBeforeMonotone(gs, k, |gs|);
      sigma[AndsBefore(gs, k)]
    }

    function Received(k: nat): Entry
      requires Ok() && k < |gs| && gs[k].op == AndOp
    {
      AndsBeforeMonotone(gs, k, |gs|);
      stream[AndsBefore(gs, k)]
    }

    /** The label and opened mask the evaluator holds for wire `w`. */
    function Cell(w: nat): EvalCell
      requires Ok() && w < n + |gs|
      decreases w
    {
      if w < n then EvalCell(labels[w], masks[w]) else
      var g := gs[w - n];
      match g.op
      case Const0 => EvalCell(ZERO, false)
      case Const1 => EvalCell(ZERO, true)
      case AndOp => AndCell(h, AndsBefore(gs, w - n), Cell(g.in0), Cell(g.in1),
                          ShareAt(g.in0), ShareAt(g.in1), ShareAt(w), Sigma(w - n), Received(w - n))
      case XorOp => EvalCell(Xor(Cell(g.in0).lab, Cell(g.in1).lab), Cell(g.in0).mask != Cell(g.in1).mask)
      case NotOp => EvalCell(Cell(g.in0).lab, !Cell(g.in0).mask)
    }

    function AllLabels(): (ls: seq<Block>)
      requires Ok()
      ensures |ls| == n + |gs|
    {
      seq(n + |gs|, w requires 0 <= w < n + |gs| => Cell(w).lab)
    }

    function AllMasks(): (ms: seq<bool>)
      requires Ok()
      ensures |ms| == n + |gs|
    {
      seq(n + |gs|, w requires 0 <= w < n + |gs| => Cell(w).mask)
    }

    lemma CellsAt(w: nat)
      requires Ok() && w < n + |gs|
      ensures EvalCell(AllLabels()[w], AllMasks()[w]) == Cell(w)
      ensures AllShares(n, gs, shares, lg)[w] == ShareAt(w)
    {
    }

    lemma {:induction false} CellOfAnd(k: nat)
      requires Ok() && k < |gs| && gs[k].op == AndOp
      ensures AndsBefore(gs, k) < NumAnds(gs)
      ensures var g, t := gs[k], AndsBefore(gs, k);
        && Cell(n + k) == AndCell(h, t, Cell(g.in0), Cell(g.in1), ShareAt(g.in0), ShareAt(g.in1), ShareAt(n + k),
                                  sigma[t], stream[t])
        && WitnessAt(k) == EvalWitness(Cell(g.in0).mask, Cell(g.in1).mask, Cell(n + k).mask,
                                       ShareAt(g.in0), ShareAt(g.in1), ShareAt(n + k), sigma[t], delta)
    {
      hide AndCell, EvalWitness, ShareOf;
      AndsBeforeMonotone(gs, k, |gs|);
    }

    function WitnessAt(k: nat): Block
      requires Ok() && k < |gs| && gs[k].op == AndOp
    {
      var g := gs[k];
      EvalWitness(Cell(g.in0).mask, Cell(g.in1).mask, Cell(n + k).mask,
                  ShareAt(g.in0), ShareAt(g.in1), ShareAt(n + k), Sigma(k), delta)
    }

    /** The opened masks of the ANDs among the first `k` gates: what is sent back for the check. */
    function AndMasks(k: nat): (ms: seq<bool>)
      requires Ok() && k <= |gs|
      ensures |ms| == AndsBefore(gs, k)
    {
      if k == 0 then []
      else if gs[k - 1].op == AndOp then AndMasks(k - 1) + [Cell(n + k - 1).mask]
      else AndMasks(k - 1)
    }

    function Witnesses(k: nat): (ws: seq<Block>)
      requires Ok() && k <= |gs|
      ensures |ws| == AndsBefore(gs, k)
    {
      if k == 0 then []
      else if gs[k - 1].op == AndOp then Witnesses(k - 1) + [WitnessAt(k - 1)]
      else Witnesses(k - 1)
    }
  }

  /** Everything the garbler's c_gamma pass depends on; `received` is the vector of AND masks it was sent. */
  datatype Checker = Checker(n: nat, gs: seq<Gate>, shares: seq<Share>, masks: seq<bool>, lg: nat -> Share,
                             sigma: seq<Share>, received: seq<bool>)
  {
    ghost predicate Ok() {
      && Ordered(n, gs) && |shares| == n && |masks| == n
      && |sigma| == |received| == NumAnds(gs)
    }

    function ShareAt(w: nat): Share
      requires Ok() && w < n + |gs|
    {
      ShareOf(n, gs, shares, lg, w)
    }

    function Sigma(k: nat): Share
      requires Ok() && k < |gs| && gs[k].op == AndOp
    {
      AndsBeforeMonotone(gs, k, |gs|);
      sigma[AndsBefore(gs, k)]
    }

    function Received(k: nat): bool
      requires Ok() && k < |gs| && gs[k].op == AndOp
    {
      AndsBeforeMonotone(gs, k, |gs|);
      received[AndsBefore(gs, k)]
    }

    function Mask(w: nat): bool
      requires Ok() && w < n + |gs|
      decreases w
    {
      if w < n then masks[w] else
      var g := gs[w - n];
      match g.op
      case Const0 => false
      case Const1 => true
      case AndOp => Received(w - n)
      case XorOp => Mask(g.in0) != Mask(g.in1)
      case NotOp => !Mask(g.in0)
    }

    function AllMasks(): (ms: seq<bool>)
      requires Ok()
      ensures |ms| == n + |gs|
    {
      seq(n + |gs|, w requires 0 <= w < n + |gs| => Mask(w))
    }

    lemma MaskAndShareAt(w: nat)
      requires Ok() && w < n + |gs|
      ensures AllMasks()[w] == Mask(w) && AllShares(n, gs, shares, lg)[w] == ShareAt(w)
    {
    }

    function WitnessAt(k: nat): Block
      requires Ok() && k < |gs| && gs[k].op == AndOp
    {
      var g := gs[k];
      CheckWitness(Mask(g.in0), Mask(g.in1), ShareAt(g.in0), ShareAt(g.in1), ShareAt(n + k), Sigma(k))
    }

    function Witnesses(k: nat): (ws: seq<Block>)
      requires Ok() && k <= |gs|
      ensures |ws| == AndsBefore(gs, k)
    {
      if k == 0 then []
      else if gs[k - 1].op == AndOp then Witnesses(k - 1) + [WitnessAt(k - 1)]
      else Witnesses(k - 1)
    }
  }
}
