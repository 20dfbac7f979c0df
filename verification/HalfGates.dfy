/** Joint correctness of garbling and evaluation. */
module HalfGates {
  import opened Blocks
  import opened Shares
  import opened Circuits
  import opened Cells

  /** The value an AND's opened output mask must have: (La ^ la)(Lb ^ lb) ^ lg. */
  predicate Right(la: bool, lb: bool, xa: bool, xb: bool, xg: bool) {
    ((la != xa) && (lb != xb)) != xg
  }

  /** Generator half: H(a_L) ^ L * G0 is H(a_0) plus the evaluator's part of L * b. */
  lemma GeneratorHalf(h0: Block, h1: Block, kb: Block, yb: bool, d: Block, l: bool)
    ensures Xor(if l then h1 else h0, Sel(l, Xor(Xor(Xor(h0, h1), kb), Sel(yb, d))))
         == Xor(h0, Sel(l, Xor(kb, Sel(yb, d))))
  {
  }

  /** Evaluator half: H(b_L) ^ L * (G1 ^ a) is H(b_0) plus L times the blinded offset of a. */
  lemma EvaluatorHalf(h0: Block, h1: Block, a0: Block, ka: Block, ya: bool, d: Block, la: bool, l: bool)
    ensures Xor(if l then h1 else h0,
                Sel(l, Xor(Xor(Xor(Xor(Xor(h0, h1), a0), ka), Sel(ya, d)), Xor(a0, Sel(la, d)))))
         == Xor(h0, Sel(l, Xor(ka, Sel(ya != la, d))))
  {
  }

  /** A key and its MAC cancel up to a multiple of the global key. */
  lemma KeyMacCancels(l: bool, k: Block, x: bool, y: bool, d: Block)
    ensures Xor(Sel(l, Xor(k, Sel(x, d))), Sel(l, Xor(k, Sel(y, d)))) == Sel(l && x != y, d)
  {
  }

  /** Rearranging the evaluated label: the two half-gates, the sigma and output MACs, and the two masked MACs. */
  lemma CollectLabel(ha: Block, hb: Block, p: Block, q: Block, ks: Block, ss: Block, kg: Block, sg: Block, pp: Block, qq: Block,
                     es: Block, eg: Block)
    ensures Xor(Xor(Xor(ha, p), Xor(hb, q)), Xor(Xor(Xor(Xor(ks, ss), Xor(kg, sg)), pp), qq))
         == Xor(Xor(Xor(Xor(Xor(Xor(ha, hb), ks), es), kg), eg),
                Xor(Xor(Xor(p, pp), Xor(q, qq)), Xor(Xor(es, ss), Xor(eg, sg))))
  {
    var u := Xor(Xor(p, pp), Xor(q, qq));
    assert Xor(Xor(Xor(ha, p), Xor(hb, q)), Xor(Xor(Xor(Xor(ks, ss), Xor(kg, sg)), pp), qq))
        == Xor(Xor(Xor(ha, hb), Xor(Xor(ks, ss), Xor(kg, sg))), u) by { Collect8(ha, p, hb, q, Xor(Xor(ks, ss), Xor(kg, sg)), pp, qq); }
    assert Xor(Xor(ha, hb), Xor(Xor(ks, ss), Xor(kg, sg))) == Xor(Xor(Xor(Xor(ha, hb), ks), kg), Xor(ss, sg)) by {
      Collect6(Xor(ha, hb), ks, ss, kg, sg);
    }
    CollectRight(Xor(ha, hb), ks, es, kg, eg, u, ss, sg);
  }

  lemma Collect8(ha: Block, p: Block, hb: Block, q: Block, m: Block, pp: Block, qq: Block)
    ensures Xor(Xor(Xor(ha, p), Xor(hb, q)), Xor(Xor(m, pp), qq)) == Xor(Xor(Xor(ha, hb), m), Xor(Xor(p, pp), Xor(q, qq)))
  {
  }

  lemma Collect6(h: Block, ks: Block, ss: Block, kg: Block, sg: Block)
    ensures Xor(h, Xor(Xor(ks, ss), Xor(kg, sg))) == Xor(Xor(Xor(h, ks), kg), Xor(ss, sg))
  {
  }

  lemma CollectRight(h: Block, ks: Block, es: Block, kg: Block, eg: Block, u: Block, ss: Block, sg: Block)
    ensures Xor(Xor(Xor(Xor(h, ks), kg), Xor(ss, sg)), u)
         == Xor(Xor(Xor(Xor(Xor(h, ks), es), kg), eg), Xor(u, Xor(Xor(es, ss), Xor(eg, sg))))
  {
  }

  /** The evaluated label is the garbler's zero label plus multiples of the global key: two from the half-gates, whose
      operands' keys and MACs cancel, and one each from the sigma and output shares. */
  lemma EvaluatedLabel(h: TweakedHash, t: nat, a0: Block, b0: Block, a: EvalCell, b: EvalCell,
                       sa1: Share, sa2: Share, sb1: Share, sb2: Share, sg1: Share, sg2: Share, sig1: Share, sig2: Share,
                       d1: Block, d2: Block)
    requires Paired(sa1, sa2, d1, d2) && Paired(sb1, sb2, d1, d2) && Paired(sg1, sg2, d1, d2) && Paired(sig1, sig2, d1, d2)
    requires a.lab == Xor(a0, Sel(a.mask, d1)) && b.lab == Xor(b0, Sel(b.mask, d1))
    ensures var c := AndCell(h, t, a, b, sa2, sb2, sg2, sig2, AndEntry(h, t, a0, b0, sa1, sb1, sg1, sig1, d1));
      c.lab == Xor(AndLabel(h, t, a0, b0, sa1, sb1, sg1, sig1, d1),
        Xor(Xor(Xor(Sel(a.mask, Xor(sb1.key, Sel(Bit(sb1), d1))), Sel(a.mask, sb2.mac)),
                Xor(Sel(b.mask, Xor(sa1.key, Sel(Bit(sa1) != a.mask, d1))), Sel(b.mask, sa2.mac))),
            Xor(Xor(Sel(Bit(sig1), d1), Sel(Bit(sig2), d1)), Xor(Sel(Bit(sg1), d1), Sel(Bit(sg2), d1)))))
  {
    hide Xor;
    var la, lb := a.mask, b.mask;
    XorZero(a0);
    XorZero(b0);
    var ha0, ha1, hb0, hb1 := h(t, a0), h(t, Xor(a0, d1)), h(t, b0), h(t, Xor(b0, d1));
    var p := Sel(la, Xor(sb1.key, Sel(Bit(sb1), d1)));
    var q := Sel(lb, Xor(sa1.key, Sel(Bit(sa1) != la, d1)));
    var ss, gg := Sel(Bit(sig2), d1), Sel(Bit(sg2), d1);
    var e := AndEntry(h, t, a0, b0, sa1, sb1, sg1, sig1, d1);
    assert h(t, a.lab) == if la then ha1 else ha0;
    assert h(t, b.lab) == if lb then hb1 else hb0;
    GeneratorHalf(ha0, ha1, sb1.key, Bit(sb1), d1, la);
    EvaluatorHalf(hb0, hb1, a0, sa1.key, Bit(sa1), d1, la, lb);
    HalvesApart(if la then ha1 else ha0, if lb then hb1 else hb0, Sel(la, e.g0), Sel(lb, Xor(e.g1, a.lab)));
    CollectLabel(ha0, hb0, p, q, sig1.key, ss, sg1.key, gg, Sel(la, sb2.mac), Sel(lb, sa2.mac), Sel(Bit(sig1), d1), Sel(Bit(sg1), d1));
  }

  /** Those multiples add up to the right mask. */
  lemma MultiplesAddUp(la: bool, lb: bool, sa1: Share, sa2: Share, sb1: Share, sb2: Share, sg1: Share, sg2: Share,
                       sig1: Share, sig2: Share, d1: Block, d2: Block)
    requires Paired(sa1, sa2, d1, d2) && Paired(sb1, sb2, d1, d2)
    requires Hidden(sig1, sig2) == (Hidden(sa1, sa2) && Hidden(sb1, sb2))
    ensures Xor(Xor(Xor(Sel(la, Xor(sb1.key, Sel(Bit(sb1), d1))), Sel(la, sb2.mac)),
                    Xor(Sel(lb, Xor(sa1.key, Sel(Bit(sa1) != la, d1))), Sel(lb, sa2.mac))),
                Xor(Xor(Sel(Bit(sig1), d1), Sel(Bit(sig2), d1)), Xor(Sel(Bit(sg1), d1), Sel(Bit(sg2), d1))))
         == Sel(Right(la, lb, Hidden(sa1, sa2), Hidden(sb1, sb2), Hidden(sg1, sg2)), d1)
  {
    hide Xor, Sel;
    KeyMacCancels(la, sb1.key, Bit(sb1), Bit(sb2), d1);
    KeyMacCancels(lb, sa1.key, Bit(sa1) != la, Bit(sa2), d1);
    SelXor(Bit(sig1), Bit(sig2), d1);
    SelXor(Bit(sg1), Bit(sg2), d1);
    SelXor(la && Bit(sb1) != Bit(sb2), lb && (Bit(sa1) != la) != Bit(sa2), d1);
    SelXor(Hidden(sig1, sig2), Hidden(sg1, sg2), d1);
    SelXor((la && Bit(sb1) != Bit(sb2)) != (lb && (Bit(sa1) != la) != Bit(sa2)), Hidden(sig1, sig2) != Hidden(sg1, sg2), d1);
  }

  /** One AND: honestly garbled, the evaluator gets the output label for the right opened mask, and that mask. */
  lemma AndIsCorrect(h: TweakedHash, t: nat, a0: Block, b0: Block, a: EvalCell, b: EvalCell,
                     sa1: Share, sa2: Share, sb1: Share, sb2: Share, sg1: Share, sg2: Share, sig1: Share, sig2: Share,
                     d1: Block, d2: Block)
    requires GoodDeltas(d1, d2)
    requires Paired(sa1, sa2, d1, d2) && Paired(sb1, sb2, d1, d2) && Paired(sg1, sg2, d1, d2) && Paired(sig1, sig2, d1, d2)
    requires Hidden(sig1, sig2) == (Hidden(sa1, sa2) && Hidden(sb1, sb2))
    requires a.lab == Xor(a0, Sel(a.mask, d1)) && b.lab == Xor(b0, Sel(b.mask, d1))
    ensures var c := AndCell(h, t, a, b, sa2, sb2, sg2, sig2, AndEntry(h, t, a0, b0, sa1, sb1, sg1, sig1, d1));
      && c.mask == Right(a.mask, b.mask, Hidden(sa1, sa2), Hidden(sb1, sb2), Hidden(sg1, sg2))
      && c.lab == Xor(AndLabel(h, t, a0, b0, sa1, sb1, sg1, sig1, d1), Sel(c.mask, d1))
  {
    hide Xor, Paired, AndLabel, Right, Hidden, Bit;
    EvaluatedLabel(h, t, a0, b0, a, b, sa1, sa2, sb1, sb2, sg1, sg2, sig1, sig2, d1, d2);
    MultiplesAddUp(a.mask, b.mask, sa1, sa2, sb1, sb2, sg1, sg2, sig1, sig2, d1, d2);
    var label0 := AndLabel(h, t, a0, b0, sa1, sb1, sg1, sig1, d1);
    var right := Right(a.mask, b.mask, Hidden(sa1, sa2), Hidden(sb1, sb2), Hidden(sg1, sg2));
    LowBitsOfXor(label0, Sel(right, d1));
  }

  lemma HalvesApart(x: Block, y: Block, u: Block, v: Block)
    ensures Xor(Xor(Xor(x, y), u), v) == Xor(Xor(x, u), Xor(y, v))
  {
  }

  /** The two parties' runs of one circuit: correlated masks on inputs and ANDs, correlated sigma shares that hide the
      product of each AND's operand masks, and input labels that match the opened input masks. */
  ghost predicate Joint(g: Garbler, e: Evaluator) {
    && g.Ok() && e.Ok() && g.n == e.n && g.gs == e.gs && g.h == e.h
    && GoodDeltas(g.delta, e.delta)
    && (forall w | 0 <= w < g.n :: Paired(g.shares[w], e.shares[w], g.delta, e.delta))
    && (forall i: nat :: Paired(g.lg(i), e.lg(i), g.delta, e.delta))
    && (forall w | 0 <= w < g.n :: e.labels[w] == Xor(g.labels[w], Sel(e.masks[w], g.delta)))
    && (forall k | 0 <= k < |g.gs| && g.gs[k].op == AndOp :: SigmaOk(g, e, k))
  }

  ghost predicate SigmaOk(g: Garbler, e: Evaluator, k: nat)
    requires g.Ok() && e.Ok() && g.n == e.n && g.gs == e.gs && k < |g.gs| && g.gs[k].op == AndOp
  {
    && Paired(g.Sigma(k), e.Sigma(k), g.delta, e.delta)
    && Hidden(g.Sigma(k), e.Sigma(k)) == (Lambda(g, e, g.gs[k].in0) && Lambda(g, e, g.gs[k].in1))
  }

  /** The secret mask of wire `w`. */
  ghost predicate Lambda(g: Garbler, e: Evaluator, w: nat)
    requires g.Ok() && e.Ok() && g.n == e.n && g.gs == e.gs && w < g.n + |g.gs|
  {
    Hidden(g.ShareAt(w), e.ShareAt(w))
  }

  lemma {:induction false} SharesArePaired(n: nat, gs: seq<Gate>, in1: seq<Share>, in2: seq<Share>, lg1: nat -> Share, lg2: nat -> Share,
                                           d1: Block, d2: Block, w: nat)
    requires Ordered(n, gs) && |in1| == |in2| == n && w < n + |gs|
    requires forall i | 0 <= i < n :: Paired(in1[i], in2[i], d1, d2)
    requires forall i: nat :: Paired(lg1(i), lg2(i), d1, d2)
    ensures Paired(ShareOf(n, gs, in1, lg1, w), ShareOf(n, gs, in2, lg2, w), d1, d2)
    decreases w
  {
    hide Paired, XorShare;
    if w >= n {
      var g := gs[w - n];
      match g.op
      case XorOp =>
        SharesArePaired(n, gs, in1, in2, lg1, lg2, d1, d2, g.in0);
        SharesArePaired(n, gs, in1, in2, lg1, lg2, d1, d2, g.in1);
        PairedXor(ShareOf(n, gs, in1, lg1, g.in0), ShareOf(n, gs, in2, lg2, g.in0),
                  ShareOf(n, gs, in1, lg1, g.in1), ShareOf(n, gs, in2, lg2, g.in1), d1, d2);
      case NotOp =>
        SharesArePaired(n, gs, in1, in2, lg1, lg2, d1, d2, g.in0);
      case AndOp =>
      case _ =>
        NoSharePaired(d1, d2);
    }
  }

  lemma NoSharePaired(d1: Block, d2: Block)
    ensures Paired(NO_SHARE, NO_SHARE, d1, d2) && !Hidden(NO_SHARE, NO_SHARE)
  {
  }

  /** What the opened mask of wire `w` should be: its plaintext value blinded by its secret mask. */
  ghost predicate PlainMask(g: Garbler, e: Evaluator, w: nat)
    requires g.Ok() && e.Ok() && g.n == e.n && g.gs == e.gs && w < g.n + |g.gs|
  {
    Plain(g.n, g.gs, Inputs(g, e), w) != Lambda(g, e, w)
  }

  /** The plaintext inputs the opened input masks stand for. */
  ghost function Inputs(g: Garbler, e: Evaluator): (x: seq<bool>)
    requires g.Ok() && e.Ok() && g.n == e.n && g.gs == e.gs
    ensures |x| == g.n
  {
    seq(g.n, i requires 0 <= i < g.n => e.masks[i] != Hidden(g.shares[i], e.shares[i]))
  }

  lemma LambdaOfXor(g: Garbler, e: Evaluator, w: nat)
    requires Joint(g, e) && g.n <= w < g.n + |g.gs| && g.gs[w - g.n].op == XorOp
    ensures Lambda(g, e, w) == (Lambda(g, e, g.gs[w - g.n].in0) != Lambda(g, e, g.gs[w - g.n].in1))
  {
    hide Paired, XorShare;
    var c := g.gs[w - g.n];
    SharesArePaired(g.n, g.gs, g.shares, e.shares, g.lg, e.lg, g.delta, e.delta, c.in0);
    SharesArePaired(g.n, g.gs, g.shares, e.shares, g.lg, e.lg, g.delta, e.delta, c.in1);
    PairedXor(g.ShareAt(c.in0), e.ShareAt(c.in0), g.ShareAt(c.in1), e.ShareAt(c.in1), g.delta, e.delta);
  }

  /** Main theorem of a run. On honestly garbled entries, at every wire of every circuit the evaluator holds the label
      that encodes its opened mask, and that mask is the plaintext value blinded by the wire's secret mask. */
  lemma {:induction false} EvaluationIsCorrect(g: Garbler, e: Evaluator, w: nat)
    requires Joint(g, e) && e.stream == g.Entries(|g.gs|) && w < g.n + |g.gs|
    ensures e.Cell(w).lab == Xor(g.Label(w), Sel(e.Cell(w).mask, g.delta))
    ensures e.Cell(w).mask == PlainMask(g, e, w)
    decreases w
  {
    hide Joint, PlainMask, Garbler.Label, Evaluator.Cell, Garbler.Entries, Xor, Sel, ConstsUnique;
    JointFacts(g, e);
    if w < g.n {
      InputStep(g, e, w);
    } else {
      var c := g.gs[w - g.n];
      if !c.IsConst() {
        EvaluationIsCorrect(g, e, c.in0);
        if c.op != NotOp {
          EvaluationIsCorrect(g, e, c.in1);
        }
      }
      if c.op == AndOp {
        ReceivedIsShipped(g, e, w - g.n);
        AndStep(g, e, w - g.n);
      } else {
        LinearStep(g, e, w - g.n);
      }
    }
  }

  lemma JointFacts(g: Garbler, e: Evaluator)
    requires Joint(g, e)
    ensures g.Ok() && e.Ok() && g.n == e.n && g.gs == e.gs
    ensures forall k | 0 <= k < |g.gs| && !g.gs[k].IsConst() ::
      g.gs[k].in0 < g.n + k && (g.gs[k].op != NotOp ==> g.gs[k].in1 < g.n + k)
  {
  }

  lemma InputStep(g: Garbler, e: Evaluator, w: nat)
    requires Joint(g, e) && w < g.n
    ensures e.Cell(w).lab == Xor(g.Label(w), Sel(e.Cell(w).mask, g.delta)) && e.Cell(w).mask == PlainMask(g, e, w)
  {
    hide Paired, Xor, Sel, Hidden;
  }

  /** The step of a constant, an XOR or a NOT, from its operands. */
  lemma LinearStep(g: Garbler, e: Evaluator, k: nat)
    requires Joint(g, e) && k < |g.gs| && g.gs[k].op != AndOp
    requires var c := g.gs[k]; !c.IsConst() ==>
      e.Cell(c.in0).lab == Xor(g.Label(c.in0), Sel(e.Cell(c.in0).mask, g.delta)) && e.Cell(c.in0).mask == PlainMask(g, e, c.in0)
    requires var c := g.gs[k]; c.op == XorOp ==>
      e.Cell(c.in1).lab == Xor(g.Label(c.in1), Sel(e.Cell(c.in1).mask, g.delta)) && e.Cell(c.in1).mask == PlainMask(g, e, c.in1)
    ensures var w := g.n + k;
      e.Cell(w).lab == Xor(g.Label(w), Sel(e.Cell(w).mask, g.delta)) && e.Cell(w).mask == PlainMask(g, e, w)
  {
    hide Paired, Xor, Hidden, AndCell, AndEntry, AndLabel;
    var c, d := g.gs[k], g.delta;
    match c.op
    case Const0 =>
      NoSharePaired(d, e.delta);
      XorZero(ZERO);
    case Const1 =>
      NoSharePaired(d, e.delta);
      XorZero(d);
    case NotOp =>
      NotFlipsLabel(g.Label(c.in0), e.Cell(c.in0).mask, d);
    case XorOp =>
      LambdaOfXor(g, e, g.n + k);
      XorInterchange(g.Label(c.in0), Sel(e.Cell(c.in0).mask, d), g.Label(c.in1), Sel(e.Cell(c.in1).mask, d));
      SelXor(e.Cell(c.in0).mask, e.Cell(c.in1).mask, d);
  }

  lemma NotFlipsLabel(l: Block, m: bool, d: Block)
    ensures Xor(l, Sel(m, d)) == Xor(Xor(l, d), Sel(!m, d))
  {
  }

  lemma ReceivedIsShipped(g: Garbler, e: Evaluator, k: nat)
    requires g.Ok() && e.Ok() && g.n == e.n && g.gs == e.gs && k < |g.gs| && g.gs[k].op == AndOp
    requires e.stream == g.Entries(|g.gs|)
    ensures e.Received(k) == g.EntryAt(k)
  {
    EntriesAt(g, k, |g.gs|);
  }

  lemma {:induction false} EntriesAt(g: Garbler, k: nat, upTo: nat)
    requires g.Ok() && k < upTo <= |g.gs| && g.gs[k].op == AndOp
    ensures AndsBefore(g.gs, k) < AndsBefore(g.gs, upTo)
    ensures g.Entries(upTo)[AndsBefore(g.gs, k)] == g.EntryAt(k)
    decreases upTo
  {
    if k + 1 < upTo {
      EntriesAt(g, k, upTo - 1);
    }
  }

  /** The AND step of the run, from its operands. */
  lemma AndStep(g: Garbler, e: Evaluator, k: nat)
    requires Joint(g, e) && k < |g.gs| && g.gs[k].op == AndOp && e.Received(k) == g.EntryAt(k)
    requires var c := g.gs[k];
      && e.Cell(c.in0).lab == Xor(g.Label(c.in0), Sel(e.Cell(c.in0).mask, g.delta)) && e.Cell(c.in0).mask == PlainMask(g, e, c.in0)
      && e.Cell(c.in1).lab == Xor(g.Label(c.in1), Sel(e.Cell(c.in1).mask, g.delta)) && e.Cell(c.in1).mask == PlainMask(g, e, c.in1)
    ensures var w := g.n + k;
      e.Cell(w).lab == Xor(g.Label(w), Sel(e.Cell(w).mask, g.delta)) && e.Cell(w).mask == PlainMask(g, e, w)
  {
    hide Paired, Xor, AndCell, AndEntry, AndLabel;
    var c, w, d1, d2 := g.gs[k], g.n + k, g.delta, e.delta;
    SharesArePaired(g.n, g.gs, g.shares, e.shares, g.lg, e.lg, d1, d2, c.in0);
    SharesArePaired(g.n, g.gs, g.shares, e.shares, g.lg, e.lg, d1, d2, c.in1);
    SharesArePaired(g.n, g.gs, g.shares, e.shares, g.lg, e.lg, d1, d2, w);
    assert SigmaOk(g, e, k);
    AndIsCorrect(g.h, AndsBefore(g.gs, k), g.Label(c.in0), g.Label(c.in1), e.Cell(c.in0), e.Cell(c.in1),
                 g.ShareAt(c.in0), e.ShareAt(c.in0), g.ShareAt(c.in1), e.ShareAt(c.in1), g.ShareAt(w), e.ShareAt(w),
                 g.Sigma(k), e.Sigma(k), d1, d2);
  }
}
