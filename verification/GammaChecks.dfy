/** The c_gamma check: when it passes, for arbitrary ciphertexts and whether or not the parties agree on the inputs' opened
    masks. */
module GammaChecks {
  import opened Blocks
  import opened Shares
  import opened Circuits
  import opened Cells
  import opened HalfGates
  import opened MaskOffsets

  /** c_gamma at one AND where the garbler holds the operand masks `ma`, `mb` and the evaluator `la`, `lb`: the witnesses
      agree exactly when what the differences select from the garbler's MACs is what a wrong mask adds. */
  lemma WitnessesAgreeIff(ma: bool, mb: bool, la: bool, lb: bool, lm: bool, sa1: Share, sa2: Share, sb1: Share, sb2: Share,
                          sg1: Share, sg2: Share, sig1: Share, sig2: Share, d1: Block, d2: Block)
    requires GoodDeltas(d1, d2)
    requires Paired(sa1, sa2, d1, d2) && Paired(sb1, sb2, d1, d2) && Paired(sg1, sg2, d1, d2) && Paired(sig1, sig2, d1, d2)
    requires Hidden(sig1, sig2) == (Hidden(sa1, sa2) && Hidden(sb1, sb2))
    ensures CheckWitness(ma, mb, sa1, sb1, sg1, sig1) == EvalWitness(la, lb, lm, sa2, sb2, sg2, sig2, d2)
      <==> Xor(Sel(ma != la, sb1.mac), Sel(mb != lb, sa1.mac))
           == Sel(lm != Right(la, lb, Hidden(sa1, sa2), Hidden(sb1, sb2), Hidden(sg1, sg2)), d2)
  {
    hide Xor, Sel, Paired, CheckWitness, EvalWitness, Hidden, Right, GoodDeltas;
    var shift := Xor(Sel(ma != la, sb1.mac), Sel(mb != lb, sa1.mac));
    var wrong := Sel(lm != Right(la, lb, Hidden(sa1, sa2), Hidden(sb1, sb2), Hidden(sg1, sg2)), d2);
    ShiftedWitness(ma, mb, la, lb, sa1, sb1, sg1, sig1);
    WrongMaskShows(la, lb, lm, sa1, sa2, sb1, sb2, sg1, sg2, sig1, sig2, d1, d2);
    SummandsAgreeIff(CheckWitness(la, lb, sa1, sb1, sg1, sig1), shift, wrong);
  }

  lemma SummandsAgreeIff(w: Block, p: Block, q: Block)
    ensures Xor(w, p) == Xor(w, q) <==> p == q
  {
    assert Xor(w, Xor(w, p)) == p && Xor(w, Xor(w, q)) == q;
  }

  /** What other operand masks do to the garbler's witness. */
  lemma ShiftedWitness(ma: bool, mb: bool, la: bool, lb: bool, sa: Share, sb: Share, sg: Share, sig: Share)
    ensures CheckWitness(ma, mb, sa, sb, sg, sig)
         == Xor(CheckWitness(la, lb, sa, sb, sg, sig), Xor(Sel(ma != la, sb.mac), Sel(mb != lb, sa.mac)))
  {
    hide Xor, Sel;
    SelXor(ma != la, la, sb.mac);
    SelXor(mb != lb, lb, sa.mac);
    ShiftTerms(Xor(sig.mac, sg.mac), Sel(la, sb.mac), Sel(lb, sa.mac), Sel(ma != la, sb.mac), Sel(mb != lb, sa.mac));
  }

  lemma ShiftTerms(k: Block, b: Block, a: Block, ob: Block, oa: Block)
    ensures Xor(Xor(k, Xor(ob, b)), Xor(oa, a)) == Xor(Xor(Xor(k, b), a), Xor(ob, oa))
  {
  }

  /** Over agreed operand masks the witnesses differ by the global key exactly when the mask is wrong. */
  lemma WrongMaskShows(la: bool, lb: bool, lm: bool, sa1: Share, sa2: Share, sb1: Share, sb2: Share,
                       sg1: Share, sg2: Share, sig1: Share, sig2: Share, d1: Block, d2: Block)
    requires Paired(sa1, sa2, d1, d2) && Paired(sb1, sb2, d1, d2) && Paired(sg1, sg2, d1, d2) && Paired(sig1, sig2, d1, d2)
    requires Hidden(sig1, sig2) == (Hidden(sa1, sa2) && Hidden(sb1, sb2))
    ensures EvalWitness(la, lb, lm, sa2, sb2, sg2, sig2, d2)
         == Xor(CheckWitness(la, lb, sa1, sb1, sg1, sig1),
                Sel(lm != Right(la, lb, Hidden(sa1, sa2), Hidden(sb1, sb2), Hidden(sg1, sg2)), d2))
  {
    hide Xor, Sel, Paired, CheckWitness, Bit;
    var t1 := (((((la && lb) != lm) != (la && Bit(sb2))) != (lb && Bit(sa2))) != Bit(sig2)) != Bit(sg2);
    var t2 := (Bit(sig1) != Bit(sg1)) != ((la && Bit(sb1)) != (lb && Bit(sa1)));
    var keys := Xor(Xor(sig2.key, sg2.key), Xor(Sel(la, sb2.key), Sel(lb, sa2.key)));
    var wrong := lm != Right(la, lb, Hidden(sa1, sa2), Hidden(sb1, sb2), Hidden(sg1, sg2));
    CheckForm(la, lb, sa1, sa2, sb1, sb2, sg1, sg2, sig1, sig2, d1, d2);
    EvalTerms(Sel(t1, d2), Sel(la, sb2.key), Sel(lb, sa2.key), sig2.key, sg2.key);
    assert t1 == (t2 != wrong);
    SelXor(t2, wrong, d2);
    XorAssociates(keys, Sel(t2, d2), Sel(wrong, d2));
  }

  lemma XorAssociates(a: Block, b: Block, c: Block)
    ensures Xor(Xor(a, b), c) == Xor(a, Xor(b, c))
  {
  }

  lemma CheckForm(la: bool, lb: bool, sa1: Share, sa2: Share, sb1: Share, sb2: Share,
                  sg1: Share, sg2: Share, sig1: Share, sig2: Share, d1: Block, d2: Block)
    requires Paired(sa1, sa2, d1, d2) && Paired(sb1, sb2, d1, d2) && Paired(sg1, sg2, d1, d2) && Paired(sig1, sig2, d1, d2)
    ensures CheckWitness(la, lb, sa1, sb1, sg1, sig1)
         == Xor(Xor(Xor(sig2.key, sg2.key), Xor(Sel(la, sb2.key), Sel(lb, sa2.key))),
                Sel((Bit(sig1) != Bit(sg1)) != ((la && Bit(sb1)) != (lb && Bit(sa1))), d2))
  {
    hide Xor;
    var eb, ea, es, eg := Sel(la && Bit(sb1), d2), Sel(lb && Bit(sa1), d2), Sel(Bit(sig1), d2), Sel(Bit(sg1), d2);
    SelDistributes(la, sb2.key, Sel(Bit(sb1), d2));
    SelDistributes(lb, sa2.key, Sel(Bit(sa1), d2));
    CheckTerms(sig2.key, es, sg2.key, eg, Sel(la, sb2.key), eb, Sel(lb, sa2.key), ea);
    SelXor(Bit(sig1), Bit(sg1), d2);
    SelXor(la && Bit(sb1), lb && Bit(sa1), d2);
    SelXor(Bit(sig1) != Bit(sg1), (la && Bit(sb1)) != (lb && Bit(sa1)), d2);
  }

  lemma CheckTerms(ks: Block, es: Block, kg: Block, eg: Block, kb: Block, eb: Block, ka: Block, ea: Block)
    ensures Xor(Xor(Xor(Xor(ks, es), Xor(kg, eg)), Xor(kb, eb)), Xor(ka, ea))
         == Xor(Xor(Xor(ks, kg), Xor(kb, ka)), Xor(Xor(es, eg), Xor(eb, ea)))
  {
  }

  lemma EvalTerms(t: Block, kb: Block, ka: Block, ks: Block, kg: Block)
    ensures Xor(Xor(Xor(Xor(t, kb), ka), ks), kg) == Xor(Xor(Xor(ks, kg), Xor(kb, ka)), t)
  {
  }

  /** The mask the evaluator should have recovered at the AND of gate `k`, from the masks it has at its operands. */
  ghost predicate MaskIsRight(g: Garbler, e: Evaluator, k: nat)
    requires Joint(g, e) && k < |g.gs| && g.gs[k].op == AndOp
  {
    var c := g.gs[k];
    e.Cell(g.n + k).mask
      == Right(e.Cell(c.in0).mask, e.Cell(c.in1).mask, Lambda(g, e, c.in0), Lambda(g, e, c.in1), Lambda(g, e, g.n + k))
  }

  /** The garbler re-propagates from the evaluator's AND masks over its own opened input masks, agreed or not. */
  ghost predicate Rechecks(g: Garbler, e: Evaluator, c: Checker) {
    && g.Ok() && e.Ok() && c.Ok()
    && c.n == g.n == e.n && c.gs == g.gs == e.gs && c.shares == g.shares && c.lg == g.lg && c.sigma == g.sigma
    && c.received == e.AndMasks(|e.gs|)
  }

  lemma RechecksFacts(g: Garbler, e: Evaluator, c: Checker)
    requires Rechecks(g, e, c)
    ensures c.Ok() && e.Ok() && g.Ok() && c.gs == e.gs == g.gs && c.n == e.n == g.n
    ensures |c.masks| == |e.masks| == |g.shares| == g.n && Ordered(g.n, g.gs)
  {
  }

  lemma {:induction false} AndMasksAt(e: Evaluator, k: nat, upTo: nat)
    requires e.Ok() && k < upTo <= |e.gs| && e.gs[k].op == AndOp
    ensures AndsBefore(e.gs, k) < AndsBefore(e.gs, upTo)
    ensures e.AndMasks(upTo)[AndsBefore(e.gs, k)] == e.Cell(e.n + k).mask
    decreases upTo
  {
    hide Evaluator.Cell;
    if k + 1 < upTo {
      AndMasksAt(e, k, upTo - 1);
    }
  }

  /** Where the garbler's re-propagated masks differ from the evaluator's: exactly where the inputs' differences reach,
      whatever ciphertexts the evaluator received. */
  lemma {:induction false} CheckerMaskOff(g: Garbler, e: Evaluator, c: Checker, w: nat)
    requires Rechecks(g, e, c) && w < g.n + |g.gs|
    ensures c.Mask(w) == (e.Cell(w).mask != Offset(g.n, g.gs, Differences(c.masks, e.masks), w))
    decreases w
  {
    hide Evaluator.Cell, Evaluator.AndMasks, ShareOf;
    if w < g.n {
      InputCell(e, w);
    } else {
      var k, t := w - g.n, g.gs[w - g.n];
      LinearCell(e, k);
      if t.op == AndOp {
        AndMasksAt(e, k, |e.gs|);
      } else if !t.IsConst() {
        CheckerMaskOff(g, e, c, t.in0);
        if t.op != NotOp {
          CheckerMaskOff(g, e, c, t.in1);
        }
      }
    }
  }

  lemma InputCell(e: Evaluator, w: nat)
    requires e.Ok() && w < e.n
    ensures e.Cell(w).mask == e.masks[w]
  {
  }

  /** From agreed input masks both parties hold the same opened mask at every wire. */
  lemma CheckerSeesSameMasks(g: Garbler, e: Evaluator, c: Checker, w: nat)
    requires Rechecks(g, e, c) && c.masks == e.masks && w < g.n + |g.gs|
    ensures c.Mask(w) == e.Cell(w).mask
  {
    hide Offset;
    CheckerMaskOff(g, e, c, w);
    AgreedStaysAgreed(g.n, g.gs, Differences(c.masks, e.masks), w);
  }

  /** At the AND of gate `k`, with the garbler's opened input masks `m1`: what the operands' differences select from the
      garbler's MACs is what the evaluator's mask being wrong adds. */
  ghost predicate WitnessFits(g: Garbler, e: Evaluator, m1: seq<bool>, k: nat)
    requires Joint(g, e) && |m1| == g.n && k < |g.gs| && g.gs[k].op == AndOp
  {
    var t, offs := g.gs[k], Differences(m1, e.masks);
    Xor(Sel(Offset(g.n, g.gs, offs, t.in0), g.ShareAt(t.in1).mac), Sel(Offset(g.n, g.gs, offs, t.in1), g.ShareAt(t.in0).mac))
      == Sel(!MaskIsRight(g, e, k), e.delta)
  }

  lemma WitnessAtAgreesIff(g: Garbler, e: Evaluator, c: Checker, k: nat)
    requires Joint(g, e) && Rechecks(g, e, c) && k < |g.gs| && g.gs[k].op == AndOp
    ensures c.WitnessAt(k) == e.WitnessAt(k) <==> WitnessFits(g, e, c.masks, k)
  {
    hide Paired, CheckWitness, EvalWitness, AndCell, Right, Xor, Sel, Offset, Differences, Evaluator.Cell, Checker.Mask;
    hide ShareOf, Evaluator.AndMasks, Hidden, ConstsUnique;
    var t, w, d1, d2 := g.gs[k], g.n + k, g.delta, e.delta;
    CheckerMaskOff(g, e, c, t.in0);
    CheckerMaskOff(g, e, c, t.in1);
    SharesArePaired(g.n, g.gs, g.shares, e.shares, g.lg, e.lg, d1, d2, t.in0);
    SharesArePaired(g.n, g.gs, g.shares, e.shares, g.lg, e.lg, d1, d2, t.in1);
    SharesArePaired(g.n, g.gs, g.shares, e.shares, g.lg, e.lg, d1, d2, w);
    assert SigmaOk(g, e, k);
    WitnessesAgreeIff(c.Mask(t.in0), c.Mask(t.in1), e.Cell(t.in0).mask, e.Cell(t.in1).mask, e.Cell(w).mask,
                      g.ShareAt(t.in0), e.ShareAt(t.in0), g.ShareAt(t.in1), e.ShareAt(t.in1), g.ShareAt(w), e.ShareAt(w),
                      g.Sigma(k), e.Sigma(k), d1, d2);
  }

  lemma WitnessesUnfold(e: Evaluator, c: Checker, k: nat)
    requires c.Ok() && e.Ok() && c.gs == e.gs && c.n == e.n && k <= |c.gs|
    ensures k == 0 ==> c.Witnesses(k) == [] && e.Witnesses(k) == []
    ensures k > 0 ==> |c.Witnesses(k - 1)| == |e.Witnesses(k - 1)|
    ensures k > 0 && c.gs[k - 1].op == AndOp ==>
      c.Witnesses(k) == c.Witnesses(k - 1) + [c.WitnessAt(k - 1)] && e.Witnesses(k) == e.Witnesses(k - 1) + [e.WitnessAt(k - 1)]
    ensures k > 0 && c.gs[k - 1].op != AndOp ==> c.Witnesses(k) == c.Witnesses(k - 1) && e.Witnesses(k) == e.Witnesses(k - 1)
  {
    hide Checker.WitnessAt, Evaluator.WitnessAt;
  }

  lemma AppendsAgreeIff<T>(a: seq<T>, b: seq<T>, x: T, y: T)
    requires |a| == |b|
    ensures a + [x] == b + [y] <==> a == b && x == y
  {
    if a + [x] == b + [y] {
      assert a == (a + [x])[..|a|] && b == (b + [y])[..|b|];
      assert x == (a + [x])[|a|] && y == (b + [y])[|b|];
    }
  }

  /** The witness vectors over the first `k` gates agree exactly when the witnesses fit at every AND there. */
  lemma {:induction false} WitnessPrefixesAgreeIff(g: Garbler, e: Evaluator, c: Checker, k: nat)
    requires Joint(g, e) && Rechecks(g, e, c) && k <= |g.gs|
    ensures |c.masks| == g.n
    ensures c.Witnesses(k) == e.Witnesses(k) <==> forall j | 0 <= j < k && g.gs[j].op == AndOp :: WitnessFits(g, e, c.masks, j)
  {
    hide Joint, Rechecks, WitnessFits, Checker.Witnesses, Evaluator.Witnesses, Checker.WitnessAt, Evaluator.WitnessAt;
    hide AndsBefore;
    RechecksFacts(g, e, c);
    WitnessesUnfold(e, c, k);
    if k > 0 {
      WitnessPrefixesAgreeIff(g, e, c, k - 1);
      if g.gs[k - 1].op == AndOp {
        WitnessAtAgreesIff(g, e, c, k - 1);
        AppendsAgreeIff(c.Witnesses(k - 1), e.Witnesses(k - 1), c.WitnessAt(k - 1), e.WitnessAt(k - 1));
      }
    }
  }

  ghost predicate AllFit(g: Garbler, e: Evaluator, m1: seq<bool>)
    requires Joint(g, e) && |m1| == g.n
  {
    forall k | 0 <= k < |g.gs| && g.gs[k].op == AndOp :: WitnessFits(g, e, m1, k)
  }

  ghost predicate AllRight(g: Garbler, e: Evaluator)
    requires Joint(g, e)
  {
    forall k | 0 <= k < |g.gs| && g.gs[k].op == AndOp :: MaskIsRight(g, e, k)
  }

  /** When the c_gamma check passes, for arbitrary received ciphertexts and arbitrary input masks at the two parties. */
  lemma CheckPassesIff(g: Garbler, e: Evaluator, c: Checker)
    requires Joint(g, e) && Rechecks(g, e, c)
    ensures |c.masks| == g.n && (c.Witnesses(|g.gs|) == e.Witnesses(|g.gs|) <==> AllFit(g, e, c.masks))
  {
    WitnessPrefixesAgreeIff(g, e, c, |g.gs|);
  }

  // ---- agreed input masks, arbitrary ciphertexts ----

  /** Over agreed input masks the witnesses fit exactly where the recovered masks are right. */
  lemma AgreedFitIff(g: Garbler, e: Evaluator)
    requires Joint(g, e)
    ensures |e.masks| == g.n && (AllFit(g, e, e.masks) <==> AllRight(g, e))
  {
    hide Joint, WitnessFits, MaskIsRight;
    JointFacts(g, e);
    forall k | 0 <= k < |g.gs| && g.gs[k].op == AndOp
      ensures WitnessFits(g, e, e.masks, k) <==> MaskIsRight(g, e, k)
    {
      AgreedFitsIff(g, e, k);
    }
  }

  lemma AgreedFitsIff(g: Garbler, e: Evaluator, k: nat)
    requires Joint(g, e) && k < |g.gs| && g.gs[k].op == AndOp
    ensures |e.masks| == g.n && (WitnessFits(g, e, e.masks, k) <==> MaskIsRight(g, e, k))
  {
    hide Offset, MaskIsRight, Paired, ShareOf;
    AgreedStaysAgreed(g.n, g.gs, Differences(e.masks, e.masks), g.gs[k].in0);
    AgreedStaysAgreed(g.n, g.gs, Differences(e.masks, e.masks), g.gs[k].in1);
    assert 0 in e.delta && 0 !in ZERO;
  }

  /** Over agreed input masks the check is exact: for arbitrary received ciphertexts and parity bits, it passes iff every
      AND mask the evaluator recovered is the right one for the masks of its operands. */
  lemma GammaCheckIsExact(g: Garbler, e: Evaluator, c: Checker)
    requires Joint(g, e) && Rechecks(g, e, c) && c.masks == e.masks
    ensures c.Witnesses(|g.gs|) == e.Witnesses(|g.gs|) <==> AllRight(g, e)
  {
    hide Joint, Rechecks, AllFit, AllRight, Checker.Witnesses, Evaluator.Witnesses;
    RechecksFacts(g, e, c);
    CheckPassesIff(g, e, c);
    AgreedFitIff(g, e);
  }

  /** Right AND masks decode: every wire's opened mask is its plaintext value blinded by its secret mask, whatever the
      ciphertexts. */
  lemma {:induction false} RightMasksDecode(g: Garbler, e: Evaluator, w: nat)
    requires Joint(g, e) && AllRight(g, e) && w < g.n + |g.gs|
    ensures e.Cell(w).mask == PlainMask(g, e, w)
    decreases w
  {
    hide Joint, PlainMask, MaskIsRight, Evaluator.Cell;
    JointFacts(g, e);
    if w < g.n {
      InputStep(g, e, w);
    } else {
      var t := g.gs[w - g.n];
      if !t.IsConst() {
        RightMasksDecode(g, e, t.in0);
        if t.op != NotOp {
          RightMasksDecode(g, e, t.in1);
        }
      }
      if t.op == AndOp {
        PlainMasksAreRight(g, e, w - g.n);
      } else {
        LinearMaskStep(g, e, w - g.n);
      }
    }
  }

  /** From agreed input masks a passed check decodes: every wire's opened mask is its plaintext value blinded by its secret
      mask. */
  lemma PassedCheckDecodes(g: Garbler, e: Evaluator, c: Checker, w: nat)
    requires Joint(g, e) && Rechecks(g, e, c) && c.masks == e.masks && w < g.n + |g.gs|
    requires c.Witnesses(|g.gs|) == e.Witnesses(|g.gs|)
    ensures e.Cell(w).mask == PlainMask(g, e, w) && c.Mask(w) == PlainMask(g, e, w)
  {
    hide Joint, Rechecks, PlainMask, AllRight, Checker.Mask, Evaluator.Cell, Checker.Witnesses, Evaluator.Witnesses;
    JointFacts(g, e);
    RechecksFacts(g, e, c);
    CheckerSeesSameMasks(g, e, c, w);
    GammaCheckIsExact(g, e, c);
    RightMasksDecode(g, e, w);
  }

  /** The step of a constant, an XOR or a NOT. */
  lemma LinearMaskStep(g: Garbler, e: Evaluator, k: nat)
    requires Joint(g, e) && k < |g.gs| && g.gs[k].op != AndOp
    requires !g.gs[k].IsConst() ==> e.Cell(g.gs[k].in0).mask == PlainMask(g, e, g.gs[k].in0)
    requires g.gs[k].op == XorOp ==> e.Cell(g.gs[k].in1).mask == PlainMask(g, e, g.gs[k].in1)
    ensures e.Cell(g.n + k).mask == PlainMask(g, e, g.n + k)
  {
    hide Joint, Lambda, Evaluator.Cell, Inputs, Plain;
    JointFacts(g, e);
    LinearLambda(g, e, k);
    LinearPlain(g.n, g.gs, Inputs(g, e), k);
    LinearCell(e, k);
  }

  lemma LinearLambda(g: Garbler, e: Evaluator, k: nat)
    requires Joint(g, e) && k < |g.gs|
    ensures g.gs[k].IsConst() ==> !Lambda(g, e, g.n + k)
    ensures g.gs[k].op == NotOp ==> Lambda(g, e, g.n + k) == Lambda(g, e, g.gs[k].in0)
    ensures g.gs[k].op == XorOp ==> Lambda(g, e, g.n + k) == (Lambda(g, e, g.gs[k].in0) != Lambda(g, e, g.gs[k].in1))
  {
    hide Paired, Hidden;
    NoSharePaired(g.delta, e.delta);
    if g.gs[k].op == XorOp {
      LambdaOfXor(g, e, g.n + k);
    }
  }

  lemma LinearPlain(n: nat, gs: seq<Gate>, x: seq<bool>, k: nat)
    requires Ordered(n, gs) && |x| == n && k < |gs|
    ensures gs[k].IsConst() ==> Plain(n, gs, x, n + k) == (gs[k].op == Const1)
    ensures gs[k].op == NotOp ==> Plain(n, gs, x, n + k) == !Plain(n, gs, x, gs[k].in0)
    ensures gs[k].op == XorOp ==> Plain(n, gs, x, n + k) == (Plain(n, gs, x, gs[k].in0) != Plain(n, gs, x, gs[k].in1))
  {
  }

  lemma LinearCell(e: Evaluator, k: nat)
    requires e.Ok() && k < |e.gs|
    ensures e.gs[k].IsConst() ==> e.Cell(e.n + k).mask == (e.gs[k].op == Const1)
    ensures e.gs[k].op == NotOp ==> e.Cell(e.n + k).mask == !e.Cell(e.gs[k].in0).mask
    ensures e.gs[k].op == XorOp ==> e.Cell(e.n + k).mask == (e.Cell(e.gs[k].in0).mask != e.Cell(e.gs[k].in1).mask)
  {
    hide AndCell, ShareOf;
  }

  lemma PlainMasksAreRight(g: Garbler, e: Evaluator, k: nat)
    requires Joint(g, e) && k < |g.gs| && g.gs[k].op == AndOp
    requires e.Cell(g.gs[k].in0).mask == PlainMask(g, e, g.gs[k].in0) && e.Cell(g.gs[k].in1).mask == PlainMask(g, e, g.gs[k].in1)
    ensures e.Cell(g.n + k).mask == PlainMask(g, e, g.n + k) <==> MaskIsRight(g, e, k)
  {
    hide Evaluator.Cell, Lambda, Inputs;
  }

  // ---- honest ciphertexts, arbitrary input masks ----

  /** On honestly garbled entries every recovered mask is right. */
  lemma HonestMasksAreRight(g: Garbler, e: Evaluator, k: nat)
    requires Joint(g, e) && e.stream == g.Entries(|g.gs|) && k < |g.gs| && g.gs[k].op == AndOp
    ensures MaskIsRight(g, e, k)
  {
    hide Joint, MaskIsRight, PlainMask, Evaluator.Cell, Garbler.Entries;
    JointFacts(g, e);
    EvaluationIsCorrect(g, e, g.gs[k].in0);
    EvaluationIsCorrect(g, e, g.gs[k].in1);
    EvaluationIsCorrect(g, e, g.n + k);
    PlainMasksAreRight(g, e, k);
  }

  /** Over honest ciphertexts the witnesses fit exactly when no AND is disturbed. */
  lemma HonestFitIff(g: Garbler, e: Evaluator, m1: seq<bool>)
    requires Joint(g, e) && e.stream == g.Entries(|g.gs|) && |m1| == g.n
    ensures |g.shares| == |e.masks| == g.n && Ordered(g.n, g.gs)
    ensures AllFit(g, e, m1) <==> Undisturbed(g.n, g.gs, Differences(m1, e.masks), g.shares, g.lg)
  {
    hide Joint, WitnessFits, UndisturbedAt, Garbler.Entries, Ordered;
    JointShapes(g, e);
    forall k | 0 <= k < |g.gs| && g.gs[k].op == AndOp
      ensures WitnessFits(g, e, m1, k) <==> UndisturbedAt(g.n, g.gs, Differences(m1, e.masks), g.shares, g.lg, k)
    {
      HonestMasksAreRight(g, e, k);
      RightFitsIff(g, e, m1, k);
    }
  }

  lemma JointShapes(g: Garbler, e: Evaluator)
    requires Joint(g, e)
    ensures g.Ok() && e.Ok() && g.n == e.n && g.gs == e.gs
    ensures |g.shares| == |e.masks| == g.n && Ordered(g.n, g.gs)
  {
  }

  /** When two honest parties pass the check: exactly when no AND is disturbed by the differences between their input
      masks. */
  lemma HonestCheckPassesIff(g: Garbler, e: Evaluator, c: Checker)
    requires Joint(g, e) && Rechecks(g, e, c) && e.stream == g.Entries(|g.gs|)
    ensures |g.shares| == |c.masks| == |e.masks| == g.n && Ordered(g.n, g.gs)
    ensures c.Witnesses(|g.gs|) == e.Witnesses(|g.gs|)
      <==> Undisturbed(g.n, g.gs, Differences(c.masks, e.masks), g.shares, g.lg)
  {
    hide Joint, Rechecks, AllFit, Undisturbed, Garbler.Entries, Checker.Witnesses, Evaluator.Witnesses, Ordered;
    RechecksFacts(g, e, c);
    CheckPassesIff(g, e, c);
    HonestFitIff(g, e, c.masks);
  }

  lemma RightFitsIff(g: Garbler, e: Evaluator, m1: seq<bool>, k: nat)
    requires Joint(g, e) && |m1| == g.n && k < |g.gs| && g.gs[k].op == AndOp && MaskIsRight(g, e, k)
    ensures WitnessFits(g, e, m1, k) <==> UndisturbedAt(g.n, g.gs, Differences(m1, e.masks), g.shares, g.lg, k)
  {
    hide Offset, MaskIsRight, Paired, ShareOf, Differences, Xor, Sel;
    var t, offs := g.gs[k], Differences(m1, e.masks);
    XorZeroIffEqual(Sel(Offset(g.n, g.gs, offs, t.in0), g.ShareAt(t.in1).mac),
                    Sel(Offset(g.n, g.gs, offs, t.in1), g.ShareAt(t.in0).mac));
    NothingSelected(e.delta);
  }

  lemma NothingSelected(d: Block)
    ensures Sel(false, d) == ZERO
  {
  }

  /** From agreed input masks an honest run always passes the check. */
  lemma HonestRunPassesCheck(g: Garbler, e: Evaluator, c: Checker)
    requires Joint(g, e) && Rechecks(g, e, c) && e.stream == g.Entries(|g.gs|) && c.masks == e.masks
    ensures c.Witnesses(|g.gs|) == e.Witnesses(|g.gs|)
  {
    hide Joint, Rechecks, Undisturbed, Garbler.Entries, Checker.Witnesses, Evaluator.Witnesses, Ordered;
    HonestCheckPassesIff(g, e, c);
    SafeArgumentsDoNotDisturb(g.n, g.gs, Differences(c.masks, e.masks), g.shares, g.lg);
  }
}
