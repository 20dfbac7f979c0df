/** Runs without a single AND. The garbler re-propagates opened masks only in the c_gamma pass, which such a run skips,
    so its masks of XOR and NOT outputs stay at the 0 that slot assignment wrote (engine.h, garbler_path_). This module
    says exactly when that is right. */
module AndFreeRuns {
  import opened Circuits
  import opened Cells

  /** Does slot assignment already leave the right opened mask? Inputs and constants get theirs; an XOR or NOT output
      gets 0. */
  predicate InputOrConst(n: nat, gs: seq<Gate>, w: nat)
    requires w < n + |gs|
  {
    w < n || gs[w - n].IsConst()
  }

  /** In an AND-free run: every output is an input or a constant, or the circuit sends the opened input masks to 0 there. */
  ghost predicate MasksComeOutRight(n: nat, gs: seq<Gate>, ids: seq<nat>, masks: seq<bool>)
    requires Ordered(n, gs) && |masks| == n && forall i | 0 <= i < |ids| :: ids[i] < n + |gs|
  {
    forall i | 0 <= i < |ids| :: InputOrConst(n, gs, ids[i]) || !Plain(n, gs, masks, ids[i])
  }

  lemma {:induction false} NoAndAt(gs: seq<Gate>, k: nat)
    requires NumAnds(gs) == 0 && k < |gs|
    ensures gs[k].op != AndOp
  {
    AndsBeforeMonotone(gs, k, |gs|);
  }

  /** Without ANDs the evaluator's opened masks are the circuit applied to the opened input masks. */
  lemma {:induction false} EvaluatorMaskIsLinear(e: Evaluator, w: nat)
    requires e.Ok() && NumAnds(e.gs) == 0 && w < e.n + |e.gs|
    ensures e.Cell(w).mask == Plain(e.n, e.gs, e.masks, w)
    decreases w
  {
    if w >= e.n {
      NoAndAt(e.gs, w - e.n);
      var g := e.gs[w - e.n];
      if !g.IsConst() {
        EvaluatorMaskIsLinear(e, g.in0);
        if g.op != NotOp {
          EvaluatorMaskIsLinear(e, g.in1);
        }
      }
    }
  }

  /** In one AND-free run over agreed input masks, the parties agree on the mask of wire `w` exactly when `w` is an input
      or a constant, or the circuit happens to send those masks to 0 there. */
  lemma {:induction false} MasksAgreeIff(e: Evaluator, w: nat)
    requires e.Ok() && NumAnds(e.gs) == 0 && w < e.n + |e.gs|
    ensures InitialMask(e.n, e.gs, e.masks, w) == e.Cell(w).mask
      <==> InputOrConst(e.n, e.gs, w) || !Plain(e.n, e.gs, e.masks, w)
  {
    EvaluatorMaskIsLinear(e, w);
  }

  ghost predicate AlwaysZero(n: nat, gs: seq<Gate>, w: nat)
    requires Ordered(n, gs) && w < n + |gs|
  {
    forall m: seq<bool> | |m| == n :: !Plain(n, gs, m, w)
  }

  function Zeros(n: nat): seq<bool> {
    seq(n, i => false)
  }

  function Unit(n: nat, i: nat): seq<bool> {
    seq(n, j => j == i)
  }

  /** A test of `n + 1` evaluations: the circuit gives 0 at `w` on the zero vector and on every unit vector. */
  predicate ZeroOnUnits(n: nat, gs: seq<Gate>, w: nat)
    requires Ordered(n, gs) && w < n + |gs|
  {
    !Plain(n, gs, Zeros(n), w) && forall i | 0 <= i < n :: !Plain(n, gs, Unit(n, i), w)
  }

  function Sum3(a: seq<bool>, b: seq<bool>, c: seq<bool>): (s: seq<bool>)
    requires |a| == |b| == |c|
    ensures |s| == |a|
  {
    seq(|a|, i requires 0 <= i < |a| => (a[i] != b[i]) != c[i])
  }

  /** Without ANDs every wire is an affine function of the inputs. */
  lemma {:induction false} PlainIsAffine(n: nat, gs: seq<Gate>, a: seq<bool>, b: seq<bool>, c: seq<bool>, w: nat)
    requires Ordered(n, gs) && NumAnds(gs) == 0 && |a| == |b| == |c| == n && w < n + |gs|
    ensures Plain(n, gs, Sum3(a, b, c), w) == ((Plain(n, gs, a, w) != Plain(n, gs, b, w)) != Plain(n, gs, c, w))
    decreases w
  {
    hide NumAnds;
    if w >= n {
      NoAndAt(gs, w - n);
      var g := gs[w - n];
      if !g.IsConst() {
        PlainIsAffine(n, gs, a, b, c, g.in0);
        if g.op != NotOp {
          PlainIsAffine(n, gs, a, b, c, g.in1);
        }
      }
    }
  }

  /** The first `k` bits of `m`, then zeros. */
  function FirstBits(m: seq<bool>, k: nat): (r: seq<bool>)
    ensures |r| == |m|
  {
    seq(|m|, i requires 0 <= i < |m| => i < k && m[i])
  }

  lemma {:induction false} ZeroOnPrefixes(n: nat, gs: seq<Gate>, m: seq<bool>, w: nat, k: nat)
    requires Ordered(n, gs) && NumAnds(gs) == 0 && |m| == n && w < n + |gs| && ZeroOnUnits(n, gs, w) && k <= n
    ensures !Plain(n, gs, FirstBits(m, k), w)
  {
    hide NumAnds, Plain;
    if k == 0 {
      assert FirstBits(m, 0) == Zeros(n);
    } else {
      ZeroOnPrefixes(n, gs, m, w, k - 1);
      if m[k - 1] {
        PlainIsAffine(n, gs, FirstBits(m, k - 1), Unit(n, k - 1), Zeros(n), w);
        assert FirstBits(m, k) == Sum3(FirstBits(m, k - 1), Unit(n, k - 1), Zeros(n));
      } else {
        assert FirstBits(m, k) == FirstBits(m, k - 1);
      }
    }
  }

  /** The test decides whether an AND-free circuit computes 0 at `w` on all inputs. */
  lemma AlwaysZeroIff(n: nat, gs: seq<Gate>, w: nat)
    requires Ordered(n, gs) && NumAnds(gs) == 0 && w < n + |gs|
    ensures AlwaysZero(n, gs, w) <==> ZeroOnUnits(n, gs, w)
  {
    hide NumAnds, Plain;
    if AlwaysZero(n, gs, w) {
      assert |Zeros(n)| == n && forall i: nat | i < n :: |Unit(n, i)| == n;
    }
    if ZeroOnUnits(n, gs, w) {
      forall m: seq<bool> | |m| == n
        ensures !Plain(n, gs, m, w)
      {
        ZeroOnPrefixes(n, gs, m, w, n);
        assert FirstBits(m, n) == m;
      }
    }
  }

  ghost predicate AlwaysAgree(n: nat, gs: seq<Gate>, w: nat)
    requires Ordered(n, gs) && w < n + |gs|
  {
    forall m: seq<bool> | |m| == n :: InitialMask(n, gs, m, w) == Plain(n, gs, m, w)
  }

  /** Over all input masks: the parties always agree on an output of an AND-free program exactly when it is an input, a
      constant, or a linear gate that gives 0 on the zero vector and on every unit vector. */
  lemma AlwaysAgreeIff(n: nat, gs: seq<Gate>, w: nat)
    requires Ordered(n, gs) && NumAnds(gs) == 0 && w < n + |gs|
    ensures AlwaysAgree(n, gs, w) <==> InputOrConst(n, gs, w) || ZeroOnUnits(n, gs, w)
  {
    hide NumAnds, ZeroOnUnits;
    AlwaysZeroIff(n, gs, w);
    if AlwaysAgree(n, gs, w) && !InputOrConst(n, gs, w) {
      forall m: seq<bool> | |m| == n
        ensures !Plain(n, gs, m, w)
      {
        assert InitialMask(n, gs, m, w) == Plain(n, gs, m, w);
      }
    }
    if AlwaysZero(n, gs, w) && !InputOrConst(n, gs, w) {
      forall m: seq<bool> | |m| == n
        ensures InitialMask(n, gs, m, w) == Plain(n, gs, m, w)
      {
        assert !Plain(n, gs, m, w);
      }
    }
  }

  /** The smallest disagreement: a lone NOT of an input whose opened mask is 0. */
  lemma NotAloneDisagrees()
    ensures var gs := [Gate(0, 0, 1, NotOp)];
      && Canonical(1, gs) && NumAnds(gs) == 0
      && !InitialMask(1, gs, [false], 1) && Plain(1, gs, [false], 1)
      && !AlwaysAgree(1, gs, 1)
  {
    var gs := [Gate(0, 0, 1, NotOp)];
    assert AndsBefore(gs, 1) == 0;
    assert Plain(1, gs, [false], 1);
    assert |[false]| == 1 && InitialMask(1, gs, [false], 1) != Plain(1, gs, [false], 1);
  }
}
