/** Per-wire authenticated state carried between calls (secure_wires.h), and what it stands for at both parties. */
module SecureWireBundles {
  import opened Blocks
  import opened Shares

  /** `label0` is held only by the garbler (party 1), `evalLabel` only by the evaluator. */
  datatype SecureWires = SecureWires(masks: seq<bool>, bundle: seq<Share>, label0: seq<Block>, evalLabel: seq<Block>) {
    /** `check_secure_wires`: the arrays a party relies on all have the same length. */
    predicate WellShaped(party: nat) {
      |bundle| == |masks| && if party == 1 then |label0| == |masks| else |evalLabel| == |masks|
    }

    /** Wires `lo .. hi` as a fresh bundle; a label array is cut only when it is populated. */
    function Slice(lo: nat, hi: nat): SecureWires
      requires lo <= hi <= |masks|
      requires bundle == [] || hi <= |bundle|
      requires label0 == [] || hi <= |label0|
      requires evalLabel == [] || hi <= |evalLabel|
    {
      SecureWires(masks[lo..hi],
                  if bundle == [] then [] else bundle[lo..hi],
                  if label0 == [] then [] else label0[lo..hi],
                  if evalLabel == [] then [] else evalLabel[lo..hi])
    }

    /** `append_bundle`. */
    function Append(w: SecureWires): SecureWires {
      SecureWires(masks + w.masks, bundle + w.bundle, label0 + w.label0, evalLabel + w.evalLabel)
    }
  }

  const NO_WIRES: SecureWires := SecureWires([], [], [], [])

  /** One wire as the two parties hold it. */
  ghost predicate WireOk(s1: Share, s2: Share, lab: Block, ev: Block, mask: bool, d1: Block, d2: Block, value: bool) {
    && Paired(s1, s2, d1, d2)
    && ev == Xor(lab, Sel(mask, d1))
    && value == (mask != Hidden(s1, s2))
  }

  /** The bundles of the two parties are well formed and stand for `values`: shares are correlated, the evaluator holds
      the label that encodes its opened mask, and that mask blinds the value. */
  ghost predicate Encode(w1: SecureWires, w2: SecureWires, d1: Block, d2: Block, values: seq<bool>) {
    && |w1.masks| == |w1.bundle| == |w1.label0| == |values| && w1.evalLabel == []
    && |w2.masks| == |w2.bundle| == |w2.evalLabel| == |values| && w2.label0 == []
    && forall i | 0 <= i < |values| ::
         WireOk(w1.bundle[i], w2.bundle[i], w1.label0[i], w2.evalLabel[i], w2.masks[i], d1, d2, values[i])
  }

  /** The part of well-formedness that opening relies on: correlated shares, and opened masks at the evaluator that blind the
      values. Labels play no role. */
  ghost predicate Blinds(w1: SecureWires, w2: SecureWires, d1: Block, d2: Block, values: seq<bool>) {
    && |w1.masks| == |w1.bundle| == |w2.masks| == |w2.bundle| == |values|
    && forall i | 0 <= i < |values| :: BlindsAt(w1.bundle[i], w2.bundle[i], w2.masks[i], d1, d2, values[i])
  }

  ghost predicate BlindsAt(s1: Share, s2: Share, mask: bool, d1: Block, d2: Block, value: bool) {
    Paired(s1, s2, d1, d2) && value == (mask != Hidden(s1, s2))
  }

  lemma EncodedBlinds(w1: SecureWires, w2: SecureWires, d1: Block, d2: Block, values: seq<bool>)
    requires Encode(w1, w2, d1, d2, values)
    ensures Blinds(w1, w2, d1, d2, values)
  {
    hide Paired, Xor, Hidden;
    forall i | 0 <= i < |values|
      ensures BlindsAt(w1.bundle[i], w2.bundle[i], w2.masks[i], d1, d2, values[i])
    {
      assert WireOk(w1.bundle[i], w2.bundle[i], w1.label0[i], w2.evalLabel[i], w2.masks[i], d1, d2, values[i]);
    }
  }

  /** Both parties hold the same opened masks. */
  ghost predicate Synced(w1: SecureWires, w2: SecureWires) {
    w1.masks == w2.masks
  }

  lemma EncodeAppends(a1: SecureWires, a2: SecureWires, b1: SecureWires, b2: SecureWires, d1: Block, d2: Block,
                      x: seq<bool>, y: seq<bool>)
    requires Encode(a1, a2, d1, d2, x) && Encode(b1, b2, d1, d2, y)
    ensures Encode(a1.Append(b1), a2.Append(b2), d1, d2, x + y)
    ensures Synced(a1, a2) && Synced(b1, b2) ==> Synced(a1.Append(b1), a2.Append(b2))
  {
    hide WireOk;
  }

  lemma EncodeSlices(w1: SecureWires, w2: SecureWires, d1: Block, d2: Block, x: seq<bool>, lo: nat, hi: nat)
    requires Encode(w1, w2, d1, d2, x) && lo <= hi <= |x|
    ensures Encode(w1.Slice(lo, hi), w2.Slice(lo, hi), d1, d2, x[lo..hi])
    ensures Synced(w1, w2) ==> Synced(w1.Slice(lo, hi), w2.Slice(lo, hi))
  {
    hide WireOk;
  }

  lemma EncodedShapes(w1: SecureWires, w2: SecureWires, d1: Block, d2: Block, x: seq<bool>)
    requires Encode(w1, w2, d1, d2, x)
    ensures w1.WellShaped(1) && w2.WellShaped(2)
    ensures |w1.masks| == |w1.bundle| == |w1.label0| == |x| == |w2.masks| == |w2.bundle| == |w2.evalLabel|
    ensures w1.evalLabel == [] && w2.label0 == []
  {
  }
}
