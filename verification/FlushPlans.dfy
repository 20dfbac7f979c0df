/** Planning a flush of the recorded chunk (flush_plan.h): dead-code elimination, input discovery, and renumbering into
    a canonical program.

    A chunk names wires by recorder ids, which never restart: its gates drive increasing ids and read earlier ones, some
    of the chunk itself (local) and some materialized before it. A plan renames wires: `origin[c]` is the recorder id of
    wire `c` of the compacted program. */
module FlushPlans {
  import opened Circuits

  /** What the recorder guarantees about a chunk. */
  ghost predicate Chunk(gs: seq<Gate>) {
    && (forall j, k | 0 <= j < k < |gs| :: gs[j].out < gs[k].out)
    && (forall k | 0 <= k < |gs| && !gs[k].IsConst() ::
          gs[k].in0 < gs[k].out && (gs[k].op != NotOp ==> gs[k].in1 < gs[k].out))
    && ConstsUnique(gs)
  }

  ghost predicate Local(gs: seq<Gate>, w: nat) {
    exists k | 0 <= k < |gs| :: gs[k].out == w
  }

  /** The backward closure of the keep list: gate `k` drives a kept wire or feeds a needed gate. */
  ghost predicate Needed(gs: seq<Gate>, keeps: seq<nat>, k: nat)
    requires k < |gs|
    decreases |gs| - k
  {
    gs[k].out in keeps || exists j | k < j < |gs| :: Needed(gs, keeps, j) && gs[j].Reads(gs[k].out)
  }

  /** Some needed gate reads `v`, which no gate of the chunk drives. */
  ghost predicate External(gs: seq<Gate>, keeps: seq<nat>, v: nat) {
    !Local(gs, v) && exists k | 0 <= k < |gs| :: Needed(gs, keeps, k) && gs[k].Reads(v)
  }

  datatype FlushPlan = FlushPlan(prog: Program, inputIds: seq<nat>, outputIds: seq<nat>, ok: bool)

  ghost predicate NoDuplicates(s: seq<nat>) {
    forall i, j | 0 <= i < j < |s| :: s[i] != s[j]
  }

  /** The operands a gate reads, in order. */
  function Operands(g: Gate): (r: seq<nat>)
    ensures forall w :: w in r <==> g.Reads(w)
  {
    if g.IsConst() then [] else if g.op == NotOp then [g.in0] else [g.in0, g.in1]
  }

  /** The wires the chunk drives. */
  ghost function Driven(gs: seq<Gate>): set<nat> {
    set k | 0 <= k < |gs| :: gs[k].out
  }

  /** What the needed gates among the first `k` read, in emission order. */
  ghost function NeededReads(gs: seq<Gate>, keeps: seq<nat>, k: nat): seq<nat>
    requires k <= |gs|
  {
    if k == 0 then []
    else NeededReads(gs, keeps, k - 1) + (if Needed(gs, keeps, k - 1) then Operands(gs[k - 1]) else [])
  }

  /** The members of `among` in `s`, in the order in which `s` shows them first. */
  function FirstSeen(s: seq<nat>, among: set<nat>): seq<nat> {
    if s == [] then [] else
    var before, v := FirstSeen(s[..|s| - 1], among), s[|s| - 1];
    if v in among && v !in before then before + [v] else before
  }

  /** `s` shows `u` before it shows `v`. */
  ghost predicate ShownBefore(s: seq<nat>, u: nat, v: nat) {
    exists p | 0 <= p < |s| :: s[p] == u && v !in s[..p]
  }

  /** `FirstSeen` lists exactly the members, once each, and sorted by where they show first. */
  lemma {:induction false} FirstSeenIsOrdered(s: seq<nat>, among: set<nat>)
    ensures var r := FirstSeen(s, among);
      && NoDuplicates(r) && (forall v :: v in r <==> v in s && v in among)
      && (forall i, j | 0 <= i < j < |r| :: ShownBefore(s, r[i], r[j]))
  {
    if s != [] {
      var t, v := s[..|s| - 1], s[|s| - 1];
      FirstSeenIsOrdered(t, among);
      var r := FirstSeen(s, among);
      assert s == t + [v];
      forall i, j | 0 <= i < j < |r|
        ensures ShownBefore(s, r[i], r[j])
      {
        LongerStillShows(t, v, r[i], r[j]);
      }
    }
  }

  lemma LongerStillShows(t: seq<nat>, v: nat, u: nat, w: nat)
    requires ShownBefore(t, u, w) || (u in t && w !in t)
    ensures ShownBefore(t + [v], u, w)
  {
    if u in t && w !in t {
      var p :| 0 <= p < |t| && t[p] == u;
      assert (t + [v])[p] == u && (t + [v])[..p] == t[..p];
    } else {
      var p :| 0 <= p < |t| && t[p] == u && w !in t[..p];
      assert (t + [v])[p] == u && (t + [v])[..p] == t[..p];
    }
  }

  /** `c` is the chunk gate `g`, renumbered: same operation, next compact output, operands by their new names. */
  ghost predicate Renamed(c: Gate, g: Gate, at: nat, origin: seq<nat>) {
    && c.op == g.op && c.out == at < |origin| && origin[at] == g.out
    && (if g.IsConst() then c.in0 == 0 else c.in0 < at && origin[c.in0] == g.in0)
    && (if g.IsConst() || g.op == NotOp then c.in1 == 0 else c.in1 < at && origin[c.in1] == g.in1)
  }

  /** The compacted gates are exactly the gates `kept` of the chunk, in order and renamed. */
  ghost predicate Compacts(gs: seq<Gate>, kept: seq<nat>, n: nat, cgates: seq<Gate>, origin: seq<nat>) {
    && |cgates| == |kept| && |origin| == n + |kept|
    && (forall i, j | 0 <= i < j < |kept| :: kept[i] < kept[j])
    && (forall i | 0 <= i < |kept| :: kept[i] < |gs| && Renamed(cgates[i], gs[kept[i]], n + i, origin))
  }

  // ---- the chunk's own meaning ----

  /** The value a gate gives its output under the wire values `v`. */
  predicate GateValue(g: Gate, v: nat -> bool) {
    match g.op
    case Const0 => false
    case Const1 => true
    case AndOp => v(g.in0) && v(g.in1)
    case XorOp => v(g.in0) != v(g.in1)
    case NotOp => !v(g.in0)
  }

  /** `v` gives every wire of the chunk the value its gate computes. */
  ghost predicate Explains(gs: seq<Gate>, v: nat -> bool) {
    forall k | 0 <= k < |gs| :: v(gs[k].out) == GateValue(gs[k], v)
  }

  /** The chunk's first `k` gates run in order over `env`. */
  ghost function ChunkValues(gs: seq<Gate>, env: nat -> bool, k: nat): nat -> bool
    requires k <= |gs|
  {
    if k == 0 then env else
    var before := ChunkValues(gs, env, k - 1);
    (w: nat) => if w == gs[k - 1].out then GateValue(gs[k - 1], before) else before(w)
  }

  /** Running the chunk over any values of the earlier wires explains it and leaves those values alone. */
  lemma {:induction false} RunningExplains(gs: seq<Gate>, env: nat -> bool, k: nat)
    requires Chunk(gs) && k <= |gs|
    ensures var v := ChunkValues(gs, env, k);
      && (forall j | 0 <= j < k :: v(gs[j].out) == GateValue(gs[j], v))
      && (forall w: nat | (forall j | 0 <= j < k :: gs[j].out != w) :: v(w) == env(w))
  {
    hide ConstsUnique, GateValue;
    if k > 0 {
      RunningExplains(gs, env, k - 1);
      var before, v := ChunkValues(gs, env, k - 1), ChunkValues(gs, env, k);
      forall j | 0 <= j < k
        ensures v(gs[j].out) == GateValue(gs[j], v)
      {
        assert j < k - 1 ==> gs[j].out < gs[k - 1].out;
        SameOperandsSameValue(gs[j], before, v);
      }
    }
  }

  lemma SameOperandsSameValue(g: Gate, v: nat -> bool, w: nat -> bool)
    requires !g.IsConst() ==> v(g.in0) == w(g.in0) && (g.op != NotOp ==> v(g.in1) == w(g.in1))
    ensures GateValue(g, v) == GateValue(g, w)
  {
  }

  // ---- planning ----

  ghost predicate IndexOf(gs: seq<Gate>, index: map<nat, nat>) {
    && (forall k | 0 <= k < |gs| :: gs[k].out in index && index[gs[k].out] == k)
    && (forall w | w in index :: index[w] < |gs| && gs[index[w]].out == w)
  }

  method IndexChunk(gs: seq<Gate>) returns (index: map<nat, nat>)
    requires Chunk(gs)
    ensures IndexOf(gs, index)
  {
    index := map[];
    for k := 0 to |gs|
      invariant forall j | 0 <= j < k :: gs[j].out in index && index[gs[j].out] == j
      invariant forall w | w in index :: index[w] < k && gs[index[w]].out == w
    {
      index := index[gs[k].out := k];
    }
  }

  /** Everything a marked gate or the keep list asks for is marked or waiting. */
  ghost predicate Pursued(gs: seq<Gate>, keeps: seq<nat>, needed: seq<bool>, stack: seq<nat>)
    requires |needed| == |gs|
  {
    && (forall k | 0 <= k < |gs| && gs[k].out in keeps :: needed[k] || gs[k].out in stack)
    && (forall j, k | 0 <= k < |gs| && 0 <= j < |gs| && needed[j] && gs[j].Reads(gs[k].out) :: needed[k] || gs[k].out in stack)
  }

  ghost predicate Justified(gs: seq<Gate>, keeps: seq<nat>, needed: seq<bool>, stack: seq<nat>)
    requires |needed| == |gs|
  {
    && (forall k | 0 <= k < |gs| && needed[k] :: Needed(gs, keeps, k))
    && (forall k | 0 <= k < |gs| && gs[k].out in stack :: Needed(gs, keeps, k))
  }

  lemma {:induction false} PursuedIsComplete(gs: seq<Gate>, keeps: seq<nat>, needed: seq<bool>, k: nat)
    requires |needed| == |gs| && Pursued(gs, keeps, needed, []) && k < |gs| && Needed(gs, keeps, k)
    ensures needed[k]
    decreases |gs| - k
  {
    if gs[k].out !in keeps {
      var j :| k < j < |gs| && Needed(gs, keeps, j) && gs[j].Reads(gs[k].out);
      PursuedIsComplete(gs, keeps, needed, j);
    }
  }

  /** The kept wires of the chunk: the roots of the work list. */
  method PushRoots(keeps: seq<nat>, index: map<nat, nat>) returns (stack: seq<nat>)
    ensures forall w :: w in stack <==> w in keeps && w in index
  {
    stack := [];
    for i := 0 to |keeps|
      invariant forall w :: w in stack <==> w in keeps[..i] && w in index
    {
      assert keeps[..i + 1] == keeps[..i] + [keeps[i]];
      if keeps[i] in index {
        stack := stack + [keeps[i]];
      }
    }
    assert keeps[..|keeps|] == keeps;
  }

  /** The work list: pop a wire, mark its gate, push its operands. It terminates, and marks exactly the closure. */
  method MarkNeeded(gs: seq<Gate>, keeps: seq<nat>, index: map<nat, nat>) returns (needed: seq<bool>)
    requires Chunk(gs) && IndexOf(gs, index)
    ensures |needed| == |gs| && forall k | 0 <= k < |gs| :: needed[k] <==> Needed(gs, keeps, k)
  {
    hide Chunk, ConstsUnique, Needed, Pursued, Justified, Operands;
    needed := seq(|gs|, _ => false);
    var stack := PushRoots(keeps, index);
    NothingMarked(gs, keeps, index, needed, stack);
    while stack != []
      invariant |needed| == |gs|
      invariant Pursued(gs, keeps, needed, stack) && Justified(gs, keeps, needed, stack)
      decreases multiset(needed)[false], |stack|
    {
      var w := stack[|stack| - 1];
      ghost var was := stack;
      stack := stack[..|stack| - 1];
      assert was == stack + [w];
      if w in index && !needed[index[w]] {
        var k := index[w];
        MarkStep(gs, keeps, needed, was, stack, k);
        needed := needed[k := true];
        stack := stack + Operands(gs[k]);
      } else {
        PopStep(gs, keeps, needed, was, stack, w);
      }
    }
    MarkedIsExact(gs, keeps, needed);
  }

  lemma NothingMarked(gs: seq<Gate>, keeps: seq<nat>, index: map<nat, nat>, needed: seq<bool>, stack: seq<nat>)
    requires IndexOf(gs, index) && |needed| == |gs| && forall k | 0 <= k < |gs| :: !needed[k]
    requires forall w :: w in stack <==> w in keeps && w in index
    ensures Pursued(gs, keeps, needed, stack) && Justified(gs, keeps, needed, stack)
  {
  }

  lemma MarkedIsExact(gs: seq<Gate>, keeps: seq<nat>, needed: seq<bool>)
    requires |needed| == |gs| && Pursued(gs, keeps, needed, []) && Justified(gs, keeps, needed, [])
    ensures forall k | 0 <= k < |gs| :: needed[k] <==> Needed(gs, keeps, k)
  {
    forall k | 0 <= k < |gs| && Needed(gs, keeps, k)
      ensures needed[k]
    {
      PursuedIsComplete(gs, keeps, needed, k);
    }
  }

  lemma PopStep(gs: seq<Gate>, keeps: seq<nat>, needed: seq<bool>, was: seq<nat>, stack: seq<nat>, w: nat)
    requires |needed| == |gs| && was == stack + [w]
    requires Pursued(gs, keeps, needed, was) && Justified(gs, keeps, needed, was)
    requires forall k | 0 <= k < |gs| && gs[k].out == w :: needed[k]
    ensures Pursued(gs, keeps, needed, stack) && Justified(gs, keeps, needed, stack)
  {
    hide Needed;
  }

  lemma MarkStep(gs: seq<Gate>, keeps: seq<nat>, needed: seq<bool>, was: seq<nat>, stack: seq<nat>, k: nat)
    requires Chunk(gs) && |needed| == |gs| && k < |gs| && !needed[k] && was == stack + [gs[k].out]
    requires Pursued(gs, keeps, needed, was) && Justified(gs, keeps, needed, was)
    ensures Pursued(gs, keeps, needed[k := true], stack + Operands(gs[k]))
    ensures Justified(gs, keeps, needed[k := true], stack + Operands(gs[k]))
    ensures multiset(needed[k := true])[false] < multiset(needed)[false]
  {
    hide Pursued, Justified, Needed, ConstsUnique;
    OneFewerUnmarked(needed, k);
    MarkPursues(gs, keeps, needed, was, stack, k);
    MarkJustifies(gs, keeps, needed, was, stack, k);
  }

  lemma OneFewerUnmarked(needed: seq<bool>, k: nat)
    requires k < |needed| && !needed[k]
    ensures multiset(needed[k := true])[false] < multiset(needed)[false]
  {
    assert needed[k] in multiset(needed);
  }

  lemma MarkPursues(gs: seq<Gate>, keeps: seq<nat>, needed: seq<bool>, was: seq<nat>, stack: seq<nat>, k: nat)
    requires |needed| == |gs| && k < |gs| && was == stack + [gs[k].out] && Pursued(gs, keeps, needed, was)
    requires forall j | 0 <= j < |gs| && gs[j].out == gs[k].out :: j == k
    ensures Pursued(gs, keeps, needed[k := true], stack + Operands(gs[k]))
  {
    hide Gate.Reads;
  }

  lemma MarkJustifies(gs: seq<Gate>, keeps: seq<nat>, needed: seq<bool>, was: seq<nat>, stack: seq<nat>, k: nat)
    requires Chunk(gs) && |needed| == |gs| && k < |gs| && was == stack + [gs[k].out] && Justified(gs, keeps, needed, was)
    ensures Justified(gs, keeps, needed[k := true], stack + Operands(gs[k]))
  {
    hide Needed, ConstsUnique, Operands, Gate.Reads;
    assert gs[k].out in was;
    forall j | 0 <= j < |gs| && gs[j].out in stack + Operands(gs[k])
      ensures Needed(gs, keeps, j)
    {
      if gs[j].out in stack {
        assert gs[j].out in was;
      } else {
        FeedsNeeded(gs, keeps, j, k);
      }
    }
  }

  lemma FeedsNeeded(gs: seq<Gate>, keeps: seq<nat>, j: nat, k: nat)
    requires Chunk(gs) && j < |gs| && k < |gs| && gs[k].Reads(gs[j].out) && Needed(gs, keeps, k)
    ensures Needed(gs, keeps, j)
  {
    assert gs[j].out < gs[k].out;
  }

  /** What the operand scan of the first `k` gates has found. */
  ghost predicate Scanned(gs: seq<Gate>, needed: seq<bool>, materialized: set<nat>, k: nat, ids: seq<nat>, remap: map<nat, nat>, ok: bool)
    requires |needed| == |gs| && k <= |gs|
  {
    && Numbered(ids, remap)
    && (forall v | v in ids :: v in materialized && Reached(gs, needed, k, v))
    && (forall v | Reached(gs, needed, k, v) && v in materialized :: v in ids)
    && (ok <==> forall v | Reached(gs, needed, k, v) :: v in materialized)
  }

  /** The remap table numbers the program inputs in the order they were found. */
  ghost predicate Numbered(ids: seq<nat>, remap: map<nat, nat>) {
    && NoDuplicates(ids)
    && (forall v | v in remap :: v in ids)
    && (forall i | 0 <= i < |ids| :: ids[i] in remap && remap[ids[i]] == i)
  }

  /** One of the first `k` gates that is marked reads `v` from outside the chunk. */
  ghost predicate Reached(gs: seq<Gate>, needed: seq<bool>, k: nat, v: nat)
    requires |needed| == |gs| && k <= |gs|
  {
    !Local(gs, v) && exists j | 0 <= j < k :: needed[j] && gs[j].Reads(v)
  }

  /** `note_input`: an operand from outside the chunk becomes the next program input, once, if it is materialized. */
  method NoteInput(index: map<nat, nat>, materialized: set<nat>, v: nat, ids: seq<nat>, remap: map<nat, nat>, ok: bool)
    returns (ids': seq<nat>, remap': map<nat, nat>, ok': bool)
    requires Numbered(ids, remap)
    ensures Numbered(ids', remap')
    ensures ids' == if v in materialized - index.Keys && v !in ids then ids + [v] else ids
    ensures ok' <==> ok && (v in index || v in ids || v in materialized)
  {
    ids', remap', ok' := ids, remap, ok;
    if v in index || v in remap {
      return;
    }
    if v !in materialized {
      ok' := false;
      return;
    }
    remap' := remap[v := |ids|];
    ids' := ids + [v];
  }

  /** The operands of one gate. */
  method NoteOperands(g: Gate, index: map<nat, nat>, materialized: set<nat>, ids: seq<nat>, remap: map<nat, nat>, ok: bool,
                      ghost seen: seq<nat>)
    returns (ids': seq<nat>, remap': map<nat, nat>, ok': bool)
    requires Numbered(ids, remap) && ids == FirstSeen(seen, materialized - index.Keys)
    ensures Numbered(ids', remap') && ids' == FirstSeen(seen + Operands(g), materialized - index.Keys)
    ensures forall u :: u in ids' <==> u in ids || (g.Reads(u) && u !in index && u in materialized)
    ensures ok' <==> ok && forall u | g.Reads(u) :: u in index || u in ids || u in materialized
  {
    hide Numbered, FirstSeen;
    ids', remap', ok' := ids, remap, ok;
    ghost var among := materialized - index.Keys;
    if !g.IsConst() {
      ids', remap', ok' := NoteInput(index, materialized, g.in0, ids, remap, ok);
      assert g.Reads(g.in0);
      OneMoreSeen(seen, g.in0, among);
      if g.op != NotOp {
        ids', remap', ok' := NoteInput(index, materialized, g.in1, ids', remap', ok');
        assert g.Reads(g.in1);
        OneMoreSeen(seen + [g.in0], g.in1, among);
        assert seen + [g.in0] + [g.in1] == seen + Operands(g);
      }
    } else {
      assert seen + Operands(g) == seen;
    }
  }

  lemma OneMoreSeen(s: seq<nat>, v: nat, among: set<nat>)
    ensures var r := FirstSeen(s, among); FirstSeen(s + [v], among) == if v in among && v !in r then r + [v] else r
  {
    assert (s + [v])[..|s|] == s;
  }

  /** The operand scan: the inputs are what the needed gates read from outside, numbered in the order they are first read. */
  method DiscoverInputs(gs: seq<Gate>, ghost keeps: seq<nat>, index: map<nat, nat>, needed: seq<bool>, materialized: set<nat>)
    returns (ids: seq<nat>, remap: map<nat, nat>, ok: bool)
    requires IndexOf(gs, index) && |needed| == |gs| && forall k | 0 <= k < |gs| :: needed[k] <==> Needed(gs, keeps, k)
    ensures Scanned(gs, needed, materialized, |gs|, ids, remap, ok)
    ensures ids == FirstSeen(NeededReads(gs, keeps, |gs|), materialized - index.Keys)
  {
    hide Numbered, Reached, IndexOf, Gate.Reads, FirstSeen, Needed, Operands;
    ids, remap, ok := [], map[], true;
    NothingScanned(gs, needed);
    NothingSeen(materialized - index.Keys);
    for k := 0 to |gs|
      invariant Scanned(gs, needed, materialized, k, ids, remap, ok)
      invariant ids == FirstSeen(NeededReads(gs, keeps, k), materialized - index.Keys)
    {
      ghost var ids0, ok0 := ids, ok;
      if needed[k] {
        ids, remap, ok := NoteOperands(gs[k], index, materialized, ids, remap, ok, NeededReads(gs, keeps, k));
      } else {
        assert NeededReads(gs, keeps, k + 1) == NeededReads(gs, keeps, k);
      }
      ScanStep(gs, needed, materialized, k, index, ids0, ok0, ids, ok);
    }
  }

  lemma NothingSeen(among: set<nat>)
    ensures FirstSeen([], among) == []
  {
  }

  lemma NothingScanned(gs: seq<Gate>, needed: seq<bool>)
    requires |needed| == |gs|
    ensures Numbered([], map[]) && forall v :: !Reached(gs, needed, 0, v)
  {
  }

  lemma ScanStep(gs: seq<Gate>, needed: seq<bool>, materialized: set<nat>, k: nat, index: map<nat, nat>,
                 ids0: seq<nat>, ok0: bool, ids: seq<nat>, ok: bool)
    requires IndexOf(gs, index) && |needed| == |gs| && k < |gs|
    requires forall v | v in ids0 :: v in materialized && Reached(gs, needed, k, v)
    requires forall v | Reached(gs, needed, k, v) && v in materialized :: v in ids0
    requires ok0 <==> forall v | Reached(gs, needed, k, v) :: v in materialized
    requires forall u :: u in ids <==> u in ids0 || (needed[k] && gs[k].Reads(u) && u !in index && u in materialized)
    requires ok <==> ok0 && forall u | needed[k] && gs[k].Reads(u) :: u in index || u in ids0 || u in materialized
    ensures forall v | v in ids :: v in materialized && Reached(gs, needed, k + 1, v)
    ensures forall v | Reached(gs, needed, k + 1, v) && v in materialized :: v in ids
    ensures ok <==> forall v | Reached(gs, needed, k + 1, v) :: v in materialized
  {
    forall v
      ensures Reached(gs, needed, k + 1, v) <==> Reached(gs, needed, k, v) || (needed[k] && gs[k].Reads(v) && v !in index)
    {
    }
    hide Reached;
  }

  /** `remap[v]`: a name that was never given reads as 0 and is entered as such. */
  method Lookup(remap: map<nat, nat>, v: nat) returns (c: nat, remap': map<nat, nat>)
    ensures v in remap ==> c == remap[v] && remap' == remap
  {
    remap' := if v in remap then remap else remap[v := 0];
    c := remap'[v];
  }

  /** Every name in the table is the right one. */
  ghost predicate Names(remap: map<nat, nat>, origin: seq<nat>) {
    forall w | w in remap :: remap[w] < |origin| && origin[remap[w]] == w
  }

  /** Renumber one needed gate. */
  method CompactGate(g: Gate, at: nat, remap: map<nat, nat>, ghost origin: seq<nat>)
    returns (c: Gate, remap': map<nat, nat>)
    requires |origin| == at
    requires !g.IsConst() ==> g.in0 < g.out && (g.op != NotOp ==> g.in1 < g.out)
    ensures Names(remap, origin) && (forall v | g.Reads(v) :: v in remap) ==>
      && Renamed(c, g, at, origin + [g.out])
      && Names(remap', origin + [g.out])
      && remap'.Keys == remap.Keys + {g.out}
  {
    remap' := remap[g.out := at];
    var in0, in1 := 0, 0;
    if !g.IsConst() {
      assert g.Reads(g.in0);
      in0, remap' := Lookup(remap', g.in0);
      if g.op != NotOp {
        assert g.Reads(g.in1);
        in1, remap' := Lookup(remap', g.in1);
      }
    }
    c := Gate(in0, in1, at, g.op);
  }

  /** The state of compaction before gate `k`. */
  ghost predicate CompactedTo(gs: seq<Gate>, needed: seq<bool>, ids: seq<nat>, remap0: map<nat, nat>, k: nat,
                              remap: map<nat, nat>, cgates: seq<Gate>, kept: seq<nat>, origin: seq<nat>)
    requires |needed| == |gs| && k <= |gs|
  {
    && Compacts(gs, kept, |ids|, cgates, origin) && origin[..|ids|] == ids
    && (forall i | 0 <= i < |kept| :: kept[i] < k && needed[kept[i]])
    && (forall j | 0 <= j < k && needed[j] :: gs[j].out in remap && j in kept)
    && remap0.Keys <= remap.Keys && Names(remap, origin)
  }

  /** Every operand of a needed gate has a name when its turn comes. */
  lemma OperandsNamed(gs: seq<Gate>, keeps: seq<nat>, needed: seq<bool>, ids: seq<nat>, remap0: map<nat, nat>, k: nat,
                      remap: map<nat, nat>, cgates: seq<Gate>, kept: seq<nat>, origin: seq<nat>)
    requires Chunk(gs) && |needed| == |gs| && k < |gs| && needed[k]
    requires forall j | 0 <= j < |gs| :: needed[j] <==> Needed(gs, keeps, j)
    requires forall v | Reached(gs, needed, |gs|, v) :: v in remap0
    requires CompactedTo(gs, needed, ids, remap0, k, remap, cgates, kept, origin)
    ensures forall v | gs[k].Reads(v) :: v in remap
  {
    hide ConstsUnique, Compacts, Names;
    forall v | gs[k].Reads(v)
      ensures v in remap
    {
      if Local(gs, v) {
        var j :| 0 <= j < |gs| && gs[j].out == v;
        assert gs[j].out < gs[k].out;
        FeedsNeeded(gs, keeps, j, k);
      } else {
        assert Reached(gs, needed, |gs|, v);
      }
    }
  }

  lemma CompactStep(gs: seq<Gate>, needed: seq<bool>, ids: seq<nat>, remap0: map<nat, nat>, k: nat, remap: map<nat, nat>,
                    cgates: seq<Gate>, kept: seq<nat>, origin: seq<nat>, c: Gate, remap': map<nat, nat>)
    requires |needed| == |gs| && k < |gs| && needed[k]
    requires CompactedTo(gs, needed, ids, remap0, k, remap, cgates, kept, origin)
    requires Renamed(c, gs[k], |ids| + |kept|, origin + [gs[k].out]) && Names(remap', origin + [gs[k].out])
    requires remap'.Keys == remap.Keys + {gs[k].out}
    ensures CompactedTo(gs, needed, ids, remap0, k + 1, remap', cgates + [c], kept + [k], origin + [gs[k].out])
  {
    hide Names, Needed;
    var origin' := origin + [gs[k].out];
    forall i | 0 <= i < |kept|
      ensures Renamed(cgates[i], gs[kept[i]], |ids| + i, origin')
    {
      assert Renamed(cgates[i], gs[kept[i]], |ids| + i, origin);
    }
  }

  /** Compaction of the needed gates in emission order. */
  method Compact(gs: seq<Gate>, needed: seq<bool>, ids: seq<nat>, remap0: map<nat, nat>, ghost keeps: seq<nat>)
    returns (cgates: seq<Gate>, remap: map<nat, nat>, ghost kept: seq<nat>, ghost origin: seq<nat>)
    requires Chunk(gs) && |needed| == |gs| && forall k | 0 <= k < |gs| :: needed[k] <==> Needed(gs, keeps, k)
    requires Numbered(ids, remap0)
    ensures (forall v | Reached(gs, needed, |gs|, v) :: v in remap0) ==>
      CompactedTo(gs, needed, ids, remap0, |gs|, remap, cgates, kept, origin)
  {
    hide Reached, Needed, CompactedTo, ConstsUnique, Names, Renamed;
    cgates, remap, kept, origin := [], remap0, [], ids;
    ghost var good := forall v | Reached(gs, needed, |gs|, v) :: v in remap0;
    NothingCompacted(gs, needed, ids, remap0);
    for k := 0 to |gs|
      invariant |origin| == |ids| + |cgates|
      invariant good ==> CompactedTo(gs, needed, ids, remap0, k, remap, cgates, kept, origin)
    {
      if needed[k] {
        var c, remap' := CompactGate(gs[k], |ids| + |cgates|, remap, origin);
        if good {
          OperandsNamed(gs, keeps, needed, ids, remap0, k, remap, cgates, kept, origin);
          CompactedFacts(gs, needed, ids, remap0, k, remap, cgates, kept, origin);
          CompactStep(gs, needed, ids, remap0, k, remap, cgates, kept, origin, c, remap');
        }
        remap, cgates, kept, origin := remap', cgates + [c], kept + [k], origin + [gs[k].out];
      } else if good {
        SkipStep(gs, needed, ids, remap0, k, remap, cgates, kept, origin);
      }
    }
  }

  lemma CompactedFacts(gs: seq<Gate>, needed: seq<bool>, ids: seq<nat>, remap0: map<nat, nat>, k: nat,
                       remap: map<nat, nat>, cgates: seq<Gate>, kept: seq<nat>, origin: seq<nat>)
    requires |needed| == |gs| && k <= |gs| && CompactedTo(gs, needed, ids, remap0, k, remap, cgates, kept, origin)
    ensures |kept| == |cgates| && Names(remap, origin)
  {
  }

  lemma SkipStep(gs: seq<Gate>, needed: seq<bool>, ids: seq<nat>, remap0: map<nat, nat>, k: nat,
                 remap: map<nat, nat>, cgates: seq<Gate>, kept: seq<nat>, origin: seq<nat>)
    requires |needed| == |gs| && k < |gs| && !needed[k]
    requires CompactedTo(gs, needed, ids, remap0, k, remap, cgates, kept, origin)
    ensures CompactedTo(gs, needed, ids, remap0, k + 1, remap, cgates, kept, origin)
  {
    hide Compacts, Names;
  }

  lemma NothingCompacted(gs: seq<Gate>, needed: seq<bool>, ids: seq<nat>, remap0: map<nat, nat>)
    requires |needed| == |gs| && Numbered(ids, remap0)
    ensures CompactedTo(gs, needed, ids, remap0, 0, remap0, [], [], ids)
  {
  }

  /** Outputs: the kept wires of the chunk, once each, in keep order. */
  method CollectOutputs(keeps: seq<nat>, index: map<nat, nat>, remap: map<nat, nat>, ghost origin: seq<nat>)
    returns (outs: seq<nat>, ids: seq<nat>)
    ensures NoDuplicates(ids) && forall w :: w in ids <==> w in keeps && w in index
    ensures |outs| == |ids| && ids == FirstSeen(keeps, index.Keys)
    ensures Names(remap, origin) && (forall w | w in keeps && w in index :: w in remap) ==>
      forall i | 0 <= i < |ids| :: outs[i] < |origin| && origin[outs[i]] == ids[i]
  {
    hide FirstSeen;
    outs, ids := [], [];
    NothingSeen(index.Keys);
    var table := remap;
    for i := 0 to |keeps|
      invariant NoDuplicates(ids) && forall w :: w in ids <==> w in keeps[..i] && w in index
      invariant |outs| == |ids| && ids == FirstSeen(keeps[..i], index.Keys)
      invariant (forall w | w in keeps && w in index :: w in remap) ==> table == remap
      invariant Names(remap, origin) && (forall w | w in keeps && w in index :: w in remap) ==>
        forall i | 0 <= i < |ids| :: outs[i] < |origin| && origin[outs[i]] == ids[i]
    {
      assert keeps[..i + 1] == keeps[..i] + [keeps[i]];
      var id := keeps[i];
      OneMoreSeen(keeps[..i], id, index.Keys);
      if id in index && id !in ids {
        var c;
        c, table := Lookup(table, id);
        outs, ids := outs + [c], ids + [id];
      }
    }
    assert keeps[..|keeps|] == keeps;
  }

  // ---- the plan ----

  /** What a successful plan is: a canonical program that renames exactly the needed gates of the chunk. */
  ghost predicate Plans(gs: seq<Gate>, keeps: seq<nat>, plan: FlushPlan, kept: seq<nat>, origin: seq<nat>) {
    var n := |plan.inputIds|;
    && plan.prog.numInputs == n && plan.prog.numWires == |origin|
    && Compacts(gs, kept, n, plan.prog.gates, origin) && origin[..n] == plan.inputIds
    && (forall k | 0 <= k < |gs| :: k in kept <==> Needed(gs, keeps, k))
    && |plan.prog.outputs| == |plan.outputIds|
    && (forall i | 0 <= i < |plan.outputIds| :: plan.prog.outputs[i] < |origin| && origin[plan.prog.outputs[i]] == plan.outputIds[i])
  }

  /** Planning is exact: it fails exactly when a needed gate reads a wire that is neither local nor materialized; inputs
      are the materialized wires that needed gates read from outside, once each, in the order the emitted gates first read
      them; outputs are the kept local wires, once each, in keep order; and on success the program renames exactly the
      needed gates. */
  method PlanFlush(gs: seq<Gate>, keeps: seq<nat>, materialized: set<nat>)
    returns (plan: FlushPlan, ghost kept: seq<nat>, ghost origin: seq<nat>)
    requires Chunk(gs)
    ensures plan.ok <==> forall v | External(gs, keeps, v) :: v in materialized
    ensures NoDuplicates(plan.inputIds) && forall v :: v in plan.inputIds <==> External(gs, keeps, v) && v in materialized
    ensures NoDuplicates(plan.outputIds) && forall w :: w in plan.outputIds <==> w in keeps && Local(gs, w)
    ensures plan.inputIds == FirstSeen(NeededReads(gs, keeps, |gs|), materialized - Driven(gs))
    ensures plan.outputIds == FirstSeen(keeps, Driven(gs))
    ensures plan.ok ==> Plans(gs, keeps, plan, kept, origin)
  {
    hide Needed, Reached, External, Numbered, ConstsUnique, Compacts, Names, IndexOf, Local, CompactedTo, FirstSeen, NeededReads;
    var index := IndexChunk(gs);
    IndexedIsLocal(gs, index);
    var needed := MarkNeeded(gs, keeps, index);
    var ids, remap, ok := DiscoverInputs(gs, keeps, index, needed, materialized);
    ReachedIsExternal(gs, keeps, needed, materialized, ids, remap, ok);
    var cgates;
    cgates, remap, kept, origin := Compact(gs, needed, ids, remap, keeps);
    var outs, outIds := CollectOutputs(keeps, index, remap, origin);
    plan := FlushPlan(Program(|ids|, cgates, outs, |ids| + |cgates|), ids, outIds, ok);
    if ok {
      PlanIsComplete(gs, keeps, needed, plan, remap, kept, origin);
    }
  }

  lemma IndexedIsLocal(gs: seq<Gate>, index: map<nat, nat>)
    requires IndexOf(gs, index)
    ensures (forall w: nat :: w in index <==> Local(gs, w)) && index.Keys == Driven(gs)
  {
  }

  lemma ReachedIsExternal(gs: seq<Gate>, keeps: seq<nat>, needed: seq<bool>, materialized: set<nat>, ids: seq<nat>,
                          remap: map<nat, nat>, ok: bool)
    requires |needed| == |gs| && forall k | 0 <= k < |gs| :: needed[k] <==> Needed(gs, keeps, k)
    requires Scanned(gs, needed, materialized, |gs|, ids, remap, ok)
    ensures Numbered(ids, remap) && NoDuplicates(ids)
    ensures forall v: nat :: v in ids <==> External(gs, keeps, v) && v in materialized
    ensures ok <==> forall v | External(gs, keeps, v) :: v in materialized
    ensures ok ==> forall v | Reached(gs, needed, |gs|, v) :: v in remap
  {
    hide Needed, Gate.Reads, Local;
    forall v: nat
      ensures Reached(gs, needed, |gs|, v) <==> External(gs, keeps, v)
    {
    }
    hide Reached, External;
  }

  lemma PlanIsComplete(gs: seq<Gate>, keeps: seq<nat>, needed: seq<bool>, plan: FlushPlan, remap: map<nat, nat>,
                       kept: seq<nat>, origin: seq<nat>)
    requires |needed| == |gs| && forall k | 0 <= k < |gs| :: needed[k] <==> Needed(gs, keeps, k)
    requires exists remap0 :: CompactedTo(gs, needed, plan.inputIds, remap0, |gs|, remap, plan.prog.gates, kept, origin)
    requires plan.prog.numInputs == |plan.inputIds|
    requires plan.prog.numWires == |plan.inputIds| + |plan.prog.gates|
    requires forall w | w in plan.outputIds :: w in keeps && Local(gs, w)
    requires |plan.prog.outputs| == |plan.outputIds|
    requires Names(remap, origin) && (forall w | w in keeps && Local(gs, w) :: w in remap) ==>
      forall i | 0 <= i < |plan.outputIds| ::
        plan.prog.outputs[i] < |origin| && origin[plan.prog.outputs[i]] == plan.outputIds[i]
    ensures Plans(gs, keeps, plan, kept, origin)
  {
    hide ConstsUnique, Renamed;
    forall w | w in keeps && Local(gs, w)
      ensures w in remap
    {
      var k :| 0 <= k < |gs| && gs[k].out == w;
      assert Needed(gs, keeps, k);
    }
    hide Needed;
  }

  // ---- what a plan is worth ----

  /** Every successful plan is a canonical program. */
  lemma PlanIsCanonical(gs: seq<Gate>, keeps: seq<nat>, plan: FlushPlan, kept: seq<nat>, origin: seq<nat>)
    requires Chunk(gs) && Plans(gs, keeps, plan, kept, origin)
    ensures CanonicalProgram(plan.prog)
  {
    hide Needed;
    var n, cgates := plan.prog.numInputs, plan.prog.gates;
    assert Ordered(n, cgates) by {
      hide ConstsUnique;
      forall i | 0 <= i < |cgates|
        ensures cgates[i].out == n + i
        ensures !cgates[i].IsConst() ==> cgates[i].in0 < n + i && (cgates[i].op != NotOp ==> cgates[i].in1 < n + i)
      {
        assert Renamed(cgates[i], gs[kept[i]], n + i, origin);
      }
    }
    forall i, j | 0 <= i < j < |cgates| && cgates[i].IsConst()
      ensures cgates[i].op != cgates[j].op
    {
      assert Renamed(cgates[i], gs[kept[i]], n + i, origin) && Renamed(cgates[j], gs[kept[j]], n + j, origin);
    }
  }

  /** Planning preserves meaning: under any values that explain the chunk, each wire of the compacted program carries the
      value of the recorder id it renames. */
  lemma {:induction false} PlanKeepsValues(gs: seq<Gate>, keeps: seq<nat>, plan: FlushPlan, kept: seq<nat>, origin: seq<nat>,
                                           v: nat -> bool, x: seq<bool>, c: nat)
    requires Chunk(gs) && Plans(gs, keeps, plan, kept, origin) && Explains(gs, v) && c < |origin|
    requires |x| == |plan.inputIds| && forall i | 0 <= i < |x| :: x[i] == v(plan.inputIds[i])
    requires CanonicalProgram(plan.prog)
    ensures Plain(|x|, plan.prog.gates, x, c) == v(origin[c])
    decreases c
  {
    hide Needed, ConstsUnique, Chunk;
    if c < |x| {
      assert origin[..|x|][c] == origin[c];
    } else {
      var g := plan.prog.gates[c - |x|];
      assert Renamed(g, gs[kept[c - |x|]], c, origin);
      if !g.IsConst() {
        PlanKeepsValues(gs, keeps, plan, kept, origin, v, x, g.in0);
        if g.op != NotOp {
          PlanKeepsValues(gs, keeps, plan, kept, origin, v, x, g.in1);
        }
      }
    }
  }

  /** Running the compacted program over the materialized inputs gives what running the whole chunk gives, at every
      output, for every value of every wire recorded earlier. */
  lemma {:induction false} PlanKeepsMeaning(gs: seq<Gate>, keeps: seq<nat>, plan: FlushPlan, kept: seq<nat>, origin: seq<nat>,
                                            env: nat -> bool, x: seq<bool>, j: nat)
    requires Chunk(gs) && Plans(gs, keeps, plan, kept, origin) && j < |plan.outputIds|
    requires forall i | 0 <= i < |plan.inputIds| :: !Local(gs, plan.inputIds[i])
    requires |x| == |plan.inputIds| && forall i | 0 <= i < |x| :: x[i] == env(plan.inputIds[i])
    ensures CanonicalProgram(plan.prog)
    ensures Plain(|x|, plan.prog.gates, x, plan.prog.outputs[j]) == ChunkValues(gs, env, |gs|)(plan.outputIds[j])
  {
    PlanIsCanonical(gs, keeps, plan, kept, origin);
    RunningExplains(gs, env, |gs|);
    var v := ChunkValues(gs, env, |gs|);
    hide ChunkValues, Needed, Compacts, ConstsUnique, GateValue;
    forall i | 0 <= i < |x|
      ensures x[i] == v(plan.inputIds[i])
    {
      assert !Local(gs, plan.inputIds[i]);
    }
    PlanKeepsValues(gs, keeps, plan, kept, origin, v, x, plan.prog.outputs[j]);
  }
}
