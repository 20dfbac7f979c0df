/** A session's state against the ledger that the calls alone determine. */
module SessionBooks {
  import opened Blocks
  import opened Shares
  import opened Circuits
  import opened Engines
  import opened Options
  import opened Protocols
  import opened FlushPlans
  import opened Flushes
  import opened CarriedStates
  import opened Sessions
  import opened Cones
  import opened Ledgers

  /** The recorder's cache of a constant. */
  function CacheOf(o: Option<nat>): int {
    match o
    case None => -1
    case Some(w) => w
  }

  function OptionOf(cache: int): Option<nat> {
    if cache < 0 then None else Some(cache)
  }

  /** The session has handed out, carried and recorded what the ledger says. */
  ghost predicate Matches(l: Ledger, v: View) {
    && v.nextId == l.next && v.carried1.Keys == l.kept && l.open == ConesOf(v.chunk)
    && v.const0 == CacheOf(l.zero) && v.const1 == CacheOf(l.one)
  }

  /** The ledger of a session that a user program starts from. */
  ghost function StartingBook(v: View): Ledger {
    Ledger([], v.nextId, v.carried1.Keys, ConesOf(v.chunk), OptionOf(v.const0), OptionOf(v.const1), [])
  }

  lemma StartMatches(v: View, d1: Block, d2: Block)
    requires v.Ok(d1, d2)
    ensures Matches(StartingBook(v), v)
  {
    hide CarriedOk, Explains, Chunk;
  }

  /** An input batch against its book; what a finished batch held no longer matters. */
  ghost predicate BookIs(k: Book, es: seq<Entry>, finished: bool) {
    && k.finished == finished
    && (!finished ==>
          && k.wires == AllIds(es) && (k.known <==> forall a | 0 <= a < |es| :: KnownOwner(es[a].owner))
          && (k.secret <==> AnySecretBit(es)))
  }

  lemma BookGrows(k: Book, es: seq<Entry>, e: Entry, l: Ledger)
    requires BookIs(k, es, false) && |e.bits1| == |e.ids| && forall i | 0 <= i < |e.ids| :: e.ids[i] == l.next + i
    ensures BookIs(Book(k.wires + l.Range(|e.bits1|), k.finished, k.known && KnownOwner(e.owner),
                        k.secret || (e.owner != PUBLIC && e.bits1 != [])), es + [e], false)
  {
    var all := es + [e];
    assert e.ids == l.Next(|e.bits1|);
    assert all[|es|] == e && forall a | 0 <= a < |es| :: all[a] == es[a];
    assert AllIds(all) == AllIds(es) + l.Range(|e.bits1|) by {
      forall id: nat
        ensures id in AllIds(all) <==> id in AllIds(es) || id in l.Range(|e.bits1|)
      {
        if id in AllIds(es) {
          var a :| 0 <= a < |es| && id in es[a].ids;
          assert id in all[a].ids;
        }
        if id in l.Range(|e.bits1|) {
          assert id in all[|es|].ids;
        }
      }
    }
    if AnySecretBit(es) {
      var a :| 0 <= a < |es| && es[a].owner != PUBLIC && es[a].bits1 != [];
      assert all[a] == es[a];
    }
  }

  /** A recorded gate. */
  lemma GateMatches(l: Ledger, v: View, op: Op, a: nat, b: nat)
    requires Matches(l, v) && op != Const0 && op != Const1
    ensures Matches(l.Record(op, a, b), v.Recorded(Gate(a, b, v.nextId, op)))
    ensures l.Record(op, a, b).handles == l.handles + [v.nextId]
  {
    hide ConeOf;
    OneMoreCone(v.chunk, Gate(a, b, v.nextId, op));
    assert l.Next(1) == [l.next];
  }

  /** A constant: recorded, or the one the chunk already has. */
  lemma ConstantMatches(l: Ledger, v: View, bit: bool)
    requires Matches(l, v)
    ensures var cache := if bit then v.const1 else v.const0;
      && (cache >= 0 <==> (if bit then l.one else l.zero).Some?)
      && (cache >= 0 ==> Matches(l.WithConstant(bit), v) && l.WithConstant(bit).handles == l.handles + [cache])
      && (cache < 0 ==> Matches(l.WithConstant(bit), v.Recorded(Gate(0, 0, v.nextId, if bit then Const1 else Const0)))
                        && l.WithConstant(bit).handles == l.handles + [v.nextId])
    ensures l.WithConstant(bit).batches == l.batches
  {
    hide ConeOf;
    OneMoreCone(v.chunk, Gate(0, 0, v.nextId, if bit then Const1 else Const0));
    assert l.Next(1) == [l.next];
  }

  /** Fresh wires, carried at once. */
  lemma KeptMatches(l: Ledger, v: View, after: View, n: nat, ids: seq<nat>)
    requires Matches(l, v) && |ids| == n && forall i | 0 <= i < n :: ids[i] == v.nextId + i
    requires after.nextId == v.nextId + n && after.chunk == v.chunk && after.const0 == v.const0 && after.const1 == v.const1
    requires forall id: nat :: id in after.carried1 <==> id in v.carried1 || id in ids
    ensures Matches(l.HandKept(n), after) && l.HandKept(n).handles == l.handles + ids
  {
    hide ConesOf;
    assert ids == l.Next(n);
    assert forall id: nat :: id in after.carried1.Keys <==> id in l.HandKept(n).kept;
  }

  /** Fresh wires that wait. */
  lemma HandedMatches(l: Ledger, v: View, after: View, n: nat, ids: seq<nat>)
    requires Matches(l, v) && |ids| == n && forall i | 0 <= i < n :: ids[i] == v.nextId + i
    requires after.nextId == v.nextId + n && after.chunk == v.chunk && after.const0 == v.const0 && after.const1 == v.const1
    requires after.carried1 == v.carried1
    ensures Matches(l.Hand(n), after) && l.Hand(n).handles == l.handles + ids
  {
    hide ConesOf;
    assert ids == l.Next(n);
  }

  lemma FinishedMatches(l: Ledger, v: View, after: View, more: set<nat>)
    requires Matches(l, v) && after.nextId == v.nextId
    requires after.chunk == v.chunk && after.const0 == v.const0 && after.const1 == v.const1
    requires forall id: nat :: id in after.carried1 <==> id in v.carried1 || id in more
    ensures Matches(l.(kept := l.kept + more), after)
  {
    hide ConesOf;
    assert forall id: nat :: id in after.carried1.Keys <==> id in l.kept + more;
  }

  /** What a flush finds, read off the ledger. */
  lemma FlushRead(l: Ledger, v: View, ws: seq<nat>, d1: Block, d2: Block)
    requires Matches(l, v) && v.Ok(d1, d2)
    ensures Flushable(v, ws) <==> l.Flushable(ws)
    ensures AnyPending(v, ws) <==> l.AnyOpen(ws)
    ensures FlushTravels(v.chunk, ws) <==> l.FlushStays(ws)
    ensures forall w: nat :: w in l.open <==> w in v.pending
  {
    hide View.Ok, FlushTravels, ConeRight, Chunk, External;
    ChunkFacts(v, d1, d2);
    ConesAreRight(v.chunk);
    TravelsByCones(v.chunk, ws);
    forall w: nat
      ensures w in l.open <==> w in v.pending
      ensures w in v.pending ==> w !in v.carried1
    {
      StatesPartition(v, d1, d2, w);
    }
    forall v1: nat
      ensures External(v.chunk, ws, v1) <==> exists i | 0 <= i < |ws| :: ws[i] in l.open && v1 in l.open[ws[i]].outside
    {
      OutsideReads(v.chunk, ws, v1);
    }
    FlushableByCones(l, v, ws);
  }

  lemma FlushableByCones(l: Ledger, v: View, ws: seq<nat>)
    requires v.carried1.Keys == l.kept
    requires forall w: nat :: (w in l.open <==> w in v.pending) && (w in v.pending ==> w !in v.carried1)
    requires forall x: nat :: External(v.chunk, ws, x) <==> exists i | 0 <= i < |ws| :: ws[i] in l.open && x in l.open[ws[i]].outside
    ensures Flushable(v, ws) <==> l.Flushable(ws)
  {
    hide External;
    if Flushable(v, ws) {
      forall i | 0 <= i < |ws|
        ensures ws[i] in l.kept || (ws[i] in l.open && l.open[ws[i]].outside <= l.kept)
      {
        if ws[i] !in l.kept {
          assert ws[i] in v.pending;
          forall x | x in l.open[ws[i]].outside
            ensures x in l.kept
          {
            assert External(v.chunk, ws, x);
          }
        }
      }
    }
    if l.Flushable(ws) {
      forall x: nat | External(v.chunk, ws, x)
        ensures x in v.carried1
      {
        var i :| 0 <= i < |ws| && ws[i] in l.open && x in l.open[ws[i]].outside;
        assert ws[i] !in l.kept by { assert ws[i] !in v.carried1.Keys; }
      }
    }
  }

  lemma FlushMatches(l: Ledger, v: View, ws: seq<nat>, after: View, d1: Block, d2: Block)
    requires Matches(l, v) && v.Ok(d1, d2) && Sessions.Flushed(v, ws, after)
    ensures Matches(l.Flushed(ws), after)
  {
    hide View.Ok, FlushOff, ConeOf;
    FlushRead(l, v, ws, d1, d2);
    assert forall id: nat :: id in after.carried1.Keys <==> id in l.Flushed(ws).kept;
    assert ConesOf([]) == map[];
  }

  lemma CheckpointMatches(l: Ledger, v: View, ws: seq<nat>, after: View)
    requires Matches(l, v) && after.nextId == v.nextId && after.chunk == [] && after.const0 == after.const1 == -1
    requires forall id: nat :: id in after.carried1 <==> id in ws
    ensures Matches(l.Flushed(ws).(kept := set w | w in ws), after)
  {
    assert forall id: nat :: id in after.carried1.Keys <==> id in (set w | w in ws);
    assert ConesOf([]) == map[];
  }

  lemma AllKeptIs(l: Ledger, v: View, ws: seq<nat>)
    requires Matches(l, v)
    ensures l.AllKept(ws) <==> forall i | 0 <= i < |ws| :: ws[i] in v.carried1
  {
    hide ConesOf;
    assert forall i | 0 <= i < |ws| :: ws[i] in v.carried1.Keys <==> ws[i] in v.carried1;
  }

  lemma WiresAppend(handles: seq<nat>, a: seq<nat>, b: seq<nat>)
    ensures WiresOf(handles, a + b) == WiresOf(handles, a) + WiresOf(handles, b)
  {
  }

  // ---- which runs and flushes two honest parties fail ----

  /** The differences between the parties' opened masks fail the c_gamma check of the call `cmd` in state `v`. */
  ghost predicate Disturbs(v: View, handles: seq<nat>, cmd: Command, lg: nat -> Share) {
    match cmd
    case RunBody(calls, outs, args) => RunDisturbs(v, WiresOf(handles, Flat<nat>(args, |args|)), calls, outs, lg)
    case RunCompiled(prog, args) => RunDisturbs(v, WiresOf(handles, Flat<nat>(args, |args|)), prog.gates, prog.outputs, lg)
    case Checkpoint(keeps) => !FlushPasses(v, WiresOf(handles, keeps), lg)
    case Reveal(ws, _, keeps) => !FlushPasses(v, WiresOf(handles, ws + keeps), lg)
    case _ => false
  }

  ghost predicate RunDisturbs(v: View, args: seq<nat>, calls: seq<Gate>, outs: seq<nat>, lg: nat -> Share) {
    && Body(|args|, calls, outs)
    && !RunUndisturbed(|args|, calls, MasksAt(v.carried1, args), MasksAt(v.carried2, args), BundlesAt(v.carried1, args), lg)
  }
}
