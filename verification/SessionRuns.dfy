/** Whole sessions: any user program over any session, compared with the plaintext session. */
module SessionRuns {
  import opened Blocks
  import opened Shares
  import opened Circuits
  import opened Engines
  import opened Options
  import opened TriplePools
  import opened Protocols
  import opened FlushPlans
  import opened Flushes
  import opened FlushMasks
  import opened Recorders
  import opened CarriedStates
  import opened Sessions
  import opened Ledgers
  import opened SessionBooks
  import opened ClearSessions

  /** Each handle's wire id carries the handle's plaintext value. */
  ghost predicate Handles(vals: seq<bool>, ids: seq<nat>, values: seq<bool>) {
    && |ids| == |values|
    && forall h | 0 <= h < |ids| :: ids[h] < |vals| && vals[ids[h]] == values[h]
  }

  /** What is noted about a reveal: where the parties' opened masks of its wires differed, and whether everything minted before
      had passed the COT check when the wires were opened. */
  datatype Note = Note(off: seq<bool>, covered: bool)

  /** What the parties have learned is what the plaintext session revealed: BOB and the public the values, ALICE the values
      flipped where the note says, and nobody else anything; and the COT check covered the reveal if the plaintext session says
      so. */
  ghost predicate LearnedRight(learned1: seq<Option<seq<bool>>>, learned2: seq<Option<seq<bool>>>, seen: seq<Seen>, notes: seq<Note>) {
    && |learned1| == |learned2| == |seen| == |notes|
    && forall i | 0 <= i < |seen| :: RevealRight(learned1[i], learned2[i], seen[i], notes[i])
  }

  ghost predicate RevealRight(l1: Option<seq<bool>>, l2: Option<seq<bool>>, s: Seen, note: Note) {
    var n := |s.values|;
    && l2 == Learned(if s.recipient == ALICE then [] else s.values, n)
    && |note.off| == n && (s.recipient == ALICE ==> l1 == Some(Misread(s.values, note.off)))
    && (s.recipient != ALICE ==> l1 == Learned(if s.recipient == BOB then [] else s.values, n))
    && (note.covered <==> s.covered)
  }

  ghost predicate Nowhere(off: seq<bool>) {
    forall i | 0 <= i < |off| :: !off[i]
  }

  /** From note `k` on nothing differed. */
  ghost predicate Quiet(notes: seq<Note>, k: nat) {
    forall i | k <= i < |notes| :: Nowhere(notes[i].off)
  }

  lemma QuietSoFar(notes: seq<Note>)
    ensures Quiet(notes, |notes|)
  {
  }

  lemma QuietGoesOn(notes: seq<Note>, more: seq<Note>, k: nat)
    requires k <= |notes| && notes <= more && Quiet(notes, k) && Quiet(more, |notes|)
    ensures Quiet(more, k)
  {
    hide Nowhere;
  }

  /** ALICE reads the plaintext values exactly at the reveals whose wires had agreed opened masks. */
  lemma AliceLearnsIff(learned1: seq<Option<seq<bool>>>, learned2: seq<Option<seq<bool>>>, seen: seq<Seen>, notes: seq<Note>, i: nat)
    requires LearnedRight(learned1, learned2, seen, notes) && i < |seen| && seen[i].recipient == ALICE
    ensures learned1[i] == Some(seen[i].values) <==> Nowhere(notes[i].off)
  {
    assert RevealRight(learned1[i], learned2[i], seen[i], notes[i]);
  }

  lemma ReadIsValues(vals: seq<bool>, ids: seq<nat>, c: Clear, handles: seq<nat>)
    requires Handles(vals, ids, c.values) && c.Has(handles)
    ensures forall i | 0 <= i < |handles| :: WiresOf(ids, handles)[i] < |vals|
    ensures ValuesAt(vals, WiresOf(ids, handles)) == c.Read(handles)
  {
  }

  lemma HandlesGrow(vals: seq<bool>, ids: seq<nat>, values: seq<bool>, more: seq<bool>, newIds: seq<nat>)
    requires Handles(vals, ids, values) && |newIds| == |more| && forall i | 0 <= i < |more| :: newIds[i] == |vals| + i
    ensures Handles(vals + more, ids + newIds, values + more)
  {
  }

  lemma HandlesAdd(vals: seq<bool>, after: seq<bool>, ids: seq<nat>, values: seq<bool>, w: nat, v: bool)
    requires Handles(vals, ids, values) && vals <= after && w < |after| && after[w] == v
    ensures Handles(after, ids + [w], values + [v])
  {
  }

  lemma HandleAt(vals: seq<bool>, ids: seq<nat>, values: seq<bool>, h: nat)
    requires Handles(vals, ids, values) && h < |values|
    ensures h < |ids| && ids[h] < |vals| && vals[ids[h]] == values[h] && WiresOf(ids, [h])[0] == ids[h]
  {
  }

  function ArgsOf(ids: seq<nat>, args: seq<seq<nat>>): (r: seq<seq<nat>>)
    ensures |r| == |args|
  {
    seq(|args|, k requires 0 <= k < |args| => WiresOf(ids, args[k]))
  }

  lemma {:induction false} FlatArgs(ids: seq<nat>, args: seq<seq<nat>>, k: nat)
    requires k <= |args|
    ensures Flat<nat>(ArgsOf(ids, args), k) == WiresOf(ids, Flat<nat>(args, k))
  {
    hide WiresOf, Flat;
    FlatUnfolds<nat>(args);
    FlatUnfolds<nat>(ArgsOf(ids, args));
    if k == 0 {
      NoWires(ids);
    } else {
      FlatArgs(ids, args, k - 1);
      WiresAppend(ids, Flat<nat>(args, k - 1), args[k - 1]);
      assert ArgsOf(ids, args)[k - 1] == WiresOf(ids, args[k - 1]);
      assert Flat<nat>(args, (k - 1) + 1) == Flat<nat>(args, k - 1) + args[k - 1];
      assert Flat<nat>(ArgsOf(ids, args), (k - 1) + 1) == Flat<nat>(ArgsOf(ids, args), k - 1) + ArgsOf(ids, args)[k - 1];
    }
  }

  lemma NoWires(ids: seq<nat>)
    ensures WiresOf(ids, []) == []
  {
  }

  lemma ArgsAreValues(vals: seq<bool>, ids: seq<nat>, c: Clear, args: seq<seq<nat>>)
    requires Handles(vals, ids, c.values) && c.Has(Flat<nat>(args, |args|)) && ids == c.book.handles
    ensures ArgIds(ArgsOf(ids, args)) == c.book.Args(args) && |c.book.Args(args)| == |Flat<nat>(args, |args|)|
    ensures forall i | 0 <= i < |c.book.Args(args)| :: c.book.Args(args)[i] < |vals|
    ensures ValuesAt(vals, c.book.Args(args)) == c.Read(Flat<nat>(args, |args|))
  {
    hide Flat, WiresOf;
    FlatArgs(ids, args, |args|);
    ReadIsValues(vals, ids, c, Flat<nat>(args, |args|));
  }

  // ---- which calls keep the parties' opened masks agreed ----

  /** A flush that keeps agreed masks agreed. */
  ghost predicate FlushKeepsAgreed(v: View, keeps: seq<nat>) {
    AnyPending(v, keeps) ==> FlushTravels(v.chunk, keeps)
  }

  lemma AgreedFlushPasses(v: View, keeps: seq<nat>, lg: nat -> Share, d1: Block, d2: Block)
    requires v.Ok(d1, d2) && AllAgree(v.carried1, v.carried2)
    ensures FlushPasses(v, keeps, lg)
    ensures FlushKeepsAgreed(v, keeps) ==> forall id | id in keeps && id in v.pending :: !FlushOff(v, keeps, id)
  {
    hide View.Ok, FlushTravels, ChunkUndisturbed, ChunkOutputOff, External, Local, Chunk;
    ChunkFacts(v, d1, d2);
    AgreedFlush(v.chunk, keeps, Differing(v.carried1, v.carried2), Bundles(v.carried1), lg);
    if FlushKeepsAgreed(v, keeps) {
      forall id | id in keeps && id in v.pending
        ensures !FlushOff(v, keeps, id)
      {
        var i :| 0 <= i < |keeps| && keeps[i] == id;
      }
    }
  }

  lemma AgreedFlushStays(v: View, keeps: seq<nat>, after: View, d1: Block, d2: Block)
    requires v.Ok(d1, d2) && after.Ok(d1, d2) && AllAgree(v.carried1, v.carried2) && FlushKeepsAgreed(v, keeps)
    requires Flushed(v, keeps, after)
    ensures AllAgree(after.carried1, after.carried2)
  {
    hide View.Ok, FlushOff, FlushKeepsAgreed, CarriedOk, View.Dropped;
    AgreedFlushPasses(v, keeps, w => NO_SHARE, d1, d2);
    CarriedPart(v, d1, d2);
    CarriedPart(after, d1, d2);
    PendingNotCarried(v, d1, d2);
    FlushedAt(v, keeps, after);
    hide Flushed;
    forall id: nat
      ensures !DiffersAt(after.carried1, after.carried2, id)
    {
      assert !DiffersAt(v.carried1, v.carried2, id);
      assert id in after.carried1.Keys <==> id in after.carried2.Keys;
    }
  }

  lemma PendingNotCarried(v: View, d1: Block, d2: Block)
    requires v.Ok(d1, d2)
    ensures forall id | id in v.carried1 :: id !in v.pending
  {
    hide RecorderOk, Explains, CarriedOk;
  }

  /** Where the carried wires differ after a flush. */
  lemma FlushedAt(v: View, keeps: seq<nat>, after: View)
    requires Flushed(v, keeps, after) && v.carried1.Keys == v.carried2.Keys && forall id | id in v.carried1 :: id !in v.pending
    ensures forall id | id in after.carried1 ::
      DiffersAt(after.carried1, after.carried2, id)
      == if id in v.carried1 then DiffersAt(v.carried1, v.carried2, id) else FlushOff(v, keeps, id)
    ensures forall id | id in after.carried1 && id !in v.carried1 :: id in keeps && id in v.pending
  {
    hide FlushOff;
    forall id | id in v.carried1
      ensures id in v.carried2 && id !in v.pending
    {
      assert id in v.carried1.Keys;
    }
  }

  lemma AgreedArgs(c1: Carried, c2: Carried, ids: seq<nat>)
    requires AllAgree(c1, c2)
    ensures MasksAt(c1, ids) == MasksAt(c2, ids) && Nowhere(OffsAt(c1, c2, ids))
  {
    forall i | 0 <= i < |ids|
      ensures MaskAt(c1, ids[i]) == MaskAt(c2, ids[i])
    {
      assert !DiffersAt(c1, c2, ids[i]);
    }
  }

  /** After a run over agreed arguments that keeps masks agreed, everything still is. */
  lemma AgreedRunStays(c1: Carried, c2: Carried, after1: Carried, after2: Carried, args: seq<nat>, calls: seq<Gate>, outs: seq<nat>, ids: seq<nat>)
    requires AllAgree(c1, c2) && Body(|args|, calls, outs) && OutputMasksTravel(|args|, calls, outs)
    requires RunOutputsOff(|args|, calls, outs, MasksAt(c1, args), MasksAt(c2, args), MasksAt(after1, ids), MasksAt(after2, ids))
    requires forall id: nat :: id in after1 <==> id in c1 || id in ids
    requires forall id | id in c1 :: after1[id] == c1[id]
    requires forall id | id in c2 :: id in after2 && after2[id] == c2[id]
    requires c1.Keys == c2.Keys && after1.Keys == after2.Keys
    ensures AllAgree(after1, after2)
  {
    hide RunOutputsOff, OutputMasksTravel, MasksAt, Body;
    AgreedArgs(c1, c2, args);
    AgreedOutputs(|args|, calls, outs, MasksAt(c1, args), MasksAt(after1, ids), MasksAt(after2, ids));
    forall id: nat
      ensures !DiffersAt(after1, after2, id)
    {
      assert !DiffersAt(c1, c2, id);
      assert id in after1.Keys <==> id in after2.Keys;
      assert id in c1.Keys <==> id in c2.Keys;
      if id in ids {
        var i :| 0 <= i < |ids| && ids[i] == id;
        OneDiffers(after1, after2, ids, i);
      }
    }
  }

  /** A user program at both parties: the wires it was handed, its input batches, and what each party has learned. The ghost
      field `notes` holds a note for every reveal. */
  class Client {
    const session: Session
    var ids: seq<nat>
    var batches: seq<InputBatch>
    var learned1: seq<Option<seq<bool>>>
    var learned2: seq<Option<seq<bool>>>
    ghost var notes: seq<Note>

    ghost predicate BatchesOk()
      reads this`batches, batches, session`vals, session`batchOf, session.ctx`pending
    {
      && (forall i | 0 <= i < |batches| :: batches[i].session == session && batches[i].Valid())
      && (forall i, j | 0 <= i < j < |batches| :: batches[i] != batches[j])
    }

    ghost predicate BooksOk(books: seq<Book>)
      reads this`batches, batches
    {
      |batches| == |books| && forall i | 0 <= i < |books| :: BookIs(books[i], batches[i].entries, batches[i].finished)
    }

    /** The session's wires stand where the plaintext session `c` stands. */
    ghost predicate Stands(c: Clear)
      reads this`ids, this`batches, batches, session, session.ctx, session.q1.pool`drawn, session.q2.pool`drawn
    {
      && session.Valid() && Matches(c.book, session.Now())
      && ids == c.book.handles && Handles(session.vals, ids, c.values)
      && BooksOk(c.book.batches) && BatchesOk()
    }

    /** And so does the COT check. */
    ghost predicate Follows(c: Clear)
      reads this`ids, this`batches, batches, session, session.ctx, session.q1.pool, session.q2.pool
    {
      Stands(c) && (session.Checked() <==> c.checked)
    }

    /** And the parties have learned what they should. */
    ghost predicate Tracks(c: Clear)
      reads this, batches, session, session.ctx, session.q1.pool, session.q2.pool
    {
      Follows(c) && LearnedRight(learned1, learned2, c.seen, notes)
    }

    /** Would the check of call `cmd` fail, its ANDs taking the masks from position `from` of the COT session on? */
    ghost predicate Disturbed(cmd: Command, from: nat)
      reads this`ids, session, session.ctx
    {
      Disturbs(session.Now(), ids, cmd, FreshMasks(session.q1.pool.cot, from))
    }

    ghost predicate Agree()
      reads session`carried1, session`carried2
    {
      AllAgree(session.carried1, session.carried2)
    }

    constructor (session: Session)
      requires session.Valid()
      ensures this.session == session && Tracks(Clear([], [], session.Checked(), StartingBook(session.Now()))) && notes == []
    {
      this.session := session;
      ids, batches, learned1, learned2, notes := [], [], [], [], [];
      new;
      StartMatches(session.Now(), session.q1.pool.delta, session.q2.pool.delta);
    }

    /** Open batches survive every call that hands out only new ids and leaves theirs alone; batch `k` answers for itself. */
    twostate lemma BatchesSurvive(k: nat)
      requires old(BatchesOk()) && batches == old(batches) && old(session.vals) <= session.vals
      requires k < |batches| ==> batches[k].Valid()
      requires forall i | 0 <= i < |batches| && i != k ::
        batches[i].entries == old(batches[i].entries) && batches[i].finished == old(batches[i].finished)
      requires forall id | id in old(session.batchOf) && !(k < |batches| && old(session.batchOf[id]) == batches[k]) ::
        id in session.batchOf && session.batchOf[id] == old(session.batchOf[id])
      requires forall id | id in session.ctx.pending :: id in old(session.ctx.pending) || id >= old(|session.vals|)
      ensures BatchesOk()
    {
      hide BatchFits;
      forall i | 0 <= i < |batches|
        ensures batches[i].Valid()
      {
        var b := batches[i];
        if i != k && !b.finished {
          assert k < |batches| ==> b != batches[k];
          FitsStill(b, b.entries, old(session.vals), old(session.batchOf), old(session.ctx.pending),
                    session.vals, session.batchOf, session.ctx.pending);
        }
      }
    }

    twostate lemma InputsStayAgreed()
      requires session.Valid()
      requires OnlyAgreedAdded(old(session.carried1), old(session.carried2), session.carried1, session.carried2)
      ensures old(Agree()) ==> Agree()
    {
      hide View.Ok, Linked, AllAgree, OnlyAgreedAdded;
      CarriedPart(session.Now(), session.q1.pool.delta, session.q2.pool.delta);
      if old(Agree()) {
        StillAllAgree(old(session.carried1), old(session.carried2), session.carried1, session.carried2);
      }
    }

    method DoConstant(bit: bool, ghost c: Clear) returns (st: Status)
      requires Follows(c)
      modifies this`ids, session`vals, session.ctx
      ensures st == c.book.Outcome(Constant(bit), false)
      ensures st.Done? ==> Follows(c.Step(Constant(bit)))
      ensures st.Done? ==> old(session.Now()).Stale() <= session.Now().Stale()
    {
      hide Client.BatchesOk, View.Ok, View.Stale, RecorderOk, BatchFits, Linked, Handles, Client.BooksOk, Matches, BookIs;
      hide Ledger.WithConstant;
      RecorderPart(session.Now(), session.q1.pool.delta, session.q2.pool.delta);
      ConstantMatches(c.book, session.Now(), bit);
      NextIs(c.book, session.Now());
      var w;
      st, w := session.PublicBit(bit);
      if st.Done? {
        BatchesSurvive(|batches|);
        HandlesAdd(old(session.vals), session.vals, ids, c.values, w, bit);
        ids := ids + [w];
      }
    }

    method DoGate(a: nat, b: nat, op: Op, ghost c: Clear) returns (st: Status)
      requires Follows(c) && (op == AndOp || op == XorOp) && a < |c.values| && b < |c.values|
      modifies this`ids, session`vals, session.ctx
      ensures st == c.book.Room(1)
      ensures st.Done? ==> Follows(c.Step(if op == AndOp then And(a, b) else Xor(a, b)))
      ensures st.Done? ==> old(session.Now()).Stale() <= session.Now().Stale()
    {
      hide Client.BatchesOk, View.Ok, View.Stale, RecorderOk, BatchFits, Linked, Handles, Client.BooksOk, Matches, BookIs;
      hide Ledger.Record, WiresOf;
      RecorderPart(session.Now(), session.q1.pool.delta, session.q2.pool.delta);
      HandleAt(session.vals, ids, c.values, a);
      HandleAt(session.vals, ids, c.values, b);
      GateMatches(c.book, session.Now(), op, ids[a], ids[b]);
      NextIs(c.book, session.Now());
      RecordedBatches(c.book, op, ids[a], ids[b]);
      var w;
      st, w := session.BinaryGate(ids[a], ids[b], op);
      if st.Done? {
        BatchesSurvive(|batches|);
        HandlesAdd(old(session.vals), session.vals, ids, c.values, w, session.vals[w]);
        ids := ids + [w];
      }
    }

    method DoNot(a: nat, ghost c: Clear) returns (st: Status)
      requires Follows(c) && a < |c.values|
      modifies this`ids, session`vals, session.ctx
      ensures st == c.book.Room(1)
      ensures st.Done? ==> Follows(c.Step(Not(a)))
      ensures st.Done? ==> old(session.Now()).Stale() <= session.Now().Stale()
    {
      hide Client.BatchesOk, View.Ok, View.Stale, RecorderOk, BatchFits, Linked, Handles, Client.BooksOk, Matches, BookIs;
      hide Ledger.Record, WiresOf;
      RecorderPart(session.Now(), session.q1.pool.delta, session.q2.pool.delta);
      HandleAt(session.vals, ids, c.values, a);
      GateMatches(c.book, session.Now(), NotOp, ids[a], 0);
      NextIs(c.book, session.Now());
      RecordedBatches(c.book, NotOp, ids[a], 0);
      var w;
      st, w := session.NotGate(ids[a]);
      if st.Done? {
        BatchesSurvive(|batches|);
        HandlesAdd(old(session.vals), session.vals, ids, c.values, w, session.vals[w]);
        ids := ids + [w];
      }
    }

    method DoInput(owner: int, bits1: seq<bool>, bits2: seq<bool>, prg: nat -> Block, ghost c: Clear) returns (st: Status)
      requires Follows(c) && c.Legal(Command.Input(owner, bits1, bits2))
      modifies this`ids, session, session.ctx`nextId, session.q1, session.q2, session.q1.pool, session.q2.pool
      ensures st == c.book.Outcome(Command.Input(owner, bits1, bits2), false)
      ensures st.Done? ==> Follows(c.Step(Command.Input(owner, bits1, bits2))) && (old(Agree()) ==> Agree())
      ensures st.Done? ==> old(session.Now()).Stale() <= session.Now().Stale()
    {
      hide Client.BatchesOk, View.Ok, View.Stale, RecorderOk, BatchFits, Linked, Handles, AllAgree, OnlyAgreedAdded;
      hide Client.BooksOk, Matches, BookIs, Ledger.HandKept, Holds, IsInput, FreshMasks;
      AllBelow(session.Now(), session.q1.pool.delta, session.q2.pool.delta);
      RecorderPart(session.Now(), session.q1.pool.delta, session.q2.pool.delta);
      NextIs(c.book, session.Now());
      ghost var before := session.Now();
      var ws;
      st, ws := session.Input(owner, bits1, bits2, prg);
      if st.Done? {
        InputsStayAgreed();
        BatchesSurvive(|batches|);
        SameLength(session.Now(), session.q1.pool.delta, session.q2.pool.delta);
        RanMatches(c.book, before, session.Now(), ids, c.values, Chosen(owner, bits1, bits2), ws);
        ids := ids + ws;
      }
    }

    method DoOpenBatch(ghost c: Clear) returns (st: Status)
      requires Follows(c)
      modifies this`batches
      ensures st.Done? && Follows(c.Step(OpenBatch))
      ensures |batches| == old(|batches|) + 1 && batches[..old(|batches|)] == old(batches) && fresh(batches[old(|batches|)])
    {
      hide View.Ok, Linked, Handles, BatchFits, Matches, BookIs;
      var b := new InputBatch(session);
      batches := batches + [b];
      st := Done;
      assert BatchesOk() by {
        forall i | 0 <= i < |batches|
          ensures batches[i].session == session && batches[i].Valid()
        {
          if i < |batches| - 1 {
            assert batches[i] == old(batches[i]) && old(batches[i].Valid());
          }
        }
      }
      EmptyBook();
      KeepsMatching(c.book, c.Step(OpenBatch).book, session.Now());
    }

    /** The wires of an added batch entry exist at once, although they can be flushed only after the batch finished. */
    method DoAdd(k: nat, owner: int, bits1: seq<bool>, bits2: seq<bool>, ghost c: Clear) returns (st: Status)
      requires Follows(c) && c.Legal(Add(k, owner, bits1, bits2)) && k < |c.book.batches|
      modifies this`ids, batches, session`vals, session`batchOf, session.ctx`nextId
      ensures st == c.book.Outcome(Add(k, owner, bits1, bits2), false)
      ensures st.Done? ==> Follows(c.Step(Add(k, owner, bits1, bits2)))
      ensures st.Done? ==> old(session.Now()).Stale() <= session.Now().Stale()
    {
      hide View.Ok, View.Stale, RecorderOk, Linked, Handles, BatchFits, BookIs, Matches;
      hide Ledger.Hand, Ledger.Range;
      AllBelow(session.Now(), session.q1.pool.delta, session.q2.pool.delta);
      RecorderPart(session.Now(), session.q1.pool.delta, session.q2.pool.delta);
      NextIs(c.book, session.Now());
      BookSays(c.book.batches[k], batches[k].entries, batches[k].finished);
      ghost var x, es, before := Chosen(owner, bits1, bits2), batches[k].entries, session.Now();
      var ws;
      st, ws := batches[k].Add(owner, bits1, bits2);
      if st.Done? {
        RecorderPart(session.Now(), session.q1.pool.delta, session.q2.pool.delta);
        HandlesGrow(old(session.vals), ids, c.values, x, ws);
        HandedMatches(c.book, before, session.Now(), |bits1|, ws);
        BookGrows(c.book.batches[k], es, Entry(owner, bits1, bits2, ws), c.book);
        ids := ids + ws;
        BatchesSurvive(k);
        HandedBatches(c.book, |bits1|);
        KeepsMatching(c.book.Hand(|bits1|), c.Step(Add(k, owner, bits1, bits2)).book, session.Now());
      }
    }

    method DoFinish(k: nat, prg: nat -> Block, ghost c: Clear) returns (st: Status)
      requires Follows(c) && c.Legal(Finish(k)) && k < |c.book.batches|
      modifies batches, session, session.q1, session.q2, session.q1.pool, session.q2.pool
      ensures st == c.book.Outcome(Finish(k), false)
      ensures st.Done? ==> Follows(c.Step(Finish(k))) && (old(Agree()) ==> Agree())
      ensures st.Done? ==> old(session.Now()).Stale() <= session.Now().Stale()
    {
      hide View.Ok, View.Stale, RecorderOk, Linked, Handles, EntryOk, AllAgree, OnlyAgreedAdded, AnySecretBit, BookIs, Matches;
      BookSays(c.book.batches[k], batches[k].entries, batches[k].finished);
      ghost var before, book := session.Now(), c.book.batches[k];
      st := batches[k].Finish(prg);
      if st.Done? {
        InputsStayAgreed();
        FinishedMatches(c.book, before, session.Now(), book.wires);
        FinishedBook(book, batches[k].entries);
        BatchesSurvive(k);
        KeepsMatching(c.book.(kept := c.book.kept + book.wires), c.Step(Finish(k)).book, session.Now());
      }
    }

    method DoRunBody(calls: seq<Gate>, outs: seq<nat>, args: seq<seq<nat>>, seed: RunSeed, ghost c: Clear) returns (st: Status)
      requires Follows(c) && c.Legal(RunBody(calls, outs, args))
      modifies this`ids, session, session.ctx`nextId, session.q1.pool, session.q2.pool
      ensures st == c.book.Outcome(RunBody(calls, outs, args), old(Disturbed(RunBody(calls, outs, args), session.q1.pool.drawn)))
      ensures st.CheckFailed? ==> Stands(c) && session.Now() == old(session.Now()) && ids == old(ids)
      ensures st.Done? ==> Follows(c.Step(RunBody(calls, outs, args)))
      ensures st.Done? && c.book.Travels(RunBody(calls, outs, args)) && old(Agree()) ==> Agree()
      ensures st.Done? ==> old(session.Now()).Stale() <= session.Now().Stale()
    {
      hide Client.BatchesOk, View.Ok, View.Stale, RecorderOk, BatchFits, Linked, Handles, Body, Outputs, Flat, ValuesAt;
      hide Client.BooksOk, Matches, BookIs, Ledger.HandKept, WiresOf;
      hide Clear.Read, OutputMasksTravel, AllAgree, RunUndisturbed, RunOutputsOff, MasksAt, BundlesAt, FreshMasks, ArgIds;
      hide NumAnds, Session.Checked, ArgsOf;
      AllBelow(session.Now(), session.q1.pool.delta, session.q2.pool.delta);
      RecorderPart(session.Now(), session.q1.pool.delta, session.q2.pool.delta);
      ArgsAreValues(session.vals, ids, c, args);
      NextIs(c.book, session.Now());
      AllKeptIs(c.book, session.Now(), c.book.Args(args));
      ghost var x, flat, before := c.Read(Flat<nat>(args, |args|)), c.book.Args(args), session.Now();
      var ws;
      st, ws := session.RunBody(calls, outs, ArgsOf(ids, args), seed);
      if st.CheckFailed? {
        BatchesSurvive(|batches|);
      }
      if st.Done? {
        BatchesSurvive(|batches|);
        SameLength(session.Now(), session.q1.pool.delta, session.q2.pool.delta);
        RanMatches(c.book, before, session.Now(), ids, c.values, Outputs(|x|, calls, x, outs), ws);
        RunStaysAgreed(before, session.Now(), flat, calls, outs, ws, session.q1.pool.delta, session.q2.pool.delta);
        ids := ids + ws;
      }
    }

    method DoRunCompiled(prog: Program, args: seq<seq<nat>>, seed: RunSeed, ghost c: Clear) returns (st: Status)
      requires Follows(c) && c.Legal(RunCompiled(prog, args))
      modifies this`ids, session, session.ctx`nextId, session.q1.pool, session.q2.pool
      ensures st == c.book.Outcome(RunCompiled(prog, args), old(Disturbed(RunCompiled(prog, args), session.q1.pool.drawn)))
      ensures st.CheckFailed? ==> Stands(c) && session.Now() == old(session.Now()) && ids == old(ids)
      ensures st.Done? ==> Follows(c.Step(RunCompiled(prog, args)))
      ensures st.Done? && c.book.Travels(RunCompiled(prog, args)) && old(Agree()) ==> Agree()
      ensures st.Done? ==> old(session.Now()).Stale() <= session.Now().Stale()
    {
      hide Client.BatchesOk, View.Ok, View.Stale, RecorderOk, BatchFits, Linked, Handles, Body, Outputs, Flat, ValuesAt;
      hide Client.BooksOk, Matches, BookIs, Ledger.HandKept, WiresOf, CanonicalProgram;
      hide Clear.Read, OutputMasksTravel, AllAgree, RunUndisturbed, RunOutputsOff, MasksAt, BundlesAt, FreshMasks, ArgIds;
      hide NumAnds, Session.Checked, ArgsOf;
      AllBelow(session.Now(), session.q1.pool.delta, session.q2.pool.delta);
      RecorderPart(session.Now(), session.q1.pool.delta, session.q2.pool.delta);
      ArgsAreValues(session.vals, ids, c, args);
      NextIs(c.book, session.Now());
      AllKeptIs(c.book, session.Now(), c.book.Args(args));
      ghost var x, flat, before := c.Read(Flat<nat>(args, |args|)), c.book.Args(args), session.Now();
      CanonicalIsBody(prog, |flat|);
      var ws;
      st, ws := session.RunCompiled(prog, ArgsOf(ids, args), seed);
      if st.CheckFailed? {
        BatchesSurvive(|batches|);
      }
      if st.Done? {
        BatchesSurvive(|batches|);
        SameLength(session.Now(), session.q1.pool.delta, session.q2.pool.delta);
        RanMatches(c.book, before, session.Now(), ids, c.values, Outputs(|x|, prog.gates, x, prog.outputs), ws);
        RunStaysAgreed(before, session.Now(), flat, prog.gates, prog.outputs, ws, session.q1.pool.delta, session.q2.pool.delta);
        ids := ids + ws;
      }
    }

    method DoCheckpoint(keeps: seq<nat>, seed: RunSeed, ghost c: Clear) returns (st: Status)
      requires Follows(c) && c.Legal(Command.Checkpoint(keeps))
      modifies session, session.ctx, session.q1.pool, session.q2.pool
      ensures st == c.book.Outcome(Command.Checkpoint(keeps), old(Disturbed(Command.Checkpoint(keeps), session.q1.pool.drawn)))
      ensures st.CheckFailed? ==> Stands(c) && session.Now() == old(session.Now())
      ensures st.Done? ==> Follows(c.Step(Command.Checkpoint(keeps)))
      ensures st.Done? && c.book.Travels(Command.Checkpoint(keeps)) && old(Agree()) ==> Agree()
      ensures st.Done? ==> old(session.Now()).Stale() <= session.Now().Stale()
    {
      hide Client.BatchesOk, View.Ok, View.Stale, RecorderOk, BatchFits, Linked, Handles, Sessions.Flushable, FlushKeepsAgreed, AllAgree;
      hide FlushPasses, FlushOff, FreshMasks, WiresOf, AnyPending, Client.BooksOk, Matches, BookIs, FlushTravels;
      hide Ledger.Flushed, Ledger.Flushable, Ledger.FlushStays, Ledger.AnyOpen;
      ghost var before, ws := session.Now(), c.book.Wires(keeps);
      FlushRead(c.book, before, ws, session.q1.pool.delta, session.q2.pool.delta);
      NextIs(c.book, before);
      st := session.Checkpoint(WiresOf(ids, keeps), seed);
      if st.Done? {
        NothingOpen(session.Now(), session.q1.pool.delta, session.q2.pool.delta);
        BatchesSurvive(|batches|);
        StaysIfTravels(before, ws);
        AgreedCheckpointStays(before, ws, session.Now(), session.q1.pool.delta, session.q2.pool.delta);
        SameIds(before, session.Now(), session.q1.pool.delta, session.q2.pool.delta);
        CheckpointMatches(c.book, before, ws, session.Now());
        FlushedHandles(c.book, ws);
      }
    }

    /** A reveal, as far as agreement goes: over agreed masks it leaves them agreed if its flush does. */
    method RevealWires(wires: seq<nat>, recipient: int, keeps: seq<nat>, seed: RunSeed)
      returns (st: Status, out1: Option<seq<bool>>, out2: Option<seq<bool>>)
      requires session.Valid()
      modifies session`carried1, session`carried2, session`totalAnds, session.ctx, session.q1.pool, session.q2.pool
      ensures var v := old(session.Now());
        st == if recipient != PUBLIC && recipient != ALICE && recipient != BOB then BadRecipient
              else if !Sessions.Flushable(v, wires + keeps) then StaleWire
              else if !FlushPasses(v, wires + keeps, FreshMasks(session.q1.pool.cot, old(session.q1.pool.drawn))) then Status.CheckFailed
              else Done
      ensures !st.Done? ==> session.Valid() && session.Now() == old(session.Now())
      ensures st.Done? ==> session.Valid() && Sessions.Flushed(old(session.Now()), wires + keeps, session.Now())
      ensures st.Done? ==> session.ctx.pending == {} && old(session.Now()).Stale() <= session.Now().Stale()
      ensures st.Done? && old(Agree()) && FlushTravels(old(session.ctx.chunk), wires + keeps) ==>
        Agree() && Nowhere(OffsAt(session.carried1, session.carried2, wires))
      ensures st.Done? ==> forall i | 0 <= i < |wires| :: wires[i] < |session.vals|
      ensures st.Done? ==> (session.Checked() <==> old(session.Checked()) || AnyPending(old(session.Now()), wires + keeps))
      ensures st.Done? ==> RevealRight(out1, out2, Seen(recipient, ValuesAt(session.vals, wires), session.Checked()),
                                       Note(OffsAt(session.carried1, session.carried2, wires), session.Checked()))
    {
      hide View.Ok, View.Stale, Linked, Sessions.Flushable, FlushKeepsAgreed, ValuesAt, RevealRight, Learned, AllAgree, FlushPasses;
      hide FreshMasks, Misread, OffsAt, FlushOff, FlushAnds, Nowhere, AnyPending, FlushTravels;
      ghost var before := session.Now();
      st, out1, out2 := session.Reveal(wires, recipient, keeps, seed);
      if st.Done? {
        RevealedRight(out1, out2, Seen(recipient, ValuesAt(session.vals, wires), session.Checked()),
                      Note(OffsAt(session.carried1, session.carried2, wires), session.Checked()));
        StaysIfTravels(before, wires + keeps);
        if AllAgree(before.carried1, before.carried2) && FlushTravels(before.chunk, wires + keeps) {
          AgreedFlushStays(before, wires + keeps, session.Now(), session.q1.pool.delta, session.q2.pool.delta);
          AgreedArgs(session.carried1, session.carried2, wires);
        }
      }
    }

    /** Note what a reveal told the parties. */
    method Learn(out1: Option<seq<bool>>, out2: Option<seq<bool>>, ghost note: Note, ghost s: Seen, ghost seen: seq<Seen>)
      requires LearnedRight(learned1, learned2, seen, notes) && RevealRight(out1, out2, s, note)
      modifies this`learned1, this`learned2, this`notes
      ensures LearnedRight(learned1, learned2, seen + [s], notes) && notes == old(notes) + [note]
      ensures old(learned1) <= learned1 && old(learned2) <= learned2
    {
      hide RevealRight;
      learned1, learned2, notes := learned1 + [out1], learned2 + [out2], notes + [note];
    }

    /** A reveal of wires by their handles. */
    method RevealHandles(wires: seq<nat>, recipient: int, keeps: seq<nat>, seed: RunSeed, ghost c: Clear)
      returns (st: Status, out1: Option<seq<bool>>, out2: Option<seq<bool>>)
      requires Follows(c) && c.Legal(Command.Reveal(wires, recipient, keeps))
      modifies session`carried1, session`carried2, session`totalAnds, session.ctx, session.q1.pool, session.q2.pool
      ensures st.Done? ==> RevealRight(out1, out2, Seen(recipient, c.Read(wires), session.Checked()),
                                       Note(OffsAt(session.carried1, session.carried2, WiresOf(ids, wires)), session.Checked()))
      ensures st == c.book.Outcome(Command.Reveal(wires, recipient, keeps),
                                   old(Disturbed(Command.Reveal(wires, recipient, keeps), session.q1.pool.drawn)))
      ensures st.CheckFailed? ==> Stands(c) && session.Now() == old(session.Now())
      ensures st.Done? ==> Follows(c.Step(Command.Reveal(wires, recipient, keeps)))
      ensures st.Done? && c.book.Travels(Command.Reveal(wires, recipient, keeps)) && old(Agree()) ==>
        Agree() && Nowhere(OffsAt(session.carried1, session.carried2, WiresOf(ids, wires)))
      ensures st.Done? ==> old(session.Now()).Stale() <= session.Now().Stale()
    {
      hide Client.BatchesOk, View.Ok, View.Stale, RecorderOk, BatchFits, Linked, Handles, FlushKeepsAgreed, ValuesAt, Clear.Read;
      hide RevealRight, WiresOf, AllAgree, OffsAt, Nowhere, AnyPending, Session.Checked, Client.BooksOk, Matches, BookIs, FlushTravels;
      hide Sessions.Flushable, Sessions.Flushed, FlushPasses, FreshMasks, Ledger.Flushed, Ledger.Flushable, Ledger.FlushStays, Ledger.AnyOpen;
      ghost var before, ws := session.Now(), c.book.Wires(wires + keeps);
      ReadIsValues(session.vals, ids, c, wires);
      FlushRead(c.book, before, ws, session.q1.pool.delta, session.q2.pool.delta);
      WiresAppend(ids, wires, keeps);
      NextIs(c.book, before);
      st, out1, out2 := RevealWires(WiresOf(ids, wires), recipient, WiresOf(ids, keeps), seed);
      if st.Done? {
        BatchesSurvive(|batches|);
        FlushMatches(c.book, before, ws, session.Now(), session.q1.pool.delta, session.q2.pool.delta);
        FlushedHandles(c.book, ws);
      }
    }

    method DoReveal(wires: seq<nat>, recipient: int, keeps: seq<nat>, seed: RunSeed, ghost c: Clear) returns (st: Status)
      requires Tracks(c) && c.Legal(Command.Reveal(wires, recipient, keeps))
      modifies this`learned1, this`learned2, this`notes
      modifies session`carried1, session`carried2, session`totalAnds, session.ctx, session.q1.pool, session.q2.pool
      ensures st == c.book.Outcome(Command.Reveal(wires, recipient, keeps),
                                   old(Disturbed(Command.Reveal(wires, recipient, keeps), session.q1.pool.drawn)))
      ensures st.CheckFailed? ==> Stands(c) && session.Now() == old(session.Now())
      ensures st.Done? ==> Tracks(c.Step(Command.Reveal(wires, recipient, keeps)))
      ensures !st.Done? ==> learned1 == old(learned1) && learned2 == old(learned2) && notes == old(notes)
      ensures old(learned1) <= learned1 && old(learned2) <= learned2
      ensures st.Done? && c.book.Travels(Command.Reveal(wires, recipient, keeps)) && old(Agree()) ==>
        Agree() && Nowhere(OffsAt(session.carried1, session.carried2, WiresOf(ids, wires)))
      ensures st.Done? ==>
        notes == old(notes) + [Note(OffsAt(session.carried1, session.carried2, WiresOf(ids, wires)), session.Checked())]
      ensures st.Done? ==> old(session.Now()).Stale() <= session.Now().Stale()
    {
      hide Client.BatchesOk, View.Ok, View.Stale, RecorderOk, BatchFits, Linked, Handles, FlushKeepsAgreed, ValuesAt, Clear.Read;
      hide RevealRight, LearnedRight, WiresOf, AllAgree, OffsAt, Nowhere, AnyPending, Session.Valid, Client.BooksOk, Matches;
      hide Ledger.Flushed, Ledger.Flushable, Ledger.FlushStays, Ledger.AnyOpen, Disturbs;
      var out1, out2;
      st, out1, out2 := RevealHandles(wires, recipient, keeps, seed, c);
      if st.Done? {
        Learn(out1, out2, Note(OffsAt(session.carried1, session.carried2, WiresOf(ids, wires)), session.Checked()),
              Seen(recipient, c.Read(wires), session.Checked()), c.seen);
      }
    }

    /** One call of the user program. It ends as the ledger says, except that its c_gamma check fails exactly when the call is
        disturbed. */
    method Do(cmd: Command, prg: nat -> Block, seed: RunSeed, ghost c: Clear) returns (st: Status)
      requires Tracks(c) && c.Legal(cmd)
      modifies this, batches, session, session.ctx, session.q1, session.q2, session.q1.pool, session.q2.pool
      ensures st == c.book.Outcome(cmd, old(Disturbed(cmd, session.q1.pool.drawn)))
      ensures st.CheckFailed? ==>
        Stands(c) && session.Now() == old(session.Now()) && ids == old(ids) && Disturbed(cmd, old(session.q1.pool.drawn))
      ensures st.Done? ==> Tracks(c.Step(cmd)) && old(session.Now()).Stale() <= session.Now().Stale()
      ensures st.Done? && c.book.Travels(cmd) && old(Agree()) ==> Agree() && Quiet(notes, |old(notes)|)
      ensures !st.Done? ==> learned1 == old(learned1) && learned2 == old(learned2) && notes == old(notes)
      ensures old(learned1) <= learned1 && old(learned2) <= learned2 && old(notes) <= notes
      ensures |old(batches)| <= |batches| && batches[..|old(batches)|] == old(batches)
      ensures forall i | |old(batches)| <= i < |batches| :: fresh(batches[i])
    {
      hide Client.Follows, Client.Stands, Clear.Legal, View.Stale, Nowhere, AllAgree, OutputMasksTravel, OffsAt, LearnedRight;
      hide Body, Flat, WiresOf, Session.Checked, Clear.Reads, Ledger.Step, RunDisturbs, FlushPasses, CanonicalProgram, Matches;
      hide Ledger.FlushStays, Ledger.Flushable, Ledger.AllKept;
      SeenUnless(c, cmd);
      OnlyChecksDisturb(c.book, cmd, Disturbed(cmd, session.q1.pool.drawn));
      match cmd
      case Input(o, x1, x2) => st := DoInput(o, x1, x2, prg, c);
      case OpenBatch => st := DoOpenBatch(c);
      case Add(k, o, x1, x2) => LegalBatch(c, cmd); st := DoAdd(k, o, x1, x2, c);
      case Finish(k) => LegalBatch(c, cmd); st := DoFinish(k, prg, c);
      case Constant(v) => st := DoConstant(v, c);
      case And(a, b) => LegalGate(c, cmd); st := DoGate(a, b, AndOp, c);
      case Xor(a, b) => LegalGate(c, cmd); st := DoGate(a, b, XorOp, c);
      case Not(a) => LegalGate(c, cmd); st := DoNot(a, c);
      case RunBody(calls, outs, args) => st := DoRunBody(calls, outs, args, seed, c);
      case RunCompiled(prog, args) => st := DoRunCompiled(prog, args, seed, c);
      case Checkpoint(keeps) => st := DoCheckpoint(keeps, seed, c);
      case Reveal(wires, r, keeps) => st := DoReveal(wires, r, keeps, seed, c);
    }

    /** Call `k` of a program. */
    method Advance(cmds: seq<Command>, k: nat, prg: nat -> Block, seed: RunSeed, ghost c: Clear) returns (st: Status)
      requires LegalRun(c, cmds) && k < |cmds| && Tracks(StateAt(c, cmds, k))
      modifies this, batches, session, session.ctx, session.q1, session.q2, session.q1.pool, session.q2.pool
      ensures !st.CheckFailed? ==> st == StateAt(c, cmds, k).book.Outcome(cmds[k], false)
      ensures st.CheckFailed? ==>
        && st == StateAt(c, cmds, k).book.Outcome(cmds[k], true)
        && Stands(StateAt(c, cmds, k)) && Disturbed(cmds[k], old(session.q1.pool.drawn)) && !old(Agree())
      ensures st.Done? ==> Tracks(StateAt(c, cmds, k + 1)) && old(session.Now()).Stale() <= session.Now().Stale()
      ensures st.Done? && StateAt(c, cmds, k).book.Travels(cmds[k]) && old(Agree()) ==> Agree() && Quiet(notes, |old(notes)|)
      ensures LearnedRight(learned1, learned2, StateAt(c, cmds, if st.Done? then k + 1 else k).seen, notes)
      ensures !st.Done? ==> notes == old(notes)
      ensures old(learned1) <= learned1 && old(learned2) <= learned2 && old(notes) <= notes
      ensures |old(batches)| <= |batches| && batches[..|old(batches)|] == old(batches)
      ensures forall i | |old(batches)| <= i < |batches| :: fresh(batches[i])
    {
      hide Client.Tracks, Client.Stands, Clear.Step, Clear.Legal, View.Stale, AllAgree, Disturbs, Ledger.Travels, Ledger.Outcome;
      hide LegalRun, StateAt, LearnedRight, Client.Disturbed, Client.Agree, WiresOf, Quiet;
      ghost var at := StateAt(c, cmds, k);
      StateStep(c, cmds, k);
      TracksLearned(at);
      AgreedNeverDisturbed(cmds[k], session.q1.pool.drawn, at);
      OnlyChecksDisturb(at.book, cmds[k], Disturbed(cmds[k], session.q1.pool.drawn));
      st := Do(cmds[k], prg, seed, at);
      if st.Done? {
        TracksLearned(StateAt(c, cmds, k + 1));
      }
    }

    /** Sessions refine the plaintext session, for any legal user program.

        Calls are made until one does not end well: `done` of them did, and the calls alone decide which is refused and why,
        except that a c_gamma check fails exactly when the differences between the parties' opened masks disturb the call (`from`
        is where in the COT session its masks begin). Every reveal made gave BOB and the public the plaintext values, gave ALICE
        those values flipped exactly where the parties' opened masks of the revealed wires differed at the time, and gave
        everybody else nothing; which reveals the COT check covered is what the plaintext session computes. While every call
        travels, from agreed masks, nothing differs and no check fails. So a program whose calls are all accepted and travel, both
        read off the calls, runs to its end. */
    method Execute(cmds: seq<Command>, prgs: nat -> (nat -> Block), seeds: nat -> RunSeed, ghost c: Clear)
      returns (st: Status, ghost done: nat, ghost from: nat)
      requires Tracks(c) && LegalRun(c, cmds)
      modifies this, batches, session, session.ctx, session.q1, session.q2, session.q1.pool, session.q2.pool
      ensures done <= |cmds| && (st.Done? <==> done == |cmds|) && Accepted(c, cmds, done)
      ensures LearnedRight(learned1, learned2, StateAt(c, cmds, done).seen, notes)
      ensures st.Done? ==> Tracks(Run(c, cmds)) && old(session.Now()).Stale() <= session.Now().Stale()
      ensures !st.Done? && !st.CheckFailed? ==> st == StateAt(c, cmds, done).book.Outcome(cmds[done], false)
      ensures st.CheckFailed? ==>
        && st == StateAt(c, cmds, done).book.Outcome(cmds[done], true)
        && Stands(StateAt(c, cmds, done)) && Disturbed(cmds[done], from)
      ensures old(learned1) <= learned1 && old(learned2) <= learned2 && old(notes) <= notes
      ensures old(Agree()) && Travelled(c, cmds, done) ==>
        !st.CheckFailed? && Quiet(notes, |old(notes)|)
      ensures old(Agree()) && Travelled(c, cmds, |cmds|) && Accepted(c, cmds, |cmds|) ==> st.Done?
    {
      hide Client.Tracks, Client.Stands, View.Stale, AllAgree, Ledger.Travels, Ledger.Outcome, Quiet;
      hide LegalRun, Run, StateAt, LearnedRight, Accepted, Travelled, Client.Disturbed, Client.Agree;
      st, done, from := Done, 0, session.q1.pool.drawn;
      StartsThere(c, cmds);
      QuietSoFar(notes);
      TracksLearned(c);
      for k := 0 to |cmds|
        invariant st.Done? && done == k && Tracks(StateAt(c, cmds, k)) && Accepted(c, cmds, k)
        invariant LearnedRight(learned1, learned2, StateAt(c, cmds, k).seen, notes)
        invariant old(session.Now()).Stale() <= session.Now().Stale()
        invariant old(learned1) <= learned1 && old(learned2) <= learned2 && old(notes) <= notes
        invariant old(Agree()) && Travelled(c, cmds, k) ==> Agree() && Quiet(notes, |old(notes)|)
        invariant |old(batches)| <= |batches| && batches[..|old(batches)|] == old(batches)
        invariant forall i | |old(batches)| <= i < |batches| :: fresh(batches[i])
      {
        OneMoreCall(c, cmds, k);
        from := session.q1.pool.drawn;
        ghost var noted := notes;
        st := Advance(cmds, k, prgs(k), seeds(k), c);
        if !st.Done? {
          return;
        }
        done := k + 1;
        if Quiet(noted, |old(notes)|) && Quiet(notes, |noted|) {
          QuietGoesOn(noted, notes, |old(notes)|);
        }
      }
      RunIsLast(c, cmds);
    }

    lemma TracksLearned(c: Clear)
      requires Tracks(c)
      ensures LearnedRight(learned1, learned2, c.seen, notes) && session.Valid()
    {
      hide LearnedRight;
    }

    /** Over agreed masks no check fails. */
    lemma AgreedNeverDisturbed(cmd: Command, from: nat, c: Clear)
      requires Tracks(c) && c.Legal(cmd)
      ensures Agree() ==> !Disturbed(cmd, from)
    {
      hide View.Ok, AllAgree, FlushPasses, RunUndisturbed, LearnedRight, Clear.Legal, WiresOf, Flat, MasksAt, BundlesAt, FreshMasks, Body;
      var v, lg := session.Now(), FreshMasks(session.q1.pool.cot, from);
      if Agree() {
        match cmd
        case RunBody(calls, outs, args) => AgreedRunNeverFails(v, WiresOf(ids, Flat<nat>(args, |args|)), calls, outs, lg);
        case RunCompiled(prog, args) => AgreedRunNeverFails(v, WiresOf(ids, Flat<nat>(args, |args|)), prog.gates, prog.outputs, lg);
        case Checkpoint(keeps) => AgreedFlushPasses(v, WiresOf(ids, keeps), lg, session.q1.pool.delta, session.q2.pool.delta);
        case Reveal(ws, _, keeps) => AgreedFlushPasses(v, WiresOf(ids, ws + keeps), lg, session.q1.pool.delta, session.q2.pool.delta);
        case _ =>
      }
    }
  }

  lemma NextIs(l: Ledger, v: View)
    requires Matches(l, v)
    ensures l.next == v.nextId
  {
  }

  lemma RecordedBatches(l: Ledger, op: Op, a: nat, b: nat)
    ensures l.Record(op, a, b).batches == l.batches
  {
  }

  lemma SameLength(v: View, d1: Block, d2: Block)
    requires v.Ok(d1, d2)
    ensures v.nextId == |v.vals|
  {
    hide CarriedOk, Explains, RecorderOk;
  }

  /** After a run or an input: the next wires are carried, with their values. */
  lemma RanMatches(l: Ledger, v: View, after: View, ids: seq<nat>, values: seq<bool>, x: seq<bool>, ws: seq<nat>)
    requires Matches(l, v) && v.nextId == |v.vals| && after.nextId == |after.vals| && after.vals == v.vals + x
    requires Handles(v.vals, ids, values) && |ws| == |x| && forall i | 0 <= i < |ws| :: ws[i] == |v.vals| + i
    requires after.chunk == v.chunk && after.const0 == v.const0 && after.const1 == v.const1
    requires forall id: nat :: id in after.carried1 <==> id in v.carried1 || id in ws
    ensures Matches(l.HandKept(|x|), after) && Handles(after.vals, ids + ws, values + x)
    ensures l.HandKept(|x|).handles == l.handles + ws && l.HandKept(|x|).batches == l.batches
  {
    hide Matches, Handles;
    HandlesGrow(v.vals, ids, values, x, ws);
    KeptMatches(l, v, after, |x|, ws);
  }

  lemma HandedBatches(l: Ledger, n: nat)
    ensures l.Hand(n).batches == l.batches
  {
  }

  lemma FlushedHandles(l: Ledger, ws: seq<nat>)
    ensures l.Flushed(ws).handles == l.handles && l.Flushed(ws).batches == l.batches
  {
  }

  /** The books of the batches are no part of the match. */
  lemma KeepsMatching(l: Ledger, after: Ledger, v: View)
    requires Matches(l, v) && after == l.(handles := after.handles, batches := after.batches)
    ensures Matches(after, v)
  {
  }

  lemma EmptyBook()
    ensures BookIs(Book({}, false, true, false), [], false)
  {
  }

  lemma BookSays(k: Book, es: seq<Entry>, finished: bool)
    requires BookIs(k, es, finished)
    ensures k.finished == finished
    ensures !finished ==> k.wires == AllIds(es) && (k.known <==> forall a | 0 <= a < |es| :: KnownOwner(es[a].owner))
    ensures !finished ==> (k.secret <==> AnySecretBit(es))
  {
    hide AllIds, AnySecretBit;
  }

  lemma FinishedBook(k: Book, es: seq<Entry>)
    ensures BookIs(k.(finished := true), es, true)
  {
  }

  lemma CanonicalIsBody(prog: Program, n: nat)
    ensures CanonicalProgram(prog) && n == prog.numInputs ==> Body(n, prog.gates, prog.outputs)
  {
  }

  /** With the chunk gone no constant is cached. */
  lemma NothingOpen(v: View, d1: Block, d2: Block)
    requires v.Ok(d1, d2) && v.chunk == []
    ensures v.const0 == v.const1 == -1
  {
    hide CarriedOk, Explains, Chunk;
  }

  lemma SameIds(v: View, after: View, d1: Block, d2: Block)
    requires v.Ok(d1, d2) && after.Ok(d1, d2) && v.vals == after.vals
    ensures v.nextId == after.nextId
  {
    hide CarriedOk, Explains, RecorderOk;
  }

  lemma StaysIfTravels(v: View, ws: seq<nat>)
    ensures FlushTravels(v.chunk, ws) ==> FlushKeepsAgreed(v, ws)
  {
    hide FlushTravels;
  }

  /** Only a reveal adds to what is seen. */
  lemma SeenUnless(c: Clear, cmd: Command)
    requires c.Legal(cmd)
    ensures !cmd.Reveal? ==> c.Step(cmd).seen == c.seen
  {
    hide Outputs, Body;
  }

  lemma StartsThere(c: Clear, cmds: seq<Command>)
    requires LegalRun(c, cmds)
    ensures StateAt(c, cmds, 0) == c && Accepted(c, cmds, 0)
  {
  }

  lemma OneMoreCall(c: Clear, cmds: seq<Command>, k: nat)
    requires LegalRun(c, cmds) && k < |cmds|
    ensures Accepted(c, cmds, k + 1) <==> Accepted(c, cmds, k) && StateAt(c, cmds, k).book.Outcome(cmds[k], false).Done?
    ensures Travelled(c, cmds, k + 1) <==> Travelled(c, cmds, k) && StateAt(c, cmds, k).book.Travels(cmds[k])
    ensures Travelled(c, cmds, |cmds|) ==> Travelled(c, cmds, k)
    ensures Accepted(c, cmds, |cmds|) ==> Accepted(c, cmds, k + 1)
  {
    hide LegalRun, StateAt, Ledger.Outcome, Ledger.Travels;
  }

  lemma LegalBatch(c: Clear, cmd: Command)
    requires c.Legal(cmd)
    ensures cmd.Finish? ==> cmd.batch < |c.book.batches|
    ensures cmd.Add? ==> cmd.batch < |c.book.batches|
  {
  }

  lemma LegalGate(c: Clear, cmd: Command)
    requires c.Legal(cmd)
    ensures cmd.And? || cmd.Xor? ==> cmd.a < |c.values| && cmd.b < |c.values|
    ensures cmd.Not? ==> cmd.a < |c.values|
  {
  }

  lemma RevealedRight(out1: Option<seq<bool>>, out2: Option<seq<bool>>, s: Seen, note: Note)
    requires out2 == Learned(if s.recipient == ALICE then [] else s.values, |s.values|) && |note.off| == |s.values|
    requires s.recipient != ALICE ==> out1 == Learned(if s.recipient == BOB then [] else s.values, |s.values|)
    requires s.recipient == ALICE ==> out1 == Some(Misread(s.values, note.off))
    requires note.covered <==> s.covered
    ensures RevealRight(out1, out2, s, note)
  {
  }

  lemma AgreedRunNeverFails(v: View, args: seq<nat>, calls: seq<Gate>, outs: seq<nat>, lg: nat -> Share)
    requires AllAgree(v.carried1, v.carried2)
    ensures !RunDisturbs(v, args, calls, outs, lg)
  {
    hide RunUndisturbed, AllAgree, Ordered, MasksAt, BundlesAt;
    if Body(|args|, calls, outs) {
      AgreedArgs(v.carried1, v.carried2, args);
      AgreedRunPasses(|args|, calls, MasksAt(v.carried1, args), BundlesAt(v.carried1, args), lg);
    }
  }

  /** A run leaves agreed masks agreed if it travels. */
  lemma RunStaysAgreed(v: View, after: View, args: seq<nat>, calls: seq<Gate>, outs: seq<nat>, ids: seq<nat>, d1: Block, d2: Block)
    requires v.Ok(d1, d2) && after.Ok(d1, d2) && Body(|args|, calls, outs)
    requires RunOutputsOff(|args|, calls, outs, MasksAt(v.carried1, args), MasksAt(v.carried2, args),
                           MasksAt(after.carried1, ids), MasksAt(after.carried2, ids))
    requires forall id: nat :: id in after.carried1 <==> id in v.carried1 || id in ids
    requires forall id | id in v.carried1 :: after.carried1[id] == v.carried1[id]
    requires forall id | id in v.carried2 :: id in after.carried2 && after.carried2[id] == v.carried2[id]
    ensures AllAgree(v.carried1, v.carried2) && OutputMasksTravel(|args|, calls, outs) ==> AllAgree(after.carried1, after.carried2)
  {
    hide View.Ok, AllAgree, RunOutputsOff, MasksAt, OutputMasksTravel, Body;
    CarriedPart(v, d1, d2);
    CarriedPart(after, d1, d2);
    if AllAgree(v.carried1, v.carried2) && OutputMasksTravel(|args|, calls, outs) {
      AgreedRunStays(v.carried1, v.carried2, after.carried1, after.carried2, args, calls, outs, ids);
    }
  }

  lemma AgreedCheckpointStays(v: View, keeps: seq<nat>, after: View, d1: Block, d2: Block)
    requires v.Ok(d1, d2) && after.Ok(d1, d2) && forall id: nat :: id in after.carried1 <==> id in keeps
    requires forall id | id in keeps ::
      DiffersAt(after.carried1, after.carried2, id)
      == if id in v.pending then FlushOff(v, keeps, id) else DiffersAt(v.carried1, v.carried2, id)
    ensures AllAgree(v.carried1, v.carried2) && FlushKeepsAgreed(v, keeps) ==> AllAgree(after.carried1, after.carried2)
  {
    hide View.Ok, FlushOff, FlushKeepsAgreed;
    CarriedPart(after, d1, d2);
    if AllAgree(v.carried1, v.carried2) && FlushKeepsAgreed(v, keeps) {
      AgreedFlushPasses(v, keeps, w => NO_SHARE, d1, d2);
      forall id: nat
        ensures !DiffersAt(after.carried1, after.carried2, id)
      {
        assert !DiffersAt(v.carried1, v.carried2, id);
        assert id in after.carried1.Keys <==> id in after.carried2.Keys;
      }
    }
  }
}
