/** Garbled entries on their way from one thread to another (pass_ctx.h, the begin/end and chunk code of the garble and
    evaluate passes). Four threads take turns in any order:

    - the garbler fills a chunk per AND, publishes it when full, and at the end publishes the rest and closes its pipe;
    - the sender takes chunks and puts each on the wire, ciphertexts first and parity bits after;
    - the receiver computes each chunk's size on its own, reads that much off the wire, and publishes it;
    - the evaluator takes the next chunk when the one in hand is used up, and reads one entry per AND.

    The two pipes are bounded queues of depth 2 (ChunkPipes) and the wire is an unbounded queue. */
module Streams {
  import opened Cells
  import opened Framing
  import opened GarblePasses

  const DEPTH: nat := 2

  datatype GarblerAt = NeedSlot | Filling(chunk: seq<Entry>) | Closing | Joining | GarblerDone
  datatype SenderAt = SenderIdle | RowsSent | FlagsSent | SenderDone
  datatype ReceiverAt = ReceiverIdle | HasSlot | GotRows(rows: seq<Item>) | ReceiverDone
  datatype EvaluatorAt = NeedChunk | Reading(loc: nat) | Leaving | EvaluatorDone

  /** `sentBase` and `usedBase` count the entries of the chunks that left each pipe; no step depends on them. */
  datatype Threads = Threads(
    made: nat, garbler: GarblerAt, pipe1: seq<seq<Entry>>, closed1: bool,
    sentBase: nat, sender: SenderAt, wire: seq<Item>,
    recvBase: nat, receiver: ReceiverAt, pipe2: seq<seq<Entry>>, closed2: bool,
    usedBase: nat, evaluator: EvaluatorAt, used: seq<Entry>)

  const START: Threads := Threads(0, NeedSlot, [], false, 0, SenderIdle, [], 0, ReceiverIdle, [], false, 0, NeedChunk, [])

  datatype Move = Garble | Send | Receive | Evaluate

  /** The size the receiver gives its next chunk. */
  function NextSize(n: nat, base: nat): (size: nat)
    requires base < n
    ensures 0 < size <= BATCH && base + size <= n
  {
    if n - base < BATCH then n - base else BATCH
  }

  /** A chunk as the receiver assembles it from the ciphertexts and parity bits it read. */
  function Assembled(rows: seq<Item>, flags: seq<Item>): (es: seq<Entry>)
    requires |rows| == 2 * |flags|
    requires (forall i | 0 <= i < |rows| :: rows[i].Row?) && forall i | 0 <= i < |flags| :: flags[i].Flag?
    ensures |es| == |flags|
  {
    seq(|flags|, i requires 0 <= i < |flags| => Entry(rows[2 * i].row, rows[2 * i + 1].row, flags[i].flag))
  }

  /** Can the thread move now? Otherwise it waits: for a free slot, a chunk, bytes, or another thread's end. */
  predicate Enabled(es: seq<Entry>, t: Threads, m: Move) {
    match m
    case Garble =>
      (match t.garbler
       case NeedSlot => |t.pipe1| < DEPTH
       case Joining => t.sender.SenderDone?
       case GarblerDone => false
       case _ => true)
    case Send =>
      (match t.sender
       case SenderIdle => t.pipe1 != [] || t.closed1
       case SenderDone => false
       case _ => true)
    case Receive =>
      (match t.receiver
       case ReceiverIdle => t.recvBase >= |es| || |t.pipe2| < DEPTH
       case HasSlot => t.recvBase < |es| && |t.wire| >= 2 * NextSize(|es|, t.recvBase)
       case GotRows(_) => t.recvBase < |es| && |t.wire| >= NextSize(|es|, t.recvBase)
       case ReceiverDone => false)
    case Evaluate =>
      (match t.evaluator
       case NeedChunk => |t.used| >= |es| || t.pipe2 != [] || t.closed2
       case Reading(_) => true
       case Leaving => t.receiver.ReceiverDone?
       case EvaluatorDone => false)
  }

  /** What happens when nothing goes wrong is what always happens: no staging buffer is overrun, what is read is what the
      reader expects there, and no AND finds its pipe drained and closed. */
  predicate Safe(es: seq<Entry>, t: Threads, m: Move) {
    match m
    case Garble => t.garbler.Filling? && t.made < |es| ==> |t.garbler.chunk| < Capacity(|es|)
    case Send => t.sender.RowsSent? || t.sender.FlagsSent? ==> t.pipe1 != []
    case Receive =>
      && (t.receiver.HasSlot? && Enabled(es, t, Receive) ==>
            && NextSize(|es|, t.recvBase) <= Capacity(|es|)
            && forall i | 0 <= i < 2 * NextSize(|es|, t.recvBase) :: t.wire[i].Row?)
      && (t.receiver.GotRows? && Enabled(es, t, Receive) ==>
            && |t.receiver.rows| == 2 * NextSize(|es|, t.recvBase)
            && (forall i | 0 <= i < |t.receiver.rows| :: t.receiver.rows[i].Row?)
            && forall i | 0 <= i < NextSize(|es|, t.recvBase) :: t.wire[i].Flag?)
    case Evaluate =>
      && (t.evaluator.NeedChunk? && |t.used| < |es| && Enabled(es, t, Evaluate) ==> t.pipe2 != [])
      && (t.evaluator.Reading? ==> t.pipe2 != [] && t.evaluator.loc <= |t.pipe2[0]|)
  }

  /** One step of one thread. */
  function Step(es: seq<Entry>, t: Threads, m: Move): Threads
    requires Enabled(es, t, m) && Safe(es, t, m)
  {
    match m
    case Garble => GarbleStep(es, t)
    case Send => SendStep(t)
    case Receive => ReceiveStep(es, t)
    case Evaluate => EvaluateStep(es, t)
  }

  function GarbleStep(es: seq<Entry>, t: Threads): Threads
    requires Enabled(es, t, Garble)
  {
    match t.garbler
    case NeedSlot => t.(garbler := Filling([]))
    case Filling(chunk) =>
      if t.made < |es| then
        var more := chunk + [es[t.made]];
        if |more| == BATCH then t.(made := t.made + 1, garbler := NeedSlot, pipe1 := t.pipe1 + [more])
        else t.(made := t.made + 1, garbler := Filling(more))
      else if chunk != [] then t.(garbler := Closing, pipe1 := t.pipe1 + [chunk])
      else t.(garbler := Closing)
    case Closing => t.(garbler := Joining, closed1 := true)
    case _ => t.(garbler := GarblerDone)
  }

  function SendStep(t: Threads): Threads
    requires t.sender.RowsSent? || t.sender.FlagsSent? ==> t.pipe1 != []
  {
    match t.sender
    case SenderIdle =>
      if t.pipe1 == [] then t.(sender := SenderDone)
      else t.(sender := RowsSent, wire := t.wire + Rows(t.pipe1[0]))
    case RowsSent => t.(sender := FlagsSent, wire := t.wire + Flags(t.pipe1[0]))
    case _ => if t.pipe1 == [] then t else t.(sender := SenderIdle, sentBase := t.sentBase + |t.pipe1[0]|, pipe1 := t.pipe1[1..])
  }

  function ReceiveStep(es: seq<Entry>, t: Threads): Threads
    requires Enabled(es, t, Receive) && Safe(es, t, Receive)
  {
    match t.receiver
    case ReceiverIdle =>
      if t.recvBase < |es| then t.(receiver := HasSlot) else t.(receiver := ReceiverDone, closed2 := true)
    case HasSlot =>
      var n := NextSize(|es|, t.recvBase);
      t.(receiver := GotRows(t.wire[..2 * n]), wire := t.wire[2 * n..])
    case GotRows(rows) =>
      var n := NextSize(|es|, t.recvBase);
      t.(receiver := ReceiverIdle, wire := t.wire[n..], recvBase := t.recvBase + n,
         pipe2 := t.pipe2 + [Assembled(rows, t.wire[..n])])
    case _ => t
  }

  function EvaluateStep(es: seq<Entry>, t: Threads): Threads
    requires Safe(es, t, Evaluate) && Enabled(es, t, Evaluate)
  {
    match t.evaluator
    case NeedChunk => if |t.used| >= |es| then t.(evaluator := Leaving) else t.(evaluator := Reading(0))
    case Reading(loc) =>
      if |t.used| >= |es| then t.(evaluator := Leaving, usedBase := t.usedBase + |t.pipe2[0]|, pipe2 := t.pipe2[1..])
      else if loc == |t.pipe2[0]| then t.(evaluator := NeedChunk, usedBase := t.usedBase + |t.pipe2[0]|, pipe2 := t.pipe2[1..])
      else t.(evaluator := Reading(loc + 1), used := t.used + [t.pipe2[0][loc]])
    case _ => t.(evaluator := EvaluatorDone)
  }

  // ---- the invariant ----

  /** A place where one chunk ends and the next begins. */
  predicate Boundary(n: nat, x: nat) {
    x <= n && (x % BATCH == 0 || x == n)
  }

  lemma NextBoundary(n: nat, x: nat)
    requires Boundary(n, x) && x < n
    ensures Boundary(n, x + NextSize(n, x))
  {
  }

  /** `chunks` are the entries `lo .. hi`, each chunk cut where the next size says. */
  ghost predicate Cut(es: seq<Entry>, lo: nat, hi: nat, chunks: seq<seq<Entry>>)
    decreases |chunks|
  {
    lo <= hi <= |es| &&
    if chunks == [] then lo == hi else
    && lo < |es| && lo + NextSize(|es|, lo) <= hi
    && chunks[0] == es[lo..lo + NextSize(|es|, lo)]
    && Cut(es, lo + NextSize(|es|, lo), hi, chunks[1..])
  }

  lemma {:induction false} CutGrows(es: seq<Entry>, lo: nat, hi: nat, chunks: seq<seq<Entry>>)
    requires Cut(es, lo, hi, chunks) && hi < |es|
    ensures var n := NextSize(|es|, hi); Cut(es, lo, hi + n, chunks + [es[hi..hi + n]])
    decreases |chunks|
  {
    var n := NextSize(|es|, hi);
    if chunks == [] {
      assert ([] + [es[hi..hi + n]])[1..] == [];
    } else {
      CutGrows(es, lo + NextSize(|es|, lo), hi, chunks[1..]);
      assert (chunks + [es[hi..hi + n]])[1..] == chunks[1..] + [es[hi..hi + n]];
    }
  }

  /** The garbler and its pipe. */
  ghost predicate GarblerOk(es: seq<Entry>, made: nat, garbler: GarblerAt, sentBase: nat, pipe1: seq<seq<Entry>>, closed1: bool,
                            senderDone: bool)
  {
    && made <= |es| && |pipe1| <= DEPTH
    && (closed1 <==> garbler.Joining? || garbler.GarblerDone?)
    && (match garbler
        case NeedSlot => Boundary(|es|, made) && Cut(es, sentBase, made, pipe1)
        case Filling(chunk) =>
          && |chunk| <= made && |chunk| < BATCH && |pipe1| < DEPTH
          && Boundary(|es|, made - |chunk|) && chunk == es[made - |chunk|..made]
          && Cut(es, sentBase, made - |chunk|, pipe1)
        case _ => made == |es| && Cut(es, sentBase, |es|, pipe1))
    && (garbler.GarblerDone? ==> senderDone)
  }

  /** How much of the whole stream the sender has put on the wire. */
  function SentUpTo(sentBase: nat, sender: SenderAt, pipe1: seq<seq<Entry>>): nat {
    match sender
    case RowsSent => 3 * sentBase + if pipe1 == [] then 0 else 2 * |pipe1[0]|
    case FlagsSent => 3 * sentBase + if pipe1 == [] then 0 else 3 * |pipe1[0]|
    case _ => 3 * sentBase
  }

  /** How much of it the receiver has taken off. */
  function TakenUpTo(recvBase: nat, receiver: ReceiverAt): nat {
    3 * recvBase + if receiver.GotRows? then |receiver.rows| else 0
  }

  /** The wire holds exactly what was sent and not yet taken. */
  ghost predicate WireOk(es: seq<Entry>, sentBase: nat, sender: SenderAt, pipe1: seq<seq<Entry>>, closed1: bool, taken: nat, wire: seq<Item>) {
    && Boundary(|es|, sentBase)
    && (sender.RowsSent? || sender.FlagsSent? ==> pipe1 != [])
    && (sender.SenderDone? ==> closed1 && pipe1 == [])
    && taken <= SentUpTo(sentBase, sender, pipe1) <= 3 * |es|
    && wire == Framed(es)[taken..SentUpTo(sentBase, sender, pipe1)]
  }

  ghost predicate ReceiverOk(es: seq<Entry>, recvBase: nat, receiver: ReceiverAt, room: bool, closed2: bool) {
    && Boundary(|es|, recvBase)
    && (closed2 <==> receiver.ReceiverDone?)
    && (match receiver
        case ReceiverIdle => true
        case HasSlot => recvBase < |es| && room
        case GotRows(rows) => recvBase < |es| && room && rows == Rows(es[recvBase..recvBase + NextSize(|es|, recvBase)])
        case ReceiverDone => recvBase == |es|)
  }

  /** The evaluator and its pipe. */
  ghost predicate EvaluatorOk(es: seq<Entry>, usedBase: nat, recvBase: nat, pipe2: seq<seq<Entry>>, evaluator: EvaluatorAt,
                              used: seq<Entry>, receiverDone: bool)
  {
    && |pipe2| <= DEPTH && Cut(es, usedBase, recvBase, pipe2)
    && (match evaluator
        case NeedChunk => used == es[..usedBase]
        case Reading(loc) => pipe2 != [] && loc <= |pipe2[0]| && used == es[..usedBase + loc]
        case _ => used == es && usedBase == |es|)
    && (evaluator.EvaluatorDone? ==> receiverDone)
  }

  ghost predicate Inv(es: seq<Entry>, t: Threads) {
    && GarblerOk(es, t.made, t.garbler, t.sentBase, t.pipe1, t.closed1, t.sender.SenderDone?)
    && WireOk(es, t.sentBase, t.sender, t.pipe1, t.closed1, TakenUpTo(t.recvBase, t.receiver), t.wire)
    && ReceiverOk(es, t.recvBase, t.receiver, |t.pipe2| < DEPTH, t.closed2)
    && EvaluatorOk(es, t.usedBase, t.recvBase, t.pipe2, t.evaluator, t.used, t.receiver.ReceiverDone?)
  }

  lemma StartsOk(es: seq<Entry>)
    ensures Inv(es, START)
  {
  }

  // ---- every step keeps it ----

  /** Filling: the chunk in hand stays inside its buffer, and what is published is cut where it should be. */
  lemma FillKeeps(es: seq<Entry>, t: Threads)
    requires GarblerOk(es, t.made, t.garbler, t.sentBase, t.pipe1, t.closed1, t.sender.SenderDone?) && t.garbler.Filling?
    ensures Safe(es, t, Garble)
    ensures var u := GarbleStep(es, t); GarblerOk(es, u.made, u.garbler, t.sentBase, u.pipe1, u.closed1, t.sender.SenderDone?)
  {
    hide Cut;
    var chunk := t.garbler.chunk;
    var base := t.made - |chunk|;
    if t.made < |es| {
      assert es[base..t.made + 1] == chunk + [es[t.made]];
      if |chunk| + 1 == BATCH {
        CutGrows(es, t.sentBase, base, t.pipe1);
        NextBoundary(|es|, base);
      }
    } else if chunk != [] {
      CutGrows(es, t.sentBase, base, t.pipe1);
      assert es[base..] == chunk;
    }
  }

  lemma GarblerKeeps(es: seq<Entry>, t: Threads)
    requires GarblerOk(es, t.made, t.garbler, t.sentBase, t.pipe1, t.closed1, t.sender.SenderDone?) && Enabled(es, t, Garble)
    ensures Safe(es, t, Garble)
    ensures var u := GarbleStep(es, t); GarblerOk(es, u.made, u.garbler, t.sentBase, u.pipe1, u.closed1, t.sender.SenderDone?)
  {
    hide Cut;
    if t.garbler.Filling? {
      FillKeeps(es, t);
      hide GarbleStep, Safe;
    }
  }

  /** What a garbler's step can change. */
  lemma GarbleFrame(es: seq<Entry>, t: Threads)
    requires Enabled(es, t, Garble)
    ensures var u := GarbleStep(es, t);
      && u == t.(made := u.made, garbler := u.garbler, pipe1 := u.pipe1, closed1 := u.closed1)
      && t.pipe1 <= u.pipe1 && (t.closed1 ==> u.closed1)
      && (u.pipe1 != t.pipe1 ==> t.garbler.Filling?)
  {
  }

  lemma WireIgnoresTail(es: seq<Entry>, sentBase: nat, sender: SenderAt, pipe1: seq<seq<Entry>>, closed1: bool, taken: nat,
                        wire: seq<Item>, more: seq<seq<Entry>>, closed: bool)
    requires WireOk(es, sentBase, sender, pipe1, closed1, taken, wire)
    requires pipe1 <= more && (closed1 ==> closed) && (more != pipe1 ==> !closed1)
    ensures WireOk(es, sentBase, sender, more, closed, taken, wire)
  {
    hide Framed, Boundary;
  }

  lemma GarbleKeeps(es: seq<Entry>, t: Threads)
    requires Inv(es, t) && Enabled(es, t, Garble)
    ensures Safe(es, t, Garble) && Inv(es, GarbleStep(es, t))
  {
    GarblerKeeps(es, t);
    GarbleFrame(es, t);
    FillingIsOpen(es, t);
    hide WireOk, ReceiverOk, EvaluatorOk, Safe, GarbleStep, Enabled, GarblerOk;
    var u := GarbleStep(es, t);
    WireIgnoresTail(es, t.sentBase, t.sender, t.pipe1, t.closed1, TakenUpTo(t.recvBase, t.receiver), t.wire, u.pipe1, u.closed1);
  }

  lemma FillingIsOpen(es: seq<Entry>, t: Threads)
    requires GarblerOk(es, t.made, t.garbler, t.sentBase, t.pipe1, t.closed1, t.sender.SenderDone?)
    ensures t.garbler.Filling? ==> !t.closed1
  {
  }

  /** The chunk at a boundary, as it stands in the whole stream: its ciphertexts, then its parity bits. */
  lemma ChunkInStream(es: seq<Entry>, base: nat)
    requires Boundary(|es|, base) && base < |es|
    ensures var n := NextSize(|es|, base);
      && base + n <= |es| && |Framed(es)| == 3 * |es|
      && Framed(es)[3 * base..3 * base + 2 * n] == Rows(es[base..base + n])
      && Framed(es)[3 * base + 2 * n..3 * base + 3 * n] == Flags(es[base..base + n])
  {
    hide Framed, Rows, Flags;
    var n := NextSize(|es|, base);
    FrameAt(es, base, n);
    SplitAt(Framed(es), 3 * base, 2 * n, 3 * n, Rows(es[base..base + n]), Flags(es[base..base + n]));
  }

  lemma SplitAt<T>(s: seq<T>, at: nat, m: nat, n: nat, a: seq<T>, b: seq<T>)
    requires m <= n && at + n <= |s| && s[at..at + n] == a + b && |a| == m
    ensures s[at..at + m] == a && s[at + m..at + n] == b
  {
    assert s[at..at + n][..m] == s[at..at + m];
    assert s[at..at + n][m..] == s[at + m..at + n];
  }

  /** The head of a cut pipe. */
  lemma CutHead(es: seq<Entry>, lo: nat, hi: nat, chunks: seq<seq<Entry>>)
    requires Cut(es, lo, hi, chunks) && chunks != []
    ensures lo < |es| && |chunks[0]| == NextSize(|es|, lo) && lo + |chunks[0]| <= hi <= |es|
    ensures chunks[0] == es[lo..lo + |chunks[0]|] && Cut(es, lo + |chunks[0]|, hi, chunks[1..])
  {
  }

  lemma SliceJoins<T>(s: seq<T>, i: nat, j: nat, k: nat)
    requires i <= j <= k <= |s|
    ensures s[i..j] + s[j..k] == s[i..k]
  {
  }

  lemma CutPipe1(es: seq<Entry>, t: Threads)
    requires GarblerOk(es, t.made, t.garbler, t.sentBase, t.pipe1, t.closed1, t.sender.SenderDone?) && t.pipe1 != []
    ensures t.sentBase < |es| && |t.pipe1[0]| == NextSize(|es|, t.sentBase)
    ensures t.pipe1[0] == es[t.sentBase..t.sentBase + |t.pipe1[0]|]
    ensures GarblerOk(es, t.made, t.garbler, t.sentBase + |t.pipe1[0]|, t.pipe1[1..], t.closed1, t.sender.SenderDone?)
  {
    var hi := match t.garbler case Filling(chunk) => t.made - |chunk| case _ => t.made;
    CutHead(es, t.sentBase, hi, t.pipe1);
    hide Cut;
  }

  /** Putting the next part of the stream on the wire. */
  lemma WireSends(es: seq<Entry>, sentBase: nat, sender: SenderAt, sender': SenderAt, pipe1: seq<seq<Entry>>, closed1: bool, taken: nat,
                  wire: seq<Item>, more: seq<Item>)
    requires WireOk(es, sentBase, sender, pipe1, closed1, taken, wire) && pipe1 != [] && !sender'.SenderDone?
    requires SentUpTo(sentBase, sender, pipe1) <= SentUpTo(sentBase, sender', pipe1) <= 3 * |es|
    requires more == Framed(es)[SentUpTo(sentBase, sender, pipe1)..SentUpTo(sentBase, sender', pipe1)]
    ensures WireOk(es, sentBase, sender', pipe1, closed1, taken, wire + more)
  {
    hide Framed, Boundary;
    SliceJoins(Framed(es), taken, SentUpTo(sentBase, sender, pipe1), SentUpTo(sentBase, sender', pipe1));
  }

  lemma SendWire(es: seq<Entry>, t: Threads, taken: nat)
    requires WireOk(es, t.sentBase, t.sender, t.pipe1, t.closed1, taken, t.wire) && Enabled(es, t, Send)
    requires t.pipe1 != [] ==> t.sentBase < |es| && |t.pipe1[0]| == NextSize(|es|, t.sentBase)
                               && t.pipe1[0] == es[t.sentBase..t.sentBase + |t.pipe1[0]|]
    ensures Safe(es, t, Send)
    ensures var u := SendStep(t); WireOk(es, u.sentBase, u.sender, u.pipe1, t.closed1, taken, u.wire)
  {
    hide Framed, Rows, Flags, NextSize, Boundary;
    if t.pipe1 != [] {
      ChunkInStream(es, t.sentBase);
      match t.sender
      case SenderIdle =>
        WireSends(es, t.sentBase, SenderIdle, RowsSent, t.pipe1, t.closed1, taken, t.wire, Rows(t.pipe1[0]));
      case RowsSent =>
        WireSends(es, t.sentBase, RowsSent, FlagsSent, t.pipe1, t.closed1, taken, t.wire, Flags(t.pipe1[0]));
      case FlagsSent => NextBoundary(|es|, t.sentBase);
      case SenderDone =>
    }
  }

  /** What a sender's step can change. */
  lemma SendFrame(es: seq<Entry>, t: Threads)
    requires Enabled(es, t, Send) && Safe(es, t, Send)
    ensures var u := SendStep(t);
      && u == t.(sentBase := u.sentBase, sender := u.sender, wire := u.wire, pipe1 := u.pipe1)
      && ((u.pipe1 == t.pipe1 && u.sentBase == t.sentBase)
          || (t.pipe1 != [] && u.pipe1 == t.pipe1[1..] && u.sentBase == t.sentBase + |t.pipe1[0]|))
      && (t.sender.SenderDone? == u.sender.SenderDone? || (u.sender.SenderDone? && u.pipe1 == t.pipe1 && u.sentBase == t.sentBase))
  {
  }

  lemma SenderEnds(es: seq<Entry>, t: Threads)
    requires GarblerOk(es, t.made, t.garbler, t.sentBase, t.pipe1, t.closed1, false)
    ensures GarblerOk(es, t.made, t.garbler, t.sentBase, t.pipe1, t.closed1, true)
  {
    hide Cut;
  }

  lemma SendKeeps(es: seq<Entry>, t: Threads)
    requires Inv(es, t) && Enabled(es, t, Send)
    ensures Safe(es, t, Send) && Inv(es, SendStep(t))
  {
    if t.pipe1 != [] {
      CutPipe1(es, t);
    }
    SendWire(es, t, TakenUpTo(t.recvBase, t.receiver));
    SendFrame(es, t);
    if !t.sender.SenderDone? {
      SenderEnds(es, t);
    }
    hide WireOk, ReceiverOk, EvaluatorOk, Safe, SendStep, Enabled, GarblerOk;
  }

  /** Reading a chunk back from its ciphertexts and parity bits. */
  lemma AssembledIsChunk(c: seq<Entry>)
    ensures (forall i | 0 <= i < 2 * |c| :: Rows(c)[i].Row?) && forall i | 0 <= i < |c| :: Flags(c)[i].Flag?
    ensures Assembled(Rows(c), Flags(c)) == c
  {
    hide Rows, Flags;
    forall i | 0 <= i < 2 * |c|
      ensures Rows(c)[i].Row?
    {
      RowsAt(c, i / 2);
    }
    forall i | 0 <= i < |c|
      ensures Flags(c)[i].Flag? && Rows(c)[2 * i] == Row(c[i].g0) && Rows(c)[2 * i + 1] == Row(c[i].g1) && Flags(c)[i] == Flag(c[i].b)
    {
      RowsAt(c, i);
      FlagsAt(c, i);
    }
  }

  /** Taking the next part of the stream off the wire. */
  lemma WireTakes(es: seq<Entry>, sentBase: nat, sender: SenderAt, pipe1: seq<seq<Entry>>, closed1: bool, taken: nat,
                  wire: seq<Item>, k: nat)
    requires WireOk(es, sentBase, sender, pipe1, closed1, taken, wire) && k <= |wire|
    ensures taken + k <= 3 * |es| == |Framed(es)| && wire[..k] == Framed(es)[taken..taken + k]
    ensures WireOk(es, sentBase, sender, pipe1, closed1, taken + k, wire[k..])
  {
    hide Framed, Boundary;
  }

  /** The receiver computes the sender's chunk size, and finds that chunk's ciphertexts on the wire. */
  lemma ReceiveRows(es: seq<Entry>, t: Threads)
    requires Inv(es, t) && Enabled(es, t, Receive) && t.receiver.HasSlot?
    ensures Safe(es, t, Receive) && Inv(es, ReceiveStep(es, t))
  {
    hide Framed, Rows, Flags, Boundary, Cut, GarblerOk, EvaluatorOk, WireOk;
    var n := NextSize(|es|, t.recvBase);
    WireTakes(es, t.sentBase, t.sender, t.pipe1, t.closed1, 3 * t.recvBase, t.wire, 2 * n);
    ReceiverFacts(es, t);
    ChunkInStream(es, t.recvBase);
    AssembledIsChunk(es[t.recvBase..t.recvBase + n]);
    assert forall i | 0 <= i < 2 * n :: t.wire[i] == t.wire[..2 * n][i];
  }

  /** Then its parity bits; what it publishes is the chunk the garbler published. */
  lemma ReceiveFlags(es: seq<Entry>, t: Threads)
    requires Inv(es, t) && Enabled(es, t, Receive) && t.receiver.GotRows?
    ensures Safe(es, t, Receive) && Inv(es, ReceiveStep(es, t))
  {
    hide Framed, Rows, Flags, Boundary, Cut, GarblerOk, EvaluatorOk, WireOk, Assembled;
    var n := NextSize(|es|, t.recvBase);
    var c := es[t.recvBase..t.recvBase + n];
    WireTakes(es, t.sentBase, t.sender, t.pipe1, t.closed1, 3 * t.recvBase + 2 * n, t.wire, n);
    ReceiverFacts(es, t);
    ChunkInStream(es, t.recvBase);
    AssembledIsChunk(c);
    NextBoundary(|es|, t.recvBase);
    assert forall i | 0 <= i < n :: t.wire[i] == t.wire[..n][i];
    assert t.wire[..n] == Flags(c);
    EvaluatorGains(es, t.usedBase, t.recvBase, t.pipe2, t.evaluator, t.used);
  }

  lemma EvaluatorGains(es: seq<Entry>, usedBase: nat, recvBase: nat, pipe2: seq<seq<Entry>>, evaluator: EvaluatorAt, used: seq<Entry>)
    requires EvaluatorOk(es, usedBase, recvBase, pipe2, evaluator, used, false) && recvBase < |es| && |pipe2| < DEPTH
    ensures var n := NextSize(|es|, recvBase);
      EvaluatorOk(es, usedBase, recvBase + n, pipe2 + [es[recvBase..recvBase + n]], evaluator, used, false)
  {
    CutGrows(es, usedBase, recvBase, pipe2);
    hide Cut, NextSize;
  }

  lemma ReceiveKeeps(es: seq<Entry>, t: Threads)
    requires Inv(es, t) && Enabled(es, t, Receive)
    ensures Safe(es, t, Receive) && Inv(es, ReceiveStep(es, t))
  {
    hide Cut, GarblerOk, WireOk;
    match t.receiver
    case HasSlot => ReceiveRows(es, t);
    case GotRows(_) => ReceiveFlags(es, t);
    case _ =>
  }

  lemma ReceiverFacts(es: seq<Entry>, t: Threads)
    requires ReceiverOk(es, t.recvBase, t.receiver, |t.pipe2| < DEPTH, t.closed2)
    ensures Boundary(|es|, t.recvBase)
  {
  }

  /** The evaluator reads entry `i` for AND `i`, and never meets a drained pipe. */
  lemma EvaluatorKeeps(es: seq<Entry>, t: Threads)
    requires EvaluatorOk(es, t.usedBase, t.recvBase, t.pipe2, t.evaluator, t.used, t.receiver.ReceiverDone?)
    requires ReceiverOk(es, t.recvBase, t.receiver, |t.pipe2| < DEPTH, t.closed2) && Enabled(es, t, Evaluate)
    ensures Safe(es, t, Evaluate)
    ensures var u := EvaluateStep(es, t);
      EvaluatorOk(es, u.usedBase, t.recvBase, u.pipe2, u.evaluator, u.used, t.receiver.ReceiverDone?)
  {
    hide Cut, Boundary;
    if t.pipe2 != [] {
      CutHead(es, t.usedBase, t.recvBase, t.pipe2);
    } else {
      CutEnds(es, t.usedBase, t.recvBase);
    }
  }

  /** What an evaluator's step can change. */
  lemma EvaluateFrame(es: seq<Entry>, t: Threads)
    requires Enabled(es, t, Evaluate) && Safe(es, t, Evaluate)
    ensures var u := EvaluateStep(es, t);
      && u == t.(usedBase := u.usedBase, evaluator := u.evaluator, pipe2 := u.pipe2, used := u.used)
      && |u.pipe2| <= |t.pipe2|
  {
  }

  lemma MoreRoom(es: seq<Entry>, recvBase: nat, receiver: ReceiverAt, room: bool, more: bool, closed2: bool)
    requires ReceiverOk(es, recvBase, receiver, room, closed2) && (room ==> more)
    ensures ReceiverOk(es, recvBase, receiver, more, closed2)
  {
    hide Boundary;
  }

  lemma EvaluateKeeps(es: seq<Entry>, t: Threads)
    requires Inv(es, t) && Enabled(es, t, Evaluate)
    ensures Safe(es, t, Evaluate) && Inv(es, EvaluateStep(es, t))
  {
    EvaluatorKeeps(es, t);
    EvaluateFrame(es, t);
    hide GarblerOk, WireOk, ReceiverOk, EvaluatorOk, Enabled, Safe, EvaluateStep;
    MoreRoom(es, t.recvBase, t.receiver, |t.pipe2| < DEPTH, |EvaluateStep(es, t).pipe2| < DEPTH, t.closed2);
  }

  lemma CutEnds(es: seq<Entry>, lo: nat, hi: nat)
    ensures Cut(es, lo, hi, []) <==> lo == hi <= |es|
  {
  }

  /** Every step of every thread is safe and keeps the invariant. */
  lemma StepKeeps(es: seq<Entry>, t: Threads, m: Move)
    requires Inv(es, t) && Enabled(es, t, m)
    ensures Safe(es, t, m) && Inv(es, Step(es, t, m))
  {
    hide Inv, Enabled, Safe, GarbleStep, SendStep, ReceiveStep, EvaluateStep;
    match m
    case Garble => GarbleKeeps(es, t);
    case Send => SendKeeps(es, t);
    case Receive => ReceiveKeeps(es, t);
    case Evaluate => EvaluateKeeps(es, t);
  }

  // ---- progress ----

  predicate AllDone(t: Threads) {
    t.garbler.GarblerDone? && t.sender.SenderDone? && t.receiver.ReceiverDone? && t.evaluator.EvaluatorDone?
  }

  /** The garbler's side never waits for the evaluator's: while either thread is alive one of them can move. */
  lemma SendersMove(es: seq<Entry>, t: Threads)
    requires Inv(es, t) && !Enabled(es, t, Garble) && !Enabled(es, t, Send)
    ensures t.garbler.GarblerDone? && t.sender.SenderDone?
  {
    hide ReceiverOk, EvaluatorOk, Boundary, Cut;
  }

  /** Once everything is sent, bytes never run short. */
  lemma AllSent(es: seq<Entry>, t: Threads)
    requires Inv(es, t) && t.garbler.GarblerDone? && t.sender.SenderDone?
    ensures |t.wire| == 3 * |es| - TakenUpTo(t.recvBase, t.receiver)
    ensures t.receiver.GotRows? ==> |t.receiver.rows| == 2 * NextSize(|es|, t.recvBase)
  {
    hide EvaluatorOk, Boundary, Framed, Rows;
  }

  /** Then the receiver waits only for room, and the evaluator only for a chunk or the receiver's end. */
  lemma ReadersMove(es: seq<Entry>, t: Threads)
    requires Inv(es, t) && t.garbler.GarblerDone? && t.sender.SenderDone? && !AllDone(t)
    ensures Enabled(es, t, Receive) || Enabled(es, t, Evaluate)
  {
    AllSent(es, t);
    hide GarblerOk, WireOk, Boundary;
  }

  /** The first thread that can move, if any. */
  function FirstEnabled(es: seq<Entry>, t: Threads): Move {
    if Enabled(es, t, Garble) then Garble else if Enabled(es, t, Send) then Send
    else if Enabled(es, t, Receive) then Receive else Evaluate
  }

  /** No deadlock: until all four threads have ended, one of them can move. */
  lemma SomeoneMoves(es: seq<Entry>, t: Threads)
    requires Inv(es, t) && !AllDone(t)
    ensures Enabled(es, t, FirstEnabled(es, t))
  {
    hide Inv, Enabled, AllDone;
    if !Enabled(es, t, Garble) && !Enabled(es, t, Send) {
      SendersMove(es, t);
      ReadersMove(es, t);
    }
  }

  function GarblerLeft(n: nat, made: nat, garbler: GarblerAt): int {
    4 * (n - made) + match garbler case NeedSlot => 4 case Filling(_) => 3 case Closing => 2 case Joining => 1 case GarblerDone => 0
  }

  function SenderLeft(n: nat, sentBase: nat, sender: SenderAt): int {
    3 * (n - sentBase) + match sender case SenderIdle => 1 case RowsSent => 0 case FlagsSent => -1 case SenderDone => 0
  }

  function ReceiverLeft(n: nat, recvBase: nat, receiver: ReceiverAt): int {
    3 * (n - recvBase) + match receiver case ReceiverIdle => 1 case HasSlot => 0 case GotRows(_) => -1 case ReceiverDone => 0
  }

  function EvaluatorLeft(n: nat, used: nat, usedBase: nat, evaluator: EvaluatorAt): int {
    6 * (n - used) + match evaluator
      case NeedChunk => 3
      case Reading(loc) => if usedBase + loc < n && loc > 0 then 4 else 2
      case Leaving => 1
      case EvaluatorDone => 0
  }

  /** The steps left to take, at most. */
  function StepsLeft(es: seq<Entry>, t: Threads): int {
    GarblerLeft(|es|, t.made, t.garbler) + SenderLeft(|es|, t.sentBase, t.sender)
    + ReceiverLeft(|es|, t.recvBase, t.receiver) + EvaluatorLeft(|es|, |t.used|, t.usedBase, t.evaluator)
  }

  lemma GarbleDecreases(es: seq<Entry>, t: Threads)
    requires Enabled(es, t, Garble)
    ensures var u := GarbleStep(es, t); GarblerLeft(|es|, u.made, u.garbler) < GarblerLeft(|es|, t.made, t.garbler)
  {
  }

  lemma SendDecreases(es: seq<Entry>, t: Threads)
    requires Inv(es, t) && Enabled(es, t, Send) && Safe(es, t, Send)
    ensures var u := SendStep(t); SenderLeft(|es|, u.sentBase, u.sender) < SenderLeft(|es|, t.sentBase, t.sender)
  {
    if t.pipe1 != [] {
      CutPipe1(es, t);
    }
    hide Inv, Rows, Flags;
  }

  lemma ReceiveDecreases(es: seq<Entry>, t: Threads)
    requires Enabled(es, t, Receive) && Safe(es, t, Receive)
    ensures var u := ReceiveStep(es, t);
      && u == t.(recvBase := u.recvBase, receiver := u.receiver, wire := u.wire, pipe2 := u.pipe2, closed2 := u.closed2)
      && ReceiverLeft(|es|, u.recvBase, u.receiver) < ReceiverLeft(|es|, t.recvBase, t.receiver)
  {
    hide Assembled;
  }

  lemma EvaluateDecreases(es: seq<Entry>, t: Threads)
    requires EvaluatorOk(es, t.usedBase, t.recvBase, t.pipe2, t.evaluator, t.used, t.receiver.ReceiverDone?)
    requires Enabled(es, t, Evaluate) && Safe(es, t, Evaluate)
    ensures var u := EvaluateStep(es, t);
      EvaluatorLeft(|es|, |u.used|, u.usedBase, u.evaluator) < EvaluatorLeft(|es|, |t.used|, t.usedBase, t.evaluator)
  {
    if t.pipe2 != [] {
      CutHead(es, t.usedBase, t.recvBase, t.pipe2);
    }
    hide Cut;
  }

  /** Every step brings the end nearer. */
  lemma StepDecreases(es: seq<Entry>, t: Threads, m: Move)
    requires Inv(es, t) && Enabled(es, t, m) && Safe(es, t, m)
    ensures StepsLeft(es, Step(es, t, m)) < StepsLeft(es, t)
  {
    EvaluatorPart(es, t);
    hide Inv, EvaluatorOk, Enabled, Safe, GarbleStep, SendStep, ReceiveStep, EvaluateStep;
    hide GarblerLeft, SenderLeft, ReceiverLeft, EvaluatorLeft;
    match m
    case Garble => GarbleFrame(es, t); GarbleDecreases(es, t);
    case Send => SendFrame(es, t); SendDecreases(es, t);
    case Receive => ReceiveDecreases(es, t);
    case Evaluate => EvaluateFrame(es, t); EvaluateDecreases(es, t);
  }

  lemma EvaluatorPart(es: seq<Entry>, t: Threads)
    requires Inv(es, t)
    ensures EvaluatorOk(es, t.usedBase, t.recvBase, t.pipe2, t.evaluator, t.used, t.receiver.ReceiverDone?)
  {
    hide GarblerOk, WireOk, ReceiverOk, EvaluatorOk;
  }

  lemma EvaluatorLeftIsNat(es: seq<Entry>, t: Threads)
    requires EvaluatorOk(es, t.usedBase, t.recvBase, t.pipe2, t.evaluator, t.used, t.receiver.ReceiverDone?)
    ensures EvaluatorLeft(|es|, |t.used|, t.usedBase, t.evaluator) >= 0
  {
    if t.pipe2 != [] {
      CutHead(es, t.usedBase, t.recvBase, t.pipe2);
    }
    hide Cut;
  }

  lemma LeftIsNat(es: seq<Entry>, t: Threads)
    requires Inv(es, t)
    ensures StepsLeft(es, t) >= 0
  {
    EvaluatorPart(es, t);
    EvaluatorLeftIsNat(es, t);
    if t.pipe1 != [] {
      CutPipe1(es, t);
    }
    hide EvaluatorOk, EvaluatorLeft, Cut, Framed, Rows;
  }

  /** All four threads under any scheduler. It proposes a thread for each step; a proposal that would have to wait goes to
      one that can move. The run ends, and then AND `i` has read the entry the garbler made for AND `i`, for every `i`. */
  method RunThreads(es: seq<Entry>, scheduler: nat -> Move) returns (used: seq<Entry>, steps: nat)
    ensures used == es
    ensures steps <= StepsLeft(es, START)
  {
    hide Inv, Enabled, Safe, Step, StepsLeft, FirstEnabled, AllDone;
    var t := START;
    steps := 0;
    StartsOk(es);
    LeftIsNat(es, t);
    while !AllDone(t)
      invariant Inv(es, t) && 0 <= StepsLeft(es, t) <= StepsLeft(es, START) - steps
      decreases StepsLeft(es, t)
    {
      var m := scheduler(steps);
      if !Enabled(es, t, m) {
        SomeoneMoves(es, t);
        m := FirstEnabled(es, t);
      }
      StepKeeps(es, t, m);
      StepDecreases(es, t, m);
      LeftIsNat(es, Step(es, t, m));
      t, steps := Step(es, t, m), steps + 1;
    }
    DoneDelivers(es, t);
    used := t.used;
  }

  lemma DoneDelivers(es: seq<Entry>, t: Threads)
    requires Inv(es, t) && AllDone(t)
    ensures t.used == es
  {
  }
}
