/** What the calls of a user program decide by themselves: which wires exist, what the recorded ones depend on, and how every
    call ends, short of a c_gamma check that two honest parties fail.

    A user program is a list of calls over handles. Every wire a call returns gets the next handle, and later calls name
    wires by handle. Two handles may name one wire: a constant is recorded once per chunk. */
module Ledgers {
  import opened Circuits
  import opened Options
  import opened Engines
  import opened Protocols
  import opened Recorders
  import opened Cones

  datatype Command =
    | Input(owner: int, bits1: seq<bool>, bits2: seq<bool>)
    | OpenBatch
    | Add(batch: nat, owner: int, bits1: seq<bool>, bits2: seq<bool>)
    | Finish(batch: nat)
    | Constant(bit: bool)
    | And(a: nat, b: nat)
    | Xor(a: nat, b: nat)
    | Not(a: nat)
    | RunBody(calls: seq<Gate>, outs: seq<nat>, args: seq<seq<nat>>)
    | RunCompiled(prog: Program, args: seq<seq<nat>>)
    | Checkpoint(keeps: seq<nat>)
    | Reveal(wires: seq<nat>, recipient: int, keeps: seq<nat>)

  /** The wires of some handles; a legal call names only handles it was given. */
  function WiresOf(handles: seq<nat>, hs: seq<nat>): (r: seq<nat>)
    ensures |r| == |hs|
  {
    seq(|hs|, i requires 0 <= i < |hs| => if hs[i] < |handles| then handles[hs[i]] else 0)
  }

  /** An input batch: the wires it handed out, whether every owner named is one of ALICE, BOB and the public, and whether it
      holds a bit of ALICE or BOB. */
  datatype Book = Book(wires: set<nat>, finished: bool, known: bool, secret: bool)

  /** `next` wires were handed out, `kept` are carried, and `open` are recorded and not yet flushed, each with what it depends
      on; `zero` and `one` are the chunk's constants. */
  datatype Ledger = Ledger(handles: seq<nat>, next: nat, kept: set<nat>, open: Open, zero: Option<nat>, one: Option<nat>,
                           batches: seq<Book>) {
    function Wires(hs: seq<nat>): (r: seq<nat>)
      ensures |r| == |hs|
    {
      WiresOf(handles, hs)
    }

    function Args(args: seq<seq<nat>>): seq<nat> {
      Wires(Flat<nat>(args, |args|))
    }

    predicate AllKept(ws: seq<nat>) {
      forall i | 0 <= i < |ws| :: ws[i] in kept
    }

    predicate AnyOpen(ws: seq<nat>) {
      exists i | 0 <= i < |ws| :: ws[i] in open
    }

    /** Every one of the wires exists, and so does all that the recorded ones depend on. */
    predicate Flushable(ws: seq<nat>) {
      forall i | 0 <= i < |ws| :: ws[i] in kept || (ws[i] in open && open[ws[i]].outside <= kept)
    }

    /** A flush that leaves agreed masks agreed: none, or with an AND below a kept wire, or of constants alone. */
    predicate FlushStays(ws: seq<nat>) {
      || (exists i | 0 <= i < |ws| :: ws[i] in open && open[ws[i]].ands)
      || forall i | 0 <= i < |ws| && ws[i] in open :: open[ws[i]].isConst
    }

    /** Are there ids left for `n` more wires? */
    function Room(n: nat): Status {
      if next + n <= UINT32_MAX then Done else IdOverflow
    }

    /** How a call ends; `disturbed` says that the differences between the parties' opened masks fail its c_gamma check. */
    ghost function Outcome(cmd: Command, disturbed: bool): Status {
      match cmd
      case Input(o, x1, _) => if KnownOwner(o) then Room(|x1|) else BadOwner
      case OpenBatch => Done
      case Add(b, _, x1, _) => if b < |batches| && batches[b].finished then BatchFinished else Room(|x1|)
      case Finish(b) =>
        if b < |batches| && batches[b].finished then BatchFinished
        else if b < |batches| && !batches[b].known then BadOwner else Done
      case Constant(v) => if (if v then one else zero).Some? then Done else Room(1)
      case And(_, _) => Room(1)
      case Xor(_, _) => Room(1)
      case Not(_) => Room(1)
      case RunBody(_, outs, args) =>
        if !AllKept(Args(args)) then Unflushed else if disturbed then Status.CheckFailed else Room(|outs|)
      case RunCompiled(prog, args) =>
        if !AllKept(Args(args)) then Unflushed
        else if |Args(args)| != prog.numInputs then BadWidth
        else if !CanonicalProgram(prog) then NotCanonical
        else if disturbed then Status.CheckFailed else Room(|prog.outputs|)
      case Checkpoint(keeps) =>
        if !Flushable(Wires(keeps)) then StaleWire else if disturbed then Status.CheckFailed else Done
      case Reveal(ws, r, keeps) =>
        if r != PUBLIC && r != ALICE && r != BOB then BadRecipient
        else if !Flushable(Wires(ws + keeps)) then StaleWire else if disturbed then Status.CheckFailed else Done
    }

    /** The next `n` wires. */
    function Next(n: nat): (ws: seq<nat>)
      ensures |ws| == n
    {
      seq(n, i => next + i)
    }

    function Range(n: nat): set<nat> {
      set w | w in Next(n)
    }

    /** Hand out the next `n` wires. */
    function Hand(n: nat): Ledger {
      this.(handles := handles + Next(n), next := next + n)
    }

    function HandKept(n: nat): Ledger {
      Hand(n).(kept := kept + Range(n))
    }

    /** Record a gate over wires `a` and `b`. */
    function Record(op: Op, a: nat, b: nat): Ledger {
      Hand(1).(open := open[next := ConeOf(open, Gate(a, b, next, op))])
    }

    function WithConstant(v: bool): Ledger {
      match if v then one else zero
      case Some(w) => this.(handles := handles + [w])
      case None =>
        if v then Record(Const1, 0, 0).(one := Some(next)) else Record(Const0, 0, 0).(zero := Some(next))
    }

    /** The recorded wires among `ws` are carried from now on; all others are gone. */
    function Flushed(ws: seq<nat>): Ledger {
      this.(kept := kept + (set w | w in ws && w in open), open := map[], zero := None, one := None)
    }

    /** The books after a call that ended well. */
    function Step(cmd: Command): Ledger {
      match cmd
      case Input(_, x1, _) => HandKept(|x1|)
      case OpenBatch => this.(batches := batches + [Book({}, false, true, false)])
      case Add(b, o, x1, _) =>
        if b >= |batches| then this else
        var k := batches[b];
        Hand(|x1|).(batches := batches[b := Book(k.wires + Range(|x1|), k.finished, k.known && KnownOwner(o),
                                                  k.secret || (o != PUBLIC && x1 != []))])
      case Finish(b) =>
        if b >= |batches| then this else this.(kept := kept + batches[b].wires, batches := batches[b := batches[b].(finished := true)])
      case Constant(v) => WithConstant(v)
      case And(a, b) => Record(AndOp, Wires([a])[0], Wires([b])[0])
      case Xor(a, b) => Record(XorOp, Wires([a])[0], Wires([b])[0])
      case Not(a) => Record(NotOp, Wires([a])[0], 0)
      case RunBody(_, outs, _) => HandKept(|outs|)
      case RunCompiled(prog, _) => HandKept(|prog.outputs|)
      case Checkpoint(keeps) => Flushed(Wires(keeps)).(kept := set w | w in Wires(keeps))
      case Reveal(ws, _, keeps) => Flushed(Wires(ws + keeps))
    }

    /** Does the call keep agreed masks agreed? It can be read off the circuit, or off what the flushed wires depend on. */
    ghost predicate Travels(cmd: Command) {
      match cmd
      case RunBody(calls, outs, args) =>
        Body(|Args(args)|, calls, outs) ==> OutputMasksTravel(|Args(args)|, calls, outs)
      case RunCompiled(prog, args) =>
        Body(|Args(args)|, prog.gates, prog.outputs) ==> OutputMasksTravel(|Args(args)|, prog.gates, prog.outputs)
      case Checkpoint(keeps) => FlushStays(Wires(keeps))
      case Reveal(ws, _, keeps) => FlushStays(Wires(ws + keeps))
      case _ => true
    }
  }

  /** A failed check is the only thing the calls do not decide. */
  lemma OnlyChecksDisturb(l: Ledger, cmd: Command, disturbed: bool)
    ensures !l.Outcome(cmd, false).CheckFailed?
    ensures l.Outcome(cmd, disturbed) == l.Outcome(cmd, false) || (disturbed && l.Outcome(cmd, disturbed) == Status.CheckFailed)
  {
    hide CanonicalProgram;
  }
}
