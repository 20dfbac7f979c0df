/** A plaintext session: what the calls of a user program mean without any cryptography or recording.

    The clear session keeps one bit per handle, what was revealed, and which reveals the COT check covers, for which the calls
    alone are enough; which calls end well is in its ledger. */
module ClearSessions {
  import opened Engines
  import opened Protocols
  import opened Ledgers

  /** A reveal as the plaintext session sees it, and whether everything minted before it had passed the COT check. */
  datatype Seen = Seen(recipient: int, values: seq<bool>, covered: bool)

  /** `checked` says that nothing was minted since the last COT check, and `book` which wires exist. */
  datatype Clear = Clear(values: seq<bool>, seen: seq<Seen>, checked: bool, book: Ledger) {
    predicate Has(handles: seq<nat>) {
      forall i | 0 <= i < |handles| :: handles[i] < |values|
    }

    function Read(handles: seq<nat>): (x: seq<bool>)
      requires Has(handles)
      ensures |x| == |handles|
    {
      seq(|handles|, i requires 0 <= i < |handles| => values[handles[i]])
    }

    function Extend(x: seq<bool>): Clear {
      this.(values := values + x)
    }

    predicate AnyOpen(handles: seq<nat>) {
      book.AnyOpen(book.Wires(handles))
    }

    /** A flush: a run of the engine, ended by the COT check, exactly when something kept is pending. */
    function Flush(keeps: seq<nat>): Clear {
      this.(checked := checked || AnyOpen(keeps))
    }

    /** Handles are ones already given out, and both parties pass inputs of one width. */
    ghost predicate Legal(cmd: Command) {
      match cmd
      case Input(o, x1, x2) => |x1| == |x2| && (o == PUBLIC ==> x1 == x2)
      case OpenBatch => true
      case Add(b, o, x1, x2) => b < |book.batches| && |x1| == |x2| && (o == PUBLIC ==> x1 == x2)
      case Finish(b) => b < |book.batches|
      case Constant(_) => true
      case And(a, b) => a < |values| && b < |values|
      case Xor(a, b) => a < |values| && b < |values|
      case Not(a) => a < |values|
      case RunBody(calls, outs, args) => Has(Flat<nat>(args, |args|)) && Body(|Flat<nat>(args, |args|)|, calls, outs)
      case RunCompiled(_, args) => Has(Flat<nat>(args, |args|))
      case Checkpoint(keeps) => Has(keeps)
      case Reveal(wires, _, keeps) => Has(wires) && Has(keeps)
    }

    /** The bits and reveals of one call. */
    ghost function Reads(cmd: Command): Clear
      requires Legal(cmd)
    {
      match cmd
      case Input(o, x1, x2) => Extend(Chosen(o, x1, x2)).(checked := checked && (o == PUBLIC || x1 == []))
      case OpenBatch => this
      case Add(b, o, x1, x2) => Extend(Chosen(o, x1, x2))
      case Finish(b) => this.(checked := checked && !book.batches[b].secret)
      case Constant(v) => Extend([v])
      case And(a, b) => Extend([values[a] && values[b]])
      case Xor(a, b) => Extend([values[a] != values[b]])
      case Not(a) => Extend([!values[a]])
      case RunBody(calls, outs, args) =>
        var x := Read(Flat<nat>(args, |args|));
        Extend(Outputs(|x|, calls, x, outs)).(checked := true)
      case RunCompiled(prog, args) =>
        var x := Read(Flat<nat>(args, |args|));
        if Body(|x|, prog.gates, prog.outputs) then Extend(Outputs(|x|, prog.gates, x, prog.outputs)).(checked := true) else this
      case Checkpoint(keeps) => Flush(keeps)
      case Reveal(wires, r, keeps) =>
        Flush(wires + keeps).(seen := seen + [Seen(r, Read(wires), checked || AnyOpen(wires + keeps))])
    }

    /** One call in the clear, when it ends well. */
    ghost function Step(cmd: Command): Clear
      requires Legal(cmd)
    {
      Reads(cmd).(book := book.Step(cmd))
    }
  }

  /** A whole program is legal from `c`. */
  ghost predicate LegalRun(c: Clear, cmds: seq<Command>)
    decreases |cmds|
  {
    cmds == [] || (c.Legal(cmds[0]) && LegalRun(c.Step(cmds[0]), cmds[1..]))
  }

  /** The plaintext session after a whole program. */
  ghost function Run(c: Clear, cmds: seq<Command>): Clear
    requires LegalRun(c, cmds)
    decreases |cmds|
  {
    if cmds == [] then c else Run(c.Step(cmds[0]), cmds[1..])
  }

  // ---- how a program ends ----

  /** Where the session stands before call `i`. */
  ghost function StateAt(c: Clear, cmds: seq<Command>, i: nat): Clear
    requires LegalRun(c, cmds) && i <= |cmds|
    decreases |cmds|
  {
    if i == 0 then c else StateAt(c.Step(cmds[0]), cmds[1..], i - 1)
  }

  lemma {:induction false} LegalAt(c: Clear, cmds: seq<Command>, i: nat)
    requires LegalRun(c, cmds) && i < |cmds|
    ensures StateAt(c, cmds, i).Legal(cmds[i])
    decreases |cmds|
  {
    hide Clear.Legal, Clear.Step;
    if i > 0 {
      LegalAt(c.Step(cmds[0]), cmds[1..], i - 1);
    }
  }

  lemma {:induction false} StateStep(c: Clear, cmds: seq<Command>, i: nat)
    requires LegalRun(c, cmds) && i < |cmds|
    ensures StateAt(c, cmds, i).Legal(cmds[i]) && StateAt(c, cmds, i + 1) == StateAt(c, cmds, i).Step(cmds[i])
    decreases |cmds|
  {
    hide Clear.Legal, Clear.Step;
    if i > 0 {
      StateStep(c.Step(cmds[0]), cmds[1..], i - 1);
    }
  }

  lemma {:induction false} RunIsLast(c: Clear, cmds: seq<Command>)
    requires LegalRun(c, cmds)
    ensures Run(c, cmds) == StateAt(c, cmds, |cmds|)
    decreases |cmds|
  {
    hide Clear.Legal, Clear.Step;
    if cmds != [] {
      RunIsLast(c.Step(cmds[0]), cmds[1..]);
    }
  }

  /** Each of the first `k` calls ends well, as far as the calls decide it. */
  ghost predicate Accepted(c: Clear, cmds: seq<Command>, k: nat)
    requires LegalRun(c, cmds) && k <= |cmds|
  {
    forall i | 0 <= i < k :: StateAt(c, cmds, i).book.Outcome(cmds[i], false).Done?
  }

  /** Each of the first `k` calls keeps agreed masks agreed. */
  ghost predicate Travelled(c: Clear, cmds: seq<Command>, k: nat)
    requires LegalRun(c, cmds) && k <= |cmds|
  {
    forall i | 0 <= i < k :: StateAt(c, cmds, i).book.Travels(cmds[i])
  }

  // ---- which reveals the COT check covers ----

  /** Call `i` authenticates a bit of ALICE or BOB: it mints correlations and does not check them. */
  ghost predicate Mints(c: Clear, cmds: seq<Command>, i: nat)
    requires LegalRun(c, cmds) && i < |cmds|
  {
    LegalAt(c, cmds, i);
    match cmds[i]
    case Input(o, x1, _) => o != PUBLIC && x1 != []
    case Finish(b) => StateAt(c, cmds, i).book.batches[b].secret
    case _ => false
  }

  /** Call `i` runs the engine, which ends in the COT check: a run, or a flush that keeps something pending. */
  ghost predicate Checks(c: Clear, cmds: seq<Command>, i: nat)
    requires LegalRun(c, cmds) && i < |cmds|
  {
    var at := StateAt(c, cmds, i);
    match cmds[i]
    case RunBody(_, _, _) => true
    case RunCompiled(prog, args) => Body(|Flat<nat>(args, |args|)|, prog.gates, prog.outputs)
    case Checkpoint(keeps) => at.AnyOpen(keeps)
    case Reveal(wires, _, keeps) => at.AnyOpen(wires + keeps)
    case _ => false
  }

  /** After a program everything minted is checked if and only if no input came after the last engine run. */
  ghost predicate NoInputSinceCheck(c: Clear, cmds: seq<Command>)
    requires LegalRun(c, cmds)
  {
    || (c.checked && forall j | 0 <= j < |cmds| :: !Mints(c, cmds, j))
    || exists i | 0 <= i < |cmds| :: Checks(c, cmds, i) && forall j | i < j < |cmds| :: !Mints(c, cmds, j)
  }

  lemma {:induction false} CheckedIff(c: Clear, cmds: seq<Command>)
    requires LegalRun(c, cmds)
    ensures Run(c, cmds).checked <==> NoInputSinceCheck(c, cmds)
    decreases |cmds|
  {
    hide Clear.Legal, Clear.Step, Mints, Checks, LegalRun, Run;
    RunUnfolds(c, cmds);
    if cmds != [] {
      var next, rest := c.Step(cmds[0]), cmds[1..];
      CheckedIff(next, rest);
      FirstCall(c, cmds);
      forall i | 0 <= i < |rest|
        ensures Mints(c, cmds, i + 1) == Mints(next, rest, i) && Checks(c, cmds, i + 1) == Checks(next, rest, i)
      {
        LaterCall(c, cmds, i);
      }
      SinceCheckShifts(c, cmds);
    }
  }

  lemma RunUnfolds(c: Clear, cmds: seq<Command>)
    requires LegalRun(c, cmds)
    ensures cmds == [] ==> Run(c, cmds) == c
    ensures cmds != [] ==> c.Legal(cmds[0]) && LegalRun(c.Step(cmds[0]), cmds[1..])
                           && Run(c, cmds) == Run(c.Step(cmds[0]), cmds[1..])
  {
    hide Clear.Legal, Clear.Step;
  }

  lemma FirstCall(c: Clear, cmds: seq<Command>)
    requires LegalRun(c, cmds) && cmds != []
    ensures c.Legal(cmds[0]) && (c.Step(cmds[0]).checked <==> Checks(c, cmds, 0) || (c.checked && !Mints(c, cmds, 0)))
    ensures !(Checks(c, cmds, 0) && Mints(c, cmds, 0))
  {
    hide Outputs;
  }

  lemma LaterCall(c: Clear, cmds: seq<Command>, i: nat)
    requires LegalRun(c, cmds) && i + 1 < |cmds|
    ensures c.Legal(cmds[0]) && LegalRun(c.Step(cmds[0]), cmds[1..])
    ensures Mints(c, cmds, i + 1) == Mints(c.Step(cmds[0]), cmds[1..], i)
    ensures Checks(c, cmds, i + 1) == Checks(c.Step(cmds[0]), cmds[1..], i)
  {
    hide Clear.Step;
  }

  /** Where the last check falls, one call earlier. */
  lemma SinceCheckShifts(c: Clear, cmds: seq<Command>)
    requires LegalRun(c, cmds) && cmds != [] && c.Legal(cmds[0]) && LegalRun(c.Step(cmds[0]), cmds[1..])
    requires c.Step(cmds[0]).checked <==> Checks(c, cmds, 0) || (c.checked && !Mints(c, cmds, 0))
    requires forall i | 0 <= i < |cmds[1..]| :: Mints(c, cmds, i + 1) == Mints(c.Step(cmds[0]), cmds[1..], i)
    requires forall i | 0 <= i < |cmds[1..]| :: Checks(c, cmds, i + 1) == Checks(c.Step(cmds[0]), cmds[1..], i)
    ensures NoInputSinceCheck(c, cmds) <==> NoInputSinceCheck(c.Step(cmds[0]), cmds[1..])
  {
    hide Clear.Legal, Clear.Step, Mints, Checks, LegalRun;
    var next, rest := c.Step(cmds[0]), cmds[1..];
    if NoInputSinceCheck(next, rest) {
      if i :| 0 <= i < |rest| && Checks(next, rest, i) && forall j | i < j < |rest| :: !Mints(next, rest, j) {
        assert Checks(c, cmds, i + 1);
        forall j | i + 1 < j < |cmds|
          ensures !Mints(c, cmds, j)
        {
          assert Mints(c, cmds, (j - 1) + 1) == Mints(next, rest, j - 1);
        }
      } else {
        forall j | 0 < j < |cmds|
          ensures !Mints(c, cmds, j)
        {
          assert Mints(c, cmds, (j - 1) + 1) == Mints(next, rest, j - 1);
        }
      }
    }
    if NoInputSinceCheck(c, cmds) {
      if i :| 0 <= i < |cmds| && Checks(c, cmds, i) && forall j | i < j < |cmds| :: !Mints(c, cmds, j) {
        forall j | 0 <= j < |rest| && i - 1 < j
          ensures !Mints(next, rest, j)
        {
          assert Mints(c, cmds, j + 1) == Mints(next, rest, j);
        }
        if i > 0 {
          assert Checks(c, cmds, (i - 1) + 1) == Checks(next, rest, i - 1);
        }
      } else {
        forall j | 0 <= j < |rest|
          ensures !Mints(next, rest, j)
        {
          assert Mints(c, cmds, j + 1) == Mints(next, rest, j);
        }
      }
    }
  }

  lemma {:induction false} PrefixRuns(c: Clear, cmds: seq<Command>, k: nat)
    requires LegalRun(c, cmds) && k <= |cmds|
    ensures LegalRun(c, cmds[..k]) && Run(c, cmds[..k]) == StateAt(c, cmds, k)
    decreases |cmds|
  {
    hide Clear.Legal, Clear.Step;
    if k > 0 {
      PrefixRuns(c.Step(cmds[0]), cmds[1..], k - 1);
      assert cmds[..k][0] == cmds[0] && cmds[..k][1..] == cmds[1..][..k - 1];
    }
  }

  /** Which reveals of a program the COT check covers: those that flush a pending wire, and those with no input since the last
      engine run before them. */
  lemma RevealCoveredIff(c: Clear, cmds: seq<Command>, k: nat)
    requires LegalRun(c, cmds) && k < |cmds| && cmds[k].Reveal?
    ensures LegalRun(c, cmds[..k]) && StateAt(c, cmds, k).Legal(cmds[k])
    ensures var at := StateAt(c, cmds, k);
      && |at.Step(cmds[k]).seen| == |at.seen| + 1
      && (at.Step(cmds[k]).seen[|at.seen|].covered
          <==> at.AnyOpen(cmds[k].wires + cmds[k].keeps) || NoInputSinceCheck(c, cmds[..k]))
  {
    hide Mints, Checks, LegalRun, Run, StateAt, NoInputSinceCheck, Clear.AnyOpen;
    LegalAt(c, cmds, k);
    PrefixRuns(c, cmds, k);
    CheckedIff(c, cmds[..k]);
  }
}
