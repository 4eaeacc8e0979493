/**
 * Runs of a transaction: what holds after every primitive of begin, apply, commit, finalize and cleanup, and
 * across any chain of interrupted recoveries.
 */
module FsTxnRuns {
  import opened Options
  import opened Disk
  import opened FsTxn
  import opened FsTxnSafety

  /** Directory fsync works, and flushing a new directory also makes it findable. */
  predicate Durable(pf: Platform) {
    pf.dirFsync && pf.fsyncKeepsLink
  }

  // ---------------------------------------------------------- journal writes

  lemma WriteIsFour(j: Journal)
    ensures |WriteJournal(j)| == 4
  {
  }

  /** The journal is written by renaming, so no other path of the batch is written. */
  lemma JournalWriteStep(pf: Platform, x: Batch, s: State, j: Journal, k: nat, p: Path)
    requires WellFormed(x) && j.id == x.journal.id && k <= 4
    requires Consults(x, p) || p == TxnDir(j.id) || p == JournalFile(j.id)
    ensures At(Run(pf, s, WriteJournal(j)[..k]), p)
         == DuringWrite(pf, s, JournalFile(j.id), JournalText(j), k, p)
  {
    DurableWriteSteps(pf, s, JournalFile(j.id), JournalText(j), k, p);
  }

  /** The files and sidecars across a journal write: unchanged, or flushed. */
  lemma JournalWriteNarrows(pf: Platform, x: Batch, late: bool, s: State, j: Journal, k: nat)
    requires WellFormed(x) && Stable(x, late) && j.id == x.journal.id && k <= 4
    ensures Midway(x, late, s) ==> Midway(x, late, Run(pf, s, WriteJournal(j)[..k]))
    ensures Done(x, late, s) ==> Done(x, late, Run(pf, s, WriteJournal(j)[..k]))
  {
    hide DurableWrite, Run;
    WriteIsFour(j);
    var s' := Run(pf, s, WriteJournal(j)[..k]);
    forall p | Consults(x, p) ensures Narrows(At(s, p), At(s', p)) {
      JournalWriteStep(pf, x, s, j, k, p);
    }
    if Done(x, late, s) {
      forall p | p in Wanted(x, late) ensures At(s', p) == Settled(Wanted(x, late)[p]) {
        JournalWriteStep(pf, x, s, j, k, p);
      }
    }
  }

  // -------------------------------------------------------------------- begin

  /** A fresh id: nothing of the transaction is on disk and the files are in their initial state. */
  ghost predicate Fresh(x: Batch, s: State) {
    && At(s, TxnDir(x.journal.id)) == Settled(None)
    && At(s, JournalFile(x.journal.id)) == Settled(None)
    && Done(x, false, s)
  }

  lemma AfterMkdir(pf: Platform, x: Batch, s: State)
    requires WellFormed(x) && Fresh(x, s)
    ensures var s' := Run(pf, s, [Mkdir(x.journal.id)]);
            && At(s', TxnDir(x.journal.id)) == Slot(Some(File(Directory, true)), {Gone, Whole(Directory)})
            && At(s', JournalFile(x.journal.id)) == Settled(None)
            && Done(x, false, s')
            && Safe(x, false, s')
  {
    hide Exec;
    var ops := [Mkdir(x.journal.id)];
    assert Run(pf, s, ops) == Exec(pf, s, ops[0]) by {
      assert ops[..0] == [];
    }
    ExecAt(pf, s, ops[0], TxnDir(x.journal.id));
    ExecAt(pf, s, ops[0], JournalFile(x.journal.id));
    forall p | p in x.before ensures At(Exec(pf, s, ops[0]), p) == At(s, p) {
      ExecAt(pf, s, ops[0], p);
    }
  }

  lemma BeginIsSafe(pf: Platform, x: Batch, s: State)
    requires WellFormed(x) && Stable(x, false) && Fresh(x, s)
    ensures Guards(pf, x, false, s, Begin(x.journal))
    ensures Done(x, false, Run(pf, s, Begin(x.journal)))
    ensures At(Run(pf, s, Begin(x.journal)), JournalFile(x.journal.id)).now
         == Some(File(JournalText(x.journal), true))
    ensures Anchored(x, Run(pf, s, Begin(x.journal))) <==> Durable(pf)
  {
    hide Exec, Run, DurableWrite, Crash;
    var id := x.journal.id;
    var s1 := Run(pf, s, [Mkdir(id)]);
    var ops := WriteJournal(x.journal);
    AfterMkdir(pf, x, s);
    assert |ops| == 4 by { WriteIsFour(x.journal); }
    forall k | 0 <= k <= 4 ensures Safe(x, false, Run(pf, s1, ops[..k])) && Done(x, false, Run(pf, s1, ops[..k])) {
      JournalWriteNarrows(pf, x, false, s1, x.journal, k);
      JournalWriteStep(pf, x, s1, x.journal, k, JournalFile(id));
      JournalWriteStep(pf, x, s1, x.journal, k, TxnDir(id));
    }
    GuardsOne(pf, x, s, Mkdir(id));
    GuardsAppend(pf, x, false, s, [Mkdir(id)], ops);
    assert ops[..4] == ops;
    JournalWriteStep(pf, x, s1, x.journal, 4, JournalFile(id));
    JournalWriteStep(pf, x, s1, x.journal, 4, TxnDir(id));
  }

  lemma GuardsOne(pf: Platform, x: Batch, s: State, op: Op)
    requires Safe(x, false, s) && Safe(x, false, Run(pf, s, [op]))
    ensures Guards(pf, x, false, s, [op])
  {
    hide Safe, Exec;
    assert [op][..0] == [] && [op][..1] == [op];
    assert Run(pf, s, []) == s;
  }

  // ------------------------------------------------------------------- commit

  /** The apply step of a kind: undoable at every primitive, and at its end ready for the commit. */
  ghost predicate Prepares(pf: Platform, x: Batch, s: State, ops: seq<Op>) {
    var end := Run(pf, s, ops);
    && Guards(pf, x, false, s, ops)
    && Anchored(x, end) && x.undo(end) && x.redo(end)
    && (Terminal(x.handler, x.handler.commitPhase) ==> Done(x, true, end))
  }

  function CommitJournal(x: Batch): Journal {
    x.journal.(phase := x.handler.commitPhase)
  }

  /** Ready to commit: the journal is anchored before the commit point, and both directions are open. */
  ghost predicate Ready(x: Batch, s: State) {
    && WellFormed(x) && Stable(x, false) && Stable(x, true)
    && Safe(x, false, s) && Anchored(x, s) && x.undo(s) && x.redo(s)
    && (Terminal(x.handler, x.handler.commitPhase) ==> Done(x, true, s))
  }

  lemma BeforeCommitRename(pf: Platform, x: Batch, s: State, k: nat)
    requires Ready(x, s) && k < 3
    ensures Safe(x, false, Run(pf, s, WriteJournal(CommitJournal(x))[..k]))
  {
    hide Exec, Run, DurableWrite;
    var j := CommitJournal(x);
    JournalWriteNarrows(pf, x, false, s, j, k);
    JournalWriteStep(pf, x, s, j, k, JournalFile(j.id));
    JournalWriteStep(pf, x, s, j, k, TxnDir(j.id));
  }

  lemma AfterCommitFlush(pf: Platform, x: Batch, s: State)
    requires Ready(x, s) && pf.dirFsync
    ensures var end := Run(pf, s, WriteJournal(CommitJournal(x)));
            Safe(x, true, end) && CurrentJournal(x, end) == Some(CommitJournal(x))
  {
    hide Exec, Run, DurableWrite;
    var j := CommitJournal(x);
    WriteIsFour(j);
    assert WriteJournal(j)[..4] == WriteJournal(j);
    JournalWriteNarrows(pf, x, true, s, j, 4);
    JournalWriteStep(pf, x, s, j, 4, JournalFile(j.id));
    JournalWriteStep(pf, x, s, j, 4, TxnDir(j.id));
  }

  // --------------------------------------- between a rename and its flush

  /** The journal that the process sees is committed, but older ones may come back with a power cut. */
  ghost predicate WindowJournal(x: Batch, slot: Slot) {
    && ImageOf(slot.now) in slot.images
    && slot.now.Some? && Recorded(x, true, slot.now.value.content)
    && forall i | i in slot.images ::
         i.Whole? && (Recorded(x, false, i.content) || Recorded(x, true, i.content))
  }

  /** Both directions are still open: a kill here leaves the committed journal to be read, a power cut may bring
      back an uncommitted one. */
  ghost predicate Undecided(x: Batch, s: State) {
    && WindowJournal(x, At(s, JournalFile(x.journal.id)))
    && DirOk(At(s, TxnDir(x.journal.id))) && Gone !in At(s, TxnDir(x.journal.id)).images
    && x.undo(s) && x.redo(s)
    && (NoneTerminal(x, At(s, JournalFile(x.journal.id))) || Done(x, true, s))
  }

  /** No committed journal that may be found is at the terminal phase. */
  ghost predicate NoneTerminal(x: Batch, slot: Slot) {
    forall i | i in slot.images && i.Whole? && Recorded(x, true, i.content) ::
      !Terminal(x.handler, i.content.journal.phase)
  }

  lemma AfterCommitRename(pf: Platform, x: Batch, s: State)
    requires Ready(x, s)
    requires |WriteJournal(CommitJournal(x))| == 4
    ensures var t := Run(pf, s, WriteJournal(CommitJournal(x))[..3]);
            Undecided(x, t) && CurrentJournal(x, t) == Some(CommitJournal(x))
  {
    hide Exec, Run, DurableWrite, Stable, Fence;
    var j := CommitJournal(x);
    JournalWriteStep(pf, x, s, j, 3, JournalFile(j.id));
    JournalWriteStep(pf, x, s, j, 3, TxnDir(j.id));
    JournalWriteNarrows(pf, x, false, s, j, 3);
    JournalWriteNarrows(pf, x, true, s, j, 3);
    WindowUnfinished(pf, x, s);
  }

  lemma WindowUnfinished(pf: Platform, x: Batch, s: State)
    requires Ready(x, s)
    requires |WriteJournal(CommitJournal(x))| == 4
    ensures var t := Run(pf, s, WriteJournal(CommitJournal(x))[..3]);
            NoneTerminal(x, At(t, JournalFile(x.journal.id))) || Done(x, true, t)
  {
    hide Exec, Run, DurableWrite, Stable, Fence;
    var j := CommitJournal(x);
    var t := Run(pf, s, WriteJournal(j)[..3]);
    JournalWriteStep(pf, x, s, j, 3, JournalFile(j.id));
    JournalWriteNarrows(pf, x, true, s, j, 3);
  }

  /** A power cut decides: the state is safe in one direction or the other. */
  lemma CrashDecides(x: Batch, s: State, after: State)
    requires WellFormed(x) && Stable(x, false) && Stable(x, true) && Undecided(x, s) && Crash(s, after)
    ensures Safe(x, false, after) || Safe(x, true, after)
  {
    hide Fence, Stable, Committed;
    var id := x.journal.id;
    assert !Lost(after, TxnDir(id)) && Survives(At(s, TxnDir(id)), At(after, TxnDir(id)));
    assert At(after, TxnDir(id)).now.Some?;
    assert !Lost(after, JournalFile(id)) && Survives(At(s, JournalFile(id)), At(after, JournalFile(id)));
    CrashKeepsMidway(x, false, s, after);
    CrashKeepsMidway(x, true, s, after);
  }

  /** A power cut between the commit rename and its flush shows the old phase or the new one, and either is
      recoverable in its direction. */
  lemma CommitWindow(pf: Platform, x: Batch, s: State, after: State)
    requires Ready(x, s)
    requires |WriteJournal(CommitJournal(x))| == 4
    requires Crash(Run(pf, s, WriteJournal(CommitJournal(x))[..3]), after)
    ensures Safe(x, false, after) || Safe(x, true, after)
  {
    hide Exec, Run, DurableWrite, Crash, Undecided, Safe;
    AfterCommitRename(pf, x, s);
    CrashDecides(x, Run(pf, s, WriteJournal(CommitJournal(x))[..3]), after);
  }

  lemma CrashKeepsMidway(x: Batch, late: bool, s: State, after: State)
    requires WellFormed(x) && Stable(x, late) && Crash(s, after) && Midway(x, late, s)
    requires At(after, TxnDir(x.journal.id)).now.Some?
    ensures Midway(x, late, after)
    ensures Done(x, late, s) ==> Done(x, late, after)
  {
    forall p | Consults(x, p) ensures Narrows(At(s, p), At(after, p)) {
      assert !Lost(after, p);
    }
    if Done(x, late, s) {
      forall p | p in Wanted(x, late) ensures At(after, p) == Settled(Wanted(x, late)[p]) {
        assert !Lost(after, p);
      }
    }
  }

  // -------------------------------------------------------------- forward run

  function Prologue(x: Batch, apply: seq<Op>): seq<Op> {
    Begin(x.journal) + apply
  }

  /** begin, apply, commit, finalize, cleanup. */
  function Forward(pf: Platform, x: Batch, s: State, apply: seq<Op>, removal: Removal): seq<Op> {
    var a := Prologue(x, apply) + WriteJournal(CommitJournal(x));
    a + (Resume(x.handler, Run(pf, s, a), CommitJournal(x)) + RemoveTree(x.journal.id, removal))
  }

  ghost predicate Runs(pf: Platform, x: Batch, s: State, apply: seq<Op>, removal: Removal) {
    && Durable(pf) && WellFormed(x) && Contract(pf, x) && Fresh(x, s) && Inside(x, removal)
    && Prepares(pf, x, Run(pf, s, Begin(x.journal)), apply)
  }

  lemma PrologueIsReady(pf: Platform, x: Batch, s: State, apply: seq<Op>, removal: Removal)
    requires Runs(pf, x, s, apply, removal)
    ensures Guards(pf, x, false, s, Prologue(x, apply))
    ensures Ready(x, Run(pf, s, Prologue(x, apply)))
  {
    hide Safe, Exec, Done;
    BeginIsSafe(pf, x, s);
    GuardsAppend(pf, x, false, s, Begin(x.journal), apply);
    assert Prologue(x, apply)[..|Prologue(x, apply)|] == Prologue(x, apply);
  }

  /** Where a forward run may be interrupted, and what then holds. */
  lemma ForwardIsSafe(pf: Platform, x: Batch, s: State, apply: seq<Op>, removal: Removal, k: nat)
    requires Runs(pf, x, s, apply, removal) && k <= |Forward(pf, x, s, apply, removal)|
    ensures k < |Prologue(x, apply)| + 3 ==> Safe(x, false, Run(pf, s, Forward(pf, x, s, apply, removal)[..k]))
    ensures k > |Prologue(x, apply)| + 3 ==> Safe(x, true, Run(pf, s, Forward(pf, x, s, apply, removal)[..k]))
    ensures k == |Prologue(x, apply)| + 3 ==>
              var at := Run(pf, s, Forward(pf, x, s, apply, removal)[..k]);
              Undecided(x, at) && CurrentJournal(x, at) == Some(CommitJournal(x))
    ensures Done(x, true, Run(pf, s, Forward(pf, x, s, apply, removal)))
  {
    hide Safe, Exec, Run, Done, Crash, Prologue, Resume, Fence, Stable, DurableWrite, Guards, Undecided;
    var p, w := Prologue(x, apply), WriteJournal(CommitJournal(x));
    var sp := Run(pf, s, p);
    var sw := Run(pf, s, p + w);
    var tail := Resume(x.handler, sw, CommitJournal(x)) + RemoveTree(x.journal.id, removal);
    var ops := Forward(pf, x, s, apply, removal);
    assert ops == p + w + tail;
    WriteIsFour(CommitJournal(x));
    PrologueIsReady(pf, x, s, apply, removal);
    RunAppend(pf, s, p, w);
    AfterCommitFlush(pf, x, sp);
    TailSettles(pf, x, sw, removal);
    RunAppend(pf, s, p + w, tail);
    if k <= |p| {
      assert ops[..k] == p[..k];
      GuardsAt(pf, x, false, s, p, k);
    } else if k < |p| + 4 {
      assert ops[..k] == p + w[..k - |p|];
      RunAppend(pf, s, p, w[..k - |p|]);
      if k < |p| + 3 {
        BeforeCommitRename(pf, x, sp, k - |p|);
      } else {
        AfterCommitRename(pf, x, sp);
      }
    } else {
      assert ops[..k] == (p + w) + tail[..k - |p| - 4];
      RunAppend(pf, s, p + w, tail[..k - |p| - 4]);
      GuardsAt(pf, x, true, sw, tail, k - |p| - 4);
    }
  }

  lemma GuardsAt(pf: Platform, x: Batch, late: bool, s: State, ops: seq<Op>, k: nat)
    requires Guards(pf, x, late, s, ops) && k <= |ops|
    ensures Safe(x, late, Run(pf, s, ops[..k]))
  {
  }

  lemma TailSettles(pf: Platform, x: Batch, s: State, removal: Removal)
    requires WellFormed(x) && Contract(pf, x) && Inside(x, removal)
    requires Safe(x, true, s) && CurrentJournal(x, s) == Some(CommitJournal(x))
    ensures Settles(pf, x, true, s,
                    Resume(x.handler, s, CommitJournal(x)) + RemoveTree(x.journal.id, removal))
  {
    hide Exec, Done, Fence;
    var a, b := Resume(x.handler, s, CommitJournal(x)), RemoveTree(x.journal.id, removal);
    ResumeSettles(pf, x, true, s, CommitJournal(x));
    assert a[..|a|] == a;
    CleanupSteps(x, removal);
    CleanupKeepsSafe(pf, x, true, Run(pf, s, a), b);
    GuardsAppend(pf, x, true, s, a, b);
  }

  // ------------------------------------------------------- chains of recovery

  /** A power cut, or a kill that leaves the caches of the machine alone. */
  ghost predicate Interrupted(power: bool, s: State, after: State) {
    if power then Crash(s, after) else after == s
  }

  /** One scan of the namespace: other entries, this one, the rest. */
  datatype Pass = Pass(stale: bool, removal: Removal, earlier: seq<Op>, later: seq<Op>)

  /** The scan gets as far as `steps` primitives; `power` tells a power cut from a kill; `next` is left behind. */
  datatype Attempt = Attempt(pass: Pass, steps: nat, power: bool, next: State)

  function PassOps(pf: Platform, x: Batch, kinds: Registry, scan: Scan, s: State, pass: Pass): Option<seq<Op>> {
    match Recover(kinds, scan, Run(pf, s, pass.earlier), x.journal.id, pass.stale, pass.removal)
    case Err(_) => None
    case Ok(visit) => Some(pass.earlier + (visit.ops + pass.later))
  }

  ghost predicate Orderly(x: Batch, pass: Pass) {
    Inside(x, pass.removal) && Foreign(x, pass.earlier) && Foreign(x, pass.later)
  }

  ghost predicate Attempts(
    pf: Platform, x: Batch, kinds: Registry, scan: Scan, s: State, attempts: seq<Attempt>, end: State)
    decreases |attempts|
  {
    if attempts == [] then s == end
    else
      var a := attempts[0];
      var ops := PassOps(pf, x, kinds, scan, s, a.pass);
      && Orderly(x, a.pass)
      && (ops.Some? ==> a.steps <= |ops.value| && Interrupted(a.power, Run(pf, s, ops.value[..a.steps]), a.next))
      && (ops.None? ==> a.next == s)
      && Attempts(pf, x, kinds, scan, a.next, attempts[1..], end)
  }

  /** A scan never fails on this transaction, is safe at every step, and when complete is final. */
  lemma PassSettles(pf: Platform, x: Batch, late: bool, kinds: Registry, scan: Scan, s: State, pass: Pass)
    requires WellFormed(x) && Contract(pf, x) && Seeks(x, kinds, scan) && Safe(x, late, s) && Orderly(x, pass)
    ensures PassOps(pf, x, kinds, scan, s, pass).Some?
    ensures Settles(pf, x, late, s, PassOps(pf, x, kinds, scan, s, pass).value)
  {
    hide Safe, Exec, Done, Fence, Stable, Recover;
    ForeignKeepsSafe(pf, x, late, s, pass.earlier);
    var s1 := Run(pf, s, pass.earlier);
    assert pass.earlier[..|pass.earlier|] == pass.earlier;
    var ops := RecoverSettles(pf, x, late, kinds, scan, s1, pass.stale, pass.removal);
    assert ops[..|ops|] == ops;
    var s2 := Run(pf, s1, ops);
    ForeignKeepsSafe(pf, x, late, s2, pass.later);
    GuardsAppend(pf, x, late, s1, ops, pass.later);
    GuardsAppend(pf, x, late, s, pass.earlier, ops + pass.later);
  }

  lemma {:induction false} AttemptsStaySafe(
    pf: Platform, x: Batch, late: bool, kinds: Registry, scan: Scan, s: State, attempts: seq<Attempt>, end: State)
    requires WellFormed(x) && Contract(pf, x) && Seeks(x, kinds, scan)
    requires Safe(x, late, s) && Attempts(pf, x, kinds, scan, s, attempts, end)
    ensures Safe(x, late, end)
    decreases |attempts|
  {
    hide Safe, Exec, Run, Done, Fence, Stable, PassOps, Crash;
    if attempts != [] {
      var a := attempts[0];
      PassSettles(pf, x, late, kinds, scan, s, a.pass);
      var ops := PassOps(pf, x, kinds, scan, s, a.pass).value;
      GuardsAt(pf, x, late, s, ops, a.steps);
      if a.power {
        CrashKeepsSafe(x, late, Run(pf, s, ops[..a.steps]), a.next);
      }
      AttemptsStaySafe(pf, x, late, kinds, scan, a.next, attempts[1..], end);
    }
  }
}
