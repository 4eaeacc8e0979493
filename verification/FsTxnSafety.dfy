/**
 * Crash safety of the transaction engine: what holds after every primitive of a forward run, of a
 * recovery, and of a recovery of a recovery, and what is on disk once one recovery completes.
 */
module FsTxnSafety {
  import opened Options
  import opened Disk
  import opened FsTxn

  // ---------------------------------------------------------------- a batch

  /**
   * One transaction as its kind promises it. `before` and `after` give the files of the root, absent
   * ones included, when the batch never happened and when it happened. `undo(s)` says that a roll back
   * can start from s, `redo(s)` that a roll forward can.
   */
  datatype Batch = Batch(
    handler: Handler,
    journal: Journal,
    before: map<Path, Option<Content>>,
    after: map<Path, Option<Content>>,
    undo: State -> bool,
    redo: State -> bool)

  ghost predicate WellFormed(x: Batch) {
    && x.before.Keys == x.after.Keys
    && (forall p | p in x.before :: p.InRoot? || p.Outside?)
    && x.journal.version == 1
    && x.handler.phases != [] && x.journal.phase == x.handler.phases[0]
    && x.handler.commitPhase in x.handler.phases && !Committed(x.handler, x.journal.phase)
    && forall phase | phase in x.handler.phases ::
         Fence(x.handler, x.journal.(phase := phase), x.journal.id, x.journal.root) == None
  }

  /** The two directions are one theory: `late` is the forward one. */
  function Wanted(x: Batch, late: bool): map<Path, Option<Content>> {
    if late then x.after else x.before
  }

  /** Every file of the batch is durably in its final state. */
  ghost predicate Done(x: Batch, late: bool, s: State) {
    forall p | p in Wanted(x, late) :: At(s, p) == Settled(Wanted(x, late)[p])
  }

  predicate Midway(x: Batch, late: bool, s: State) {
    if late then x.redo(s) else x.undo(s)
  }

  // ------------------------------------------------------- the safety invariant

  /** The content is this transaction's journal, at a phase of that direction. */
  predicate Recorded(x: Batch, late: bool, c: Content) {
    && c.JournalText?
    && c.journal.phase in x.handler.phases
    && c.journal == x.journal.(phase := c.journal.phase)
    && Committed(x.handler, c.journal.phase) == late
  }

  ghost predicate JournalOk(x: Batch, late: bool, slot: Slot) {
    && ImageOf(slot.now) in slot.images
    && forall i | i in slot.images :: i == Gone || (i.Whole? && Recorded(x, late, i.content))
  }

  ghost predicate DirOk(slot: Slot) {
    && ImageOf(slot.now) in slot.images
    && forall i | i in slot.images :: i == Gone || i == Whole(Directory)
  }

  /** Journal and directory survive whatever happens next. */
  predicate Anchored(x: Batch, s: State) {
    && Gone !in At(s, TxnDir(x.journal.id)).images
    && Gone !in At(s, JournalFile(x.journal.id)).images
  }

  ghost predicate Unfinished(x: Batch, slot: Slot) {
    forall i | i in slot.images && i.Whole? && i.content.JournalText? ::
      !Terminal(x.handler, i.content.journal.phase)
  }

  /**
   * Every state a power cut can leave shows a journal of this direction only or no journal at all, and
   * either the files are final or the journal is sure to be found and there is enough to go on.
   */
  ghost predicate Safe(x: Batch, late: bool, s: State) {
    && JournalOk(x, late, At(s, JournalFile(x.journal.id)))
    && DirOk(At(s, TxnDir(x.journal.id)))
    && (|| Done(x, late, s)
        || (&& Anchored(x, s)
            && Midway(x, late, s)
            && (late ==> Unfinished(x, At(s, JournalFile(x.journal.id))))))
  }

  /** Safe after every primitive of the script. */
  ghost predicate Guards(pf: Platform, x: Batch, late: bool, s: State, ops: seq<Op>) {
    forall k | 0 <= k <= |ops| :: Safe(x, late, Run(pf, s, ops[..k]))
  }

  // ------------------------------------------------------------ kind contract

  /** The paths that a kind may consult besides the journal: the files and its sidecars. */
  predicate Consults(x: Batch, p: Path) {
    p in x.before || (p.Sidecar? && p.id == x.journal.id)
  }

  /** What a power cut, or a flush ordered by someone else, does to a slot. */
  predicate Narrows(slot: Slot, slot': Slot) {
    slot' == slot || slot' == Settle(slot) || Survives(slot, slot')
  }

  ghost predicate Stable(x: Batch, late: bool) {
    forall s: State, s': State ::
      Midway(x, late, s) && (forall p | Consults(x, p) :: Narrows(At(s, p), At(s', p))) ==> Midway(x, late, s')
  }

  function CurrentJournal(x: Batch, s: State): Option<Journal> {
    match At(s, JournalFile(x.journal.id)).now
    case Some(File(JournalText(j), _)) => Some(j)
    case _ => None
  }

  /** The script keeps the transaction safe throughout and leaves its files final. */
  ghost predicate Settles(pf: Platform, x: Batch, late: bool, s: State, ops: seq<Op>) {
    Guards(pf, x, late, s, ops) && Done(x, late, Run(pf, s, ops))
  }

  /**
   * The contract of src/core/fs-txn.ts:87-108. From every safe state rollback and finalize are safe at
   * every step, which makes them resumable, and end with the files final; where nothing is left to do
   * they may start again, which makes them idempotent.
   */
  ghost predicate Contract(pf: Platform, x: Batch) {
    && Stable(x, false) && Stable(x, true)
    && (forall s: State :: Safe(x, false, s) && CurrentJournal(x, s).Some? ==>
          Settles(pf, x, false, s, x.handler.rollback(s, CurrentJournal(x, s).value)))
    && (forall s: State ::
          Safe(x, true, s) && CurrentJournal(x, s).Some? && !Terminal(x.handler, CurrentJournal(x, s).value.phase) ==>
          Settles(pf, x, true, s, x.handler.finalize(s, CurrentJournal(x, s).value)))
  }

  // ----------------------------------------------------------- single steps

  lemma CrashKeepsSlots(x: Batch, late: bool, s: State, after: State)
    requires WellFormed(x) && Safe(x, late, s) && Crash(s, after)
    ensures JournalOk(x, late, At(after, JournalFile(x.journal.id)))
    ensures DirOk(At(after, TxnDir(x.journal.id)))
    ensures Done(x, late, s) ==> Done(x, late, after)
    ensures Anchored(x, s) ==> Anchored(x, after)
  {
    hide Fence, Committed;
    assert !Lost(after, TxnDir(x.journal.id));
    assert Survives(At(s, TxnDir(x.journal.id)), At(after, TxnDir(x.journal.id)));
    assert Lost(after, JournalFile(x.journal.id))
        || Survives(At(s, JournalFile(x.journal.id)), At(after, JournalFile(x.journal.id)));
    if Done(x, late, s) {
      forall p | p in Wanted(x, late) ensures At(after, p) == Settled(Wanted(x, late)[p]) {
        assert !Lost(after, p);
      }
    }
  }

  /** A power cut in a safe state leaves a safe state. */
  lemma CrashKeepsSafe(x: Batch, late: bool, s: State, after: State)
    requires WellFormed(x) && Stable(x, late) && Safe(x, late, s) && Crash(s, after)
    ensures Safe(x, late, after)
  {
    hide Fence, Committed;
    CrashKeepsSlots(x, late, s, after);
    if !Done(x, late, s) {
      forall p | Consults(x, p) ensures Narrows(At(s, p), At(after, p)) {
        assert !Lost(after, p);
      }
      assert Midway(x, late, after);
    }
  }

  /** This transaction's own paths. */
  predicate Owns(x: Batch, p: Path) {
    p in x.before || p == TxnDir(x.journal.id) || Owner(p) == Some(x.journal.id)
  }

  ghost predicate Foreign(x: Batch, ops: seq<Op>) {
    forall op, p | op in ops && Owns(x, p) :: !Writes(op, p)
  }

  lemma ForeignStep(pf: Platform, x: Batch, late: bool, s: State, op: Op)
    requires WellFormed(x) && Stable(x, late) && Safe(x, late, s)
    requires forall p | Owns(x, p) :: !Writes(op, p)
    ensures Safe(x, late, Exec(pf, s, op))
    ensures Done(x, late, s) ==> Done(x, late, Exec(pf, s, op))
  {
    hide Exec, Fence, Committed, Writes;
    var s' := Exec(pf, s, op);
    forall p | Owns(x, p) ensures At(s', p) == At(s, p) || At(s', p) == Settle(At(s, p)) {
      Untouched(pf, s, op, p);
    }
    assert Owns(x, JournalFile(x.journal.id)) && Owns(x, TxnDir(x.journal.id));
    if !Done(x, late, s) {
      forall p | Consults(x, p) ensures Narrows(At(s, p), At(s', p)) {
        assert Owns(x, p);
      }
      assert Midway(x, late, s');
    }
  }

  /** Whatever other transactions of the namespace do, this one stays safe. */
  lemma {:induction false} ForeignKeepsSafe(pf: Platform, x: Batch, late: bool, s: State, ops: seq<Op>)
    requires WellFormed(x) && Stable(x, late) && Safe(x, late, s) && Foreign(x, ops)
    ensures Guards(pf, x, late, s, ops)
    ensures Done(x, late, s) ==> Done(x, late, Run(pf, s, ops))
    decreases |ops|
  {
    hide Safe, Exec;
    if ops != [] {
      var n := |ops| - 1;
      ForeignKeepsSafe(pf, x, late, s, ops[..n]);
      forall k | 0 <= k <= n ensures ops[..n][..k] == ops[..k] {
      }
      assert ops[..n][..n] == ops[..n] && ops[..|ops|] == ops && ops[n] in ops;
      ForeignStep(pf, x, late, Run(pf, s, ops[..n]), ops[n]);
    }
  }

  lemma GuardsAppend(pf: Platform, x: Batch, late: bool, s: State, a: seq<Op>, b: seq<Op>)
    requires Guards(pf, x, late, s, a)
    requires Guards(pf, x, late, Run(pf, s, a), b)
    ensures Guards(pf, x, late, s, a + b)
    ensures Run(pf, s, a + b) == Run(pf, Run(pf, s, a), b)
  {
    hide Safe, Exec;
    RunAppend(pf, s, a, b);
    forall k | 0 <= k <= |a + b| ensures Safe(x, late, Run(pf, s, (a + b)[..k])) {
      if k <= |a| {
        assert (a + b)[..k] == a[..k];
      } else {
        assert (a + b)[..k] == a + b[..k - |a|];
        RunAppend(pf, s, a, b[..k - |a|]);
      }
    }
  }

  // ---------------------------------------------------------------- cleanup

  predicate Removes(x: Batch, op: Op) {
    (op.Unlink? && Owner(op.path) == Some(x.journal.id)) || op == Rmdir(x.journal.id)
  }

  lemma RemoveStep(pf: Platform, x: Batch, late: bool, s: State, op: Op)
    requires WellFormed(x) && Safe(x, late, s) && Done(x, late, s) && Removes(x, op)
    ensures Safe(x, late, Exec(pf, s, op)) && Done(x, late, Exec(pf, s, op))
  {
    hide Exec;
    ExecAt(pf, s, op, JournalFile(x.journal.id));
    ExecAt(pf, s, op, TxnDir(x.journal.id));
    forall p | p in x.before ensures At(Exec(pf, s, op), p) == At(s, p) {
      ExecAt(pf, s, op, p);
    }
  }

  lemma {:induction false} CleanupKeepsSafe(pf: Platform, x: Batch, late: bool, s: State, ops: seq<Op>)
    requires WellFormed(x) && Safe(x, late, s) && Done(x, late, s)
    requires forall op | op in ops :: Removes(x, op)
    ensures Settles(pf, x, late, s, ops)
    decreases |ops|
  {
    hide Safe, Exec;
    assert ops[..|ops|] == ops;
    if ops != [] {
      var n := |ops| - 1;
      CleanupKeepsSafe(pf, x, late, s, ops[..n]);
      forall k | 0 <= k <= n ensures ops[..n][..k] == ops[..k] {
      }
      assert ops[..n][..n] == ops[..n] && ops[n] in ops;
      RemoveStep(pf, x, late, Run(pf, s, ops[..n]), ops[n]);
    }
  }

  // ---------------------------------------------------------------- recovery

  /** The scan knows the kind and asks for this transaction. */
  ghost predicate Seeks(x: Batch, kinds: Registry, scan: Scan) {
    && x.journal.kind in kinds && kinds[x.journal.kind] == x.handler
    && scan.root == x.journal.root
    && forall phase | phase in x.handler.phases :: scan.wanted(x.journal.(phase := phase))
  }

  predicate Inside(x: Batch, removal: Removal) {
    forall p | p in removal.entries :: Owner(p) == Some(x.journal.id)
  }

  /** Sweep safety: a directory without a journal has nothing left to undo and nothing left to finish. */
  lemma JournallessIsFinal(x: Batch, late: bool, s: State)
    requires Safe(x, late, s) && At(s, JournalFile(x.journal.id)).now.None?
    ensures Done(x, late, s)
  {
  }

  lemma UnlistedIsFinal(x: Batch, late: bool, s: State)
    requires Safe(x, late, s) && At(s, TxnDir(x.journal.id)).now.None?
    ensures Done(x, late, s)
  {
  }

  lemma ResumeSettles(pf: Platform, x: Batch, late: bool, s: State, j: Journal)
    requires WellFormed(x) && Contract(pf, x) && Safe(x, late, s) && CurrentJournal(x, s) == Some(j)
    ensures Settles(pf, x, late, s, Resume(x.handler, s, j))
  {
    hide Settles;
    assert Recorded(x, late, JournalText(j)) by {
      assert ImageOf(At(s, JournalFile(x.journal.id)).now) in At(s, JournalFile(x.journal.id)).images;
    }
    if late && Terminal(x.handler, j.phase) {
      assert Done(x, late, s);
      CleanupKeepsSafe(pf, x, late, s, []);
    }
  }

  /** What a recovery scan does with this transaction's entry: never an error, safe at every step, and
      the files are final when it is through, whether it resumed the batch, swept the entry or left it. */
  lemma RecoverSettles(
    pf: Platform, x: Batch, late: bool, kinds: Registry, scan: Scan, s: State, stale: bool, removal: Removal)
    returns (ops: seq<Op>)
    requires WellFormed(x) && Contract(pf, x) && Seeks(x, kinds, scan) && Safe(x, late, s) && Inside(x, removal)
    ensures Recover(kinds, scan, s, x.journal.id, stale, removal).Ok?
    ensures ops == Recover(kinds, scan, s, x.journal.id, stale, removal).value.ops
    ensures Settles(pf, x, late, s, ops)
  {
    hide Fence, Exec;
    var id := x.journal.id;
    var slot := At(s, JournalFile(id));
    CleanupSteps(x, removal);
    if At(s, TxnDir(id)).now.None? {
      UnlistedIsFinal(x, late, s);
      ops := [];
      CleanupKeepsSafe(pf, x, late, s, ops);
    } else if slot.now.None? {
      JournallessIsFinal(x, late, s);
      ops := Sweep(id, stale, removal);
      CleanupKeepsSafe(pf, x, late, s, ops);
    } else {
      assert ImageOf(slot.now) in slot.images;
      var j := slot.now.value.content.journal;
      assert j == x.journal.(phase := j.phase);
      var a := Resume(x.handler, s, j);
      ResumeSettles(pf, x, late, s, j);
      assert Safe(x, late, Run(pf, s, a)) by {
        assert a[..|a|] == a;
      }
      CleanupKeepsSafe(pf, x, late, Run(pf, s, a), RemoveTree(id, removal));
      GuardsAppend(pf, x, late, s, a, RemoveTree(id, removal));
      ops := a + RemoveTree(id, removal);
    }
  }

  lemma CleanupSteps(x: Batch, removal: Removal)
    requires Inside(x, removal)
    ensures forall op | op in RemoveTree(x.journal.id, removal) :: Removes(x, op)
  {
    var ops := RemoveTree(x.journal.id, removal);
    forall op | op in ops ensures Removes(x, op) {
      var i :| 0 <= i < |ops| && ops[i] == op;
      assert i < |removal.entries| ==> removal.entries[i] in removal.entries;
    }
  }
}
