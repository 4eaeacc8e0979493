/**
 * The main results about transactions: crash atomicity of a forward run followed by any chain of
 * interrupted recoveries, sweep safety, and what the engine needs from the file system.
 */
module FsTxnTheorems {
  import opened Options
  import opened Disk
  import opened FsTxn
  import opened FsTxnSafety
  import opened FsTxnRuns
  import opened FsTxnWindow

  // ------------------------------------------------------------ main theorems

  /** A forward run stopped after `k` primitives, by a power cut or a kill, leaves `stopped`. */
  ghost predicate Stops(
    pf: Platform, x: Batch, s: State, apply: seq<Op>, removal: Removal, k: nat, power: bool, stopped: State)
  {
    var ops := Forward(pf, x, s, apply, removal);
    k <= |ops| && Interrupted(power, Run(pf, s, ops[..k]), stopped)
  }

  /** The stop is a kill between the commit rename and its flush. */
  predicate InWindow(x: Batch, apply: seq<Op>, k: nat, power: bool) {
    k == |Prologue(x, apply)| + 3 && !power
  }

  /** What that one stop asks for: a finalize that flushes the journal first, and fewer later slips than there
      are phases after the commit phase. */
  ghost predicate Tolerates(pf: Platform, x: Batch, stopped: State, attempts: seq<Attempt>) {
    && FlushesFirst(pf, x)
    && IndexOf(x.handler.phases, x.handler.commitPhase) + SlipCount(x, stopped, attempts) < |x.handler.phases| - 1
  }

  lemma StoppedIsSafe(
    pf: Platform, x: Batch, s: State, apply: seq<Op>, removal: Removal, k: nat, power: bool, stopped: State)
    returns (late: bool)
    requires Runs(pf, x, s, apply, removal) && Stops(pf, x, s, apply, removal, k, power, stopped)
    requires !InWindow(x, apply, k, power)
    ensures Safe(x, late, stopped)
    ensures k < |Prologue(x, apply)| + 3 ==> !late
    ensures k > |Prologue(x, apply)| + 3 ==> late
    ensures CurrentJournal(x, stopped).Some? ==>
              Committed(x.handler, CurrentJournal(x, stopped).value.phase) == late
  {
    hide Exec, Run, Done, Crash, Prologue, Stable, Forward, Fence, Undecided;
    ForwardIsSafe(pf, x, s, apply, removal, k);
    var at := Run(pf, s, Forward(pf, x, s, apply, removal)[..k]);
    if k == |Prologue(x, apply)| + 3 {
      CrashDecides(x, at, stopped);
      late := !Safe(x, false, stopped);
    } else {
      late := k > |Prologue(x, apply)| + 3;
      if power {
        CrashKeepsSafe(x, late, at, stopped);
      }
    }
  }

  lemma KilledInWindow(
    pf: Platform, x: Batch, kinds: Registry, scan: Scan, s: State, apply: seq<Op>, removal: Removal, k: nat,
    power: bool, stopped: State, attempts: seq<Attempt>, found: State)
    requires Runs(pf, x, s, apply, removal) && Seeks(x, kinds, scan)
    requires Stops(pf, x, s, apply, removal, k, power, stopped) && InWindow(x, apply, k, power)
    requires Tolerates(pf, x, stopped, attempts) && Attempts(pf, x, kinds, scan, stopped, attempts, found)
    ensures Undecided(x, stopped) && CurrentJournal(x, stopped) == Some(CommitJournal(x))
    ensures Recoverable(x, found)
  {
    hide Safe, Undecided, Done, Exec, Run, Crash, Prologue, Stable, Forward, Fence, PassOps, Attempts, Prepares, Seeks;
    ForwardIsSafe(pf, x, s, apply, removal, k);
    AttemptsStayRecoverable(pf, x, kinds, scan, stopped, attempts, found);
  }

  /**
   * Crash atomicity. Stop a run of begin, apply, commit, finalize and cleanup after any primitive, by a power
   * cut or a kill, let any number of recoveries be interrupted after any of theirs, and let one recovery
   * complete. The files are then all in the before-state if the journal on disk was before its commit phase,
   * all in the after-state if it was at or past it, and once the commit write has returned it is never
   * undone. For a kill between the commit rename and its flush, where the disk may disagree with what the
   * process saw, Tolerates says what is needed, and then too the files are all before or all after: all
   * after, if no power cut follows.
   */
  lemma CrashAtomicity(
    pf: Platform, x: Batch, kinds: Registry, scan: Scan, s: State, apply: seq<Op>, removal: Removal, k: nat,
    power: bool, stopped: State, attempts: seq<Attempt>, found: State, last: Pass)
    requires Runs(pf, x, s, apply, removal) && Seeks(x, kinds, scan)
    requires Stops(pf, x, s, apply, removal, k, power, stopped)
    requires InWindow(x, apply, k, power) ==> Tolerates(pf, x, stopped, attempts)
    requires Attempts(pf, x, kinds, scan, stopped, attempts, found) && Orderly(x, last)
    ensures PassOps(pf, x, kinds, scan, found, last).Some?
    ensures var end := Run(pf, found, PassOps(pf, x, kinds, scan, found, last).value);
            && (Done(x, false, end) || Done(x, true, end))
            && (!InWindow(x, apply, k, power) && CurrentJournal(x, stopped).Some? ==>
                  Done(x, Committed(x.handler, CurrentJournal(x, stopped).value.phase), end))
            && (k < |Prologue(x, apply)| + 3 ==> Done(x, false, end))
            && (k > |Prologue(x, apply)| + 3 ==> Done(x, true, end))
            && (InWindow(x, apply, k, power) && attempts == [] ==> Done(x, true, end))
  {
    hide Safe, Exec, Run, Done, Crash, Prologue, Stable, Forward, Fence, PassOps, Guards, Prepares, Seeks, Undecided;
    hide FlushesFirst, Position, SlipCount;
    if InWindow(x, apply, k, power) {
      KilledInWindow(pf, x, kinds, scan, s, apply, removal, k, power, stopped, attempts, found);
      LastPassIsFinal(pf, x, kinds, scan, found, last);
      if attempts == [] {
        WindowIsNotBack(x, stopped);
      }
    } else {
      var late := StoppedIsSafe(pf, x, s, apply, removal, k, power, stopped);
      AttemptsStaySafe(pf, x, late, kinds, scan, stopped, attempts, found);
      PassSettles(pf, x, late, kinds, scan, found, last);
    }
  }

  lemma WindowIsNotBack(x: Batch, s: State)
    requires Undecided(x, s)
    ensures !Safe(x, false, s)
  {
    hide Done, Midway;
  }

  /**
   * Sweep safety. Wherever an interrupted run and its interrupted recoveries end, a directory without a
   * journal belongs to a batch that is already final; removing it, even half of it, keeps it final.
   */
  lemma SweepLosesNothing(
    pf: Platform, x: Batch, kinds: Registry, scan: Scan, s: State, apply: seq<Op>, removal: Removal, k: nat,
    power: bool, stopped: State, attempts: seq<Attempt>, found: State, swept: Removal, i: nat)
    requires Runs(pf, x, s, apply, removal) && Seeks(x, kinds, scan)
    requires Stops(pf, x, s, apply, removal, k, power, stopped)
    requires InWindow(x, apply, k, power) ==> Tolerates(pf, x, stopped, attempts)
    requires Attempts(pf, x, kinds, scan, stopped, attempts, found)
    requires At(found, JournalFile(x.journal.id)).now.None?
    requires Inside(x, swept) && i <= |RemoveTree(x.journal.id, swept)|
    ensures Done(x, false, found) || Done(x, true, found)
    ensures var half := Run(pf, found, RemoveTree(x.journal.id, swept)[..i]);
            && (Done(x, false, found) ==> Done(x, false, half))
            && (Done(x, true, found) ==> Done(x, true, half))
  {
    hide Exec, Crash, Prologue, Stable, Forward, Fence, PassOps, Attempts, Guards, Prepares, Seeks, FlushesFirst;
    hide Undecided, SlipCount, Safe;
    var late := true;
    if InWindow(x, apply, k, power) {
      KilledInWindow(pf, x, kinds, scan, s, apply, removal, k, power, stopped, attempts, found);
      if Undecided(x, found) {
        UndecidedHasJournal(x, found);
      }
      late := Safe(x, true, found);
    } else {
      late := StoppedIsSafe(pf, x, s, apply, removal, k, power, stopped);
      AttemptsStaySafe(pf, x, late, kinds, scan, stopped, attempts, found);
    }
    JournallessIsFinal(x, late, found);
    RemovalIsInvisible(pf, x, false, found, swept, i);
    RemovalIsInvisible(pf, x, true, found, swept, i);
  }

  /** A kind whose commit phase is its last has no finalize to flush the journal first. A kill in the window is
      then still harmless if the recovery that follows is left alone. */
  lemma KilledAtLastPhase(pf: Platform, x: Batch, kinds: Registry, scan: Scan, s: State, pass: Pass)
    requires WellFormed(x) && Stable(x, false) && Stable(x, true) && Seeks(x, kinds, scan) && Orderly(x, pass)
    requires Undecided(x, s) && CurrentJournal(x, s) == Some(CommitJournal(x))
    requires Terminal(x.handler, x.handler.commitPhase)
    ensures PassOps(pf, x, kinds, scan, s, pass).Some?
    ensures Done(x, true, Run(pf, s, PassOps(pf, x, kinds, scan, s, pass).value))
  {
    hide Safe, Exec, Stable, Fence, Run;
    var s1 := Run(pf, s, pass.earlier);
    UndecidedForeign(pf, x, s, pass.earlier);
    assert Done(x, true, s1);
    var tree := RemoveTree(x.journal.id, pass.removal);
    assert Fence(x.handler, CommitJournal(x), x.journal.id, x.journal.root) == None;
    assert Recover(kinds, scan, s1, x.journal.id, pass.stale, pass.removal)
        == Ok(Visit([] + tree, Some(CommitJournal(x))));
    assert [] + tree == tree && tree[..|tree|] == tree;
    RemovalIsInvisible(pf, x, true, s1, pass.removal, |tree|);
    DoneForeign(pf, x, Run(pf, s1, tree), pass.later);
    RunAppend(pf, s1, tree, pass.later);
    RunAppend(pf, s, pass.earlier, tree + pass.later);
  }

  lemma {:induction false} DoneForeign(pf: Platform, x: Batch, s: State, ops: seq<Op>)
    requires WellFormed(x) && Done(x, true, s) && Foreign(x, ops)
    ensures Done(x, true, Run(pf, s, ops))
    decreases |ops|
  {
    hide Exec, Fence;
    if ops != [] {
      var n := |ops| - 1;
      DoneForeign(pf, x, s, ops[..n]);
      assert ops[n] in ops;
      forall p | p in Wanted(x, true) ensures At(Run(pf, s, ops), p) == Settled(Wanted(x, true)[p]) {
        assert Owns(x, p);
        Untouched(pf, Run(pf, s, ops[..n]), ops[n], p);
      }
    }
  }

  lemma RemovalIsInvisible(pf: Platform, x: Batch, late: bool, s: State, removal: Removal, i: nat)
    requires WellFormed(x) && Inside(x, removal) && i <= |RemoveTree(x.journal.id, removal)|
    ensures Done(x, late, s) ==> Done(x, late, Run(pf, s, RemoveTree(x.journal.id, removal)[..i]))
    decreases i
  {
    hide Exec, RemoveTree;
    var ops := RemoveTree(x.journal.id, removal);
    if i > 0 && Done(x, late, s) {
      RemovalIsInvisible(pf, x, late, s, removal, i - 1);
      CleanupSteps(x, removal);
      PrefixStep(pf, s, ops, i - 1);
      assert ops[i - 1] in ops;
      var was := Run(pf, s, ops[..i - 1]);
      forall p | p in Wanted(x, late) ensures At(Run(pf, s, ops[..i]), p) == At(was, p) {
        ExecAt(pf, was, ops[i - 1], p);
      }
    }
  }

  // --------------------------------------- what the engine needs from the disk

  /** When begin returns, the journal is certain to be found after a power cut exactly when directories can
      be flushed and flushing a new directory also secures the entry that leads to it. */
  lemma BegunIsFoundIff(pf: Platform, x: Batch, s: State)
    requires WellFormed(x) && Stable(x, false) && Fresh(x, s) && Crash(s, s)
    ensures Durable(pf) <==>
            (forall after :: Crash(Run(pf, s, Begin(x.journal)), after) ==>
               CurrentJournal(x, after) == Some(x.journal))
  {
    var end := Run(pf, s, Begin(x.journal));
    BeginIsSafe(pf, x, s);
    BegunSlots(pf, x, s);
    if Durable(pf) {
      forall after | Crash(end, after) ensures CurrentJournal(x, after) == Some(x.journal) {
        CrashKeepsBegun(x, end, after);
      }
    } else if !pf.dirFsync {
      NothingIsDurable(pf, s, Begin(x.journal), s);
    } else {
      LosesUnlinkedDirectory(pf, x, s);
    }
  }

  lemma CrashKeepsBegun(x: Batch, end: State, after: State)
    requires Crash(end, after)
    requires At(end, TxnDir(x.journal.id)) == Settled(Some(Directory))
    requires At(end, JournalFile(x.journal.id)) == Settled(Some(JournalText(x.journal)))
    ensures CurrentJournal(x, after) == Some(x.journal)
  {
    var id := x.journal.id;
    assert !Lost(after, TxnDir(id)) && Survives(At(end, TxnDir(id)), At(after, TxnDir(id)));
    assert !Lost(after, JournalFile(id)) && Survives(At(end, JournalFile(id)), At(after, JournalFile(id)));
  }

  lemma BegunSlots(pf: Platform, x: Batch, s: State)
    requires WellFormed(x) && Fresh(x, s)
    ensures var end := Run(pf, s, Begin(x.journal));
            && (Durable(pf) ==> At(end, TxnDir(x.journal.id)) == Settled(Some(Directory)))
            && (Durable(pf) ==> At(end, JournalFile(x.journal.id)) == Settled(Some(JournalText(x.journal))))
            && (!pf.fsyncKeepsLink ==> Gone in At(end, TxnDir(x.journal.id)).images)
            && forall p | Owner(p) != Some(x.journal.id) && p != TxnDir(x.journal.id) :: At(end, p) == At(s, p)
  {
    hide Exec, Run, DurableWrite;
    var id := x.journal.id;
    var s1 := Run(pf, s, [Mkdir(id)]);
    var ops := WriteJournal(x.journal);
    AfterMkdir(pf, x, s);
    WriteIsFour(x.journal);
    assert ops[..4] == ops;
    RunAppend(pf, s, [Mkdir(id)], ops);
    JournalWriteStep(pf, x, s1, x.journal, 4, JournalFile(id));
    JournalWriteStep(pf, x, s1, x.journal, 4, TxnDir(id));
    assert Owner(Tmp(JournalFile(id))) == Owner(JournalFile(id)) == Some(id);
    forall p | Owner(p) != Some(id) && p != TxnDir(id)
      ensures At(Run(pf, s, Begin(x.journal)), p) == At(s, p)
    {
      DurableWriteSteps(pf, s1, JournalFile(id), JournalText(x.journal), 4, p);
      MkdirElsewhere(pf, s, id, p);
      OwnerOfDir(p);
    }
  }

  lemma MkdirElsewhere(pf: Platform, s: State, id: string, p: Path)
    requires p != TxnDir(id)
    ensures At(Run(pf, s, [Mkdir(id)]), p) == At(s, p)
  {
    hide Exec;
    assert [Mkdir(id)][..0] == [];
    assert Run(pf, s, [Mkdir(id)]) == Exec(pf, s, Mkdir(id));
    ExecAt(pf, s, Mkdir(id), p);
  }

  /** Otherwise the whole directory can vanish and leave the disk as it was before begin. */
  lemma LosesUnlinkedDirectory(pf: Platform, x: Batch, s: State)
    requires WellFormed(x) && Fresh(x, s) && Crash(s, s) && !pf.fsyncKeepsLink
    ensures Crash(Run(pf, s, Begin(x.journal)), s)
  {
    hide Exec, Run;
    var id := x.journal.id;
    var end := Run(pf, s, Begin(x.journal));
    BegunSlots(pf, x, s);
    forall p ensures if Lost(s, p) then At(s, p) == Settled(None) else Survives(At(end, p), At(s, p)) {
      assert if Lost(s, p) then At(s, p) == Settled(None) else Survives(At(s, p), At(s, p));
      if Owner(p) != Some(id) && p != TxnDir(id) {
        assert At(end, p) == At(s, p);
      }
    }
  }
}
