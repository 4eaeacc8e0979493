/**
 * How many kills in a journal window a batch survives: exactly as many as leave a phase to flush. The
 * failing runs are constructed, for every vocabulary.
 */
module FsTxnSlips {
  import opened Options
  import opened Disk
  import opened FsTxn
  import opened FsTxnSafety
  import opened FsTxnRuns
  import opened FsTxnWindow
  import opened FsTxnTheorems
  import opened FsTxnBatch
  import opened FsTxnBatchTheorems

  // -------------------------------------------------------------- a power cut

  /** What a process sees is one of the outcomes of a power cut. */
  ghost predicate Coherent(s: State) {
    forall p :: ImageOf(At(s, p).now) in At(s, p).images
  }

  lemma {:induction false} RunKeepsCoherent(pf: Platform, s: State, ops: seq<Op>)
    requires Coherent(s)
    ensures Coherent(Run(pf, s, ops))
    decreases |ops|
  {
    hide Exec;
    if ops != [] {
      var n := |ops| - 1;
      var mid := Run(pf, s, ops[..n]);
      RunKeepsCoherent(pf, s, ops[..n]);
      forall p ensures ImageOf(At(Run(pf, s, ops), p).now) in At(Run(pf, s, ops), p).images {
        ExecAt(pf, mid, ops[n], p);
      }
    }
  }

  /** The power cut that leaves `chosen` at some paths and elsewhere what the process saw. */
  function CutTo(s: State, chosen: map<Path, Option<Content>>): State {
    map p | p in s ::
      if p in chosen then Settled(chosen[p])
      else if Owner(p).Some? && At(s, TxnDir(Owner(p).value)).now.None? then Settled(None)
      else Settled(Now(s, p))
  }

  lemma CutIsCrash(s: State, chosen: map<Path, Option<Content>>)
    requires Coherent(s) && chosen.Keys <= s.Keys
    requires forall p | p in chosen ::
               && ImageFor(chosen[p]) in At(s, p).images
               && Owner(p).Some? && At(s, TxnDir(Owner(p).value)).now.Some?
    ensures Crash(s, CutTo(s, chosen))
    ensures Coherent(CutTo(s, chosen))
    ensures forall p :: At(CutTo(s, chosen), p)
                     == if p in chosen then Settled(chosen[p])
                        else if Owner(p).Some? && At(s, TxnDir(Owner(p).value)).now.None? then Settled(None)
                        else Settled(Now(s, p))
  {
  }

  // ------------------------------------------------------------- two files

  /** One file is updated and a second one is created. */
  function TwoFiles(phases: seq<string>): Journal
    requires phases != []
  {
    var update := Change(FIRST, Update, Some(Digest(OLD)), Some(Digest(NEW)));
    var create := Change(SECOND, Create, None, Some(Digest(NEW)));
    Journal(1, "batch", phases[0], "t", "r", [update, create], "")
  }

  const OLD: Content := Bytes("old")
  const NEW: Content := Bytes("new")
  const FIRST: Path := InRoot("r", "a")
  const SECOND: Path := InRoot("r", "b")
  const LOST: Path := Sidecar("t", Before, 0)
  const START: State := map[FIRST := Settled(Some(OLD))]

  ghost predicate Creates(x: Batch) {
    && Applies(x) && Usable(x.handler.phases, x.handler.commitPhase)
    && x.journal == TwoFiles(x.handler.phases)
    && x.before == map[FIRST := Some(OLD), SECOND := None]
    && x.after == map[FIRST := Some(NEW), SECOND := Some(NEW)]
  }

  lemma TwoFilesExist(phases: seq<string>, commitPhase: string) returns (x: Batch)
    requires Usable(phases, commitPhase)
    ensures Creates(x) && x.handler == BatchHandler(phases, commitPhase)
    ensures Fresh(x, START) && Coherent(START) && Seeks(x, OnlyKind(x), WholeScan("r"))
  {
    hide AllUndoable, AllAfter, Describes, WellFormed;
    var j := TwoFiles(phases);
    var before: map<Path, Option<Content>> := map[FIRST := Some(OLD), SECOND := None];
    var after: map<Path, Option<Content>> := map[FIRST := Some(NEW), SECOND := Some(NEW)];
    TwoFilesDescribed(j, phases, before, after);
    x := BatchOf(phases, commitPhase, j, before, after);
    FencesPass(x);
  }

  lemma TwoFilesDescribed(
    j: Journal, phases: seq<string>, before: map<Path, Option<Content>>, after: map<Path, Option<Content>>)
    requires phases != [] && j == TwoFiles(phases)
    requires before == map[FIRST := Some(OLD), SECOND := None]
    requires after == map[FIRST := Some(NEW), SECOND := Some(NEW)]
    ensures Describes(j, before, after)
  {
    assert j.changes[0].path == FIRST && j.changes[1].path == SECOND && |j.changes| == 2;
    assert forall p | p in before :: !FsTxnBatch.Untouched(j, p);
  }

  // -------------------------------------------------- towards the last phase

  /** Undecided, with an uncommitted journal among the possible outcomes of a power cut. */
  ghost predicate Ambiguous(x: Batch, s: State) {
    && Undecided(x, s) && Coherent(s) && CurrentJournal(x, s).Some?
    && exists i :: i in At(s, JournalFile(x.journal.id)).images && i.Whole? && Recorded(x, false, i.content)
  }

  /** The kill between the commit rename and its flush leaves the old journal possible. */
  lemma WindowIsAmbiguous(pf: Platform, x: Batch, s: State, removal: Removal)
    requires Launches(pf, x, s, removal) && Coherent(s)
    requires |WriteJournal(CommitJournal(x))| == 4
    ensures var k := |Prologue(x, Life(pf, x, s))| + 3;
            && k <= |Forward(pf, x, s, Life(pf, x, s), removal)|
            && Ambiguous(x, Run(pf, s, Forward(pf, x, s, Life(pf, x, s), removal)[..k]))
            && CurrentJournal(x, Run(pf, s, Forward(pf, x, s, Life(pf, x, s), removal)[..k])) == Some(CommitJournal(x))
  {
    hide Exec, Run, Undecided, Safe, Done, Fence, AllUndoable, Applies, DurableWrite, Contract, Prepares;
    hide Life, Prologue, Stable;
    AppliesDescribes(x);
    LaunchRuns(pf, x, s, removal);
    var apply := Life(pf, x, s);
    var p := Prologue(x, apply);
    var ops := Forward(pf, x, s, apply, removal);
    var j := CommitJournal(x);
    ForwardIsSafe(pf, x, s, apply, removal, |p| + 3);
    RunKeepsCoherent(pf, s, ops[..|p| + 3]);
    PrologueIsReady(pf, x, s, apply, removal);
    var sp := Run(pf, s, p);
    assert ops[..|p| + 3] == p + WriteJournal(j)[..3];
    RunAppend(pf, s, p, WriteJournal(j)[..3]);
    JournalWriteStep(pf, x, sp, j, 3, JournalFile(j.id));
    ReadyIsRecorded(x, sp);
  }

  lemma ReadyIsRecorded(x: Batch, s: State)
    requires Ready(x, s)
    ensures exists i :: i in At(s, JournalFile(x.journal.id)).images && i.Whole? && Recorded(x, false, i.content)
  {
    hide Stable, Fence, Done;
    var i := ImageOf(At(s, JournalFile(x.journal.id)).now);
    assert i in At(s, JournalFile(x.journal.id)).images;
  }

  /** A scan that meets no other transaction and lists these entries. */
  function Alone(removal: Removal): Pass {
    Pass(true, removal, [], [])
  }

  lemma AloneOps(pf: Platform, x: Batch, kinds: Registry, scan: Scan, s: State, removal: Removal, visit: Visit)
    requires Recover(kinds, scan, s, x.journal.id, true, removal) == Ok(visit)
    ensures PassOps(pf, x, kinds, scan, s, Alone(removal)) == Some(visit.ops)
  {
    hide Recover, Exec;
    assert Run(pf, s, []) == s;
    assert [] + (visit.ops + []) == visit.ops;
  }

  /** A recovery that is killed right after it renamed the journal of the next phase into place. */
  lemma SlipOnce(pf: Platform, x: Batch, s: State) returns (a: Attempt)
    requires pf.dirFsync && Creates(x) && Ambiguous(x, s) && Position(x, s) < |x.handler.phases| - 1
    ensures var ops := PassOps(pf, x, OnlyKind(x), WholeScan("r"), s, a.pass);
            && ops.Some? && a.steps <= |ops.value| && Interrupted(a.power, Run(pf, s, ops.value[..a.steps]), a.next)
    ensures Orderly(x, a.pass) && Ambiguous(x, a.next) && Position(x, a.next) == Position(x, s) + 1
    ensures Slips(x, s, a)
  {
    hide Exec, Run, Undecided, Safe, Done, Fence, AllUndoable, WriteJournal, Proper, Describes, Creates;
    hide PassOps, Ambiguous;
    assert Undecided(x, s) by { AmbiguousIsUndecided(x, s); }
    assert Proper(x) && Applies(x) by { CreatesApplies(x); AppliesIsProper(x); }
    UndecidedHasJournal(x, s);
    NotTerminal(x, s);
    UndecidedPhase(x, s);
    SoughtAlone(x);
    var w := WriteJournal(x.journal.(phase := x.handler.phases[Position(x, s) + 1]));
    FirstWrite(pf, x, s);
    a := Attempt(Alone(BARE), 3, false, Run(pf, s, w[..3]));
    SlipLands(pf, x, s, Position(x, s) + 1);
  }

  lemma AmbiguousIsUndecided(x: Batch, s: State)
    requires Ambiguous(x, s)
    ensures Undecided(x, s)
  {
    hide Undecided;
  }

  lemma SlipLands(pf: Platform, x: Batch, s: State, i: nat)
    requires Proper(x) && Applies(x) && Ambiguous(x, s) && 0 <= Position(x, s) == i - 1
    requires i < |x.handler.phases| && Position(x, s) >= IndexOf(x.handler.phases, x.handler.commitPhase)
    requires |WriteJournal(x.journal.(phase := x.handler.phases[i]))| == 4
    ensures var t := Run(pf, s, WriteJournal(x.journal.(phase := x.handler.phases[i]))[..3]);
            && Ambiguous(x, t) && Undecided(x, t) && Position(x, t) == i
            && CurrentJournal(x, t) != CurrentJournal(x, s)
  {
    hide Exec, Run, Undecided, Fence, AllUndoable, WriteJournal, Proper, Describes, WellFormed;
    PhaseOrder(x, i);
    AdvanceStaysUndecided(pf, x, s, i, 3);
    AdvanceStaysAmbiguous(pf, x, s, i);
  }

  /** What a scan starts with at a phase that is not the last: the write of the next one. */
  lemma FirstWrite(pf: Platform, x: Batch, s: State)
    requires Creates(x) && Undecided(x, s) && 0 <= Position(x, s) < |x.handler.phases| - 1
    ensures var w := WriteJournal(x.journal.(phase := x.handler.phases[Position(x, s) + 1]));
            var ops := PassOps(pf, x, OnlyKind(x), WholeScan("r"), s, Alone(BARE));
            ops.Some? && 4 == |w| <= |ops.value| && ops.value[..3] == w[..3]
  {
    hide Exec, Run, Undecided, Fence, AllUndoable, DurableWrite, Recover, Describes;
    SoughtAlone(x);
    UndecidedHasJournal(x, s);
    NotTerminal(x, s);
    RunNothing(pf, s);
    var j := UndecidedEntry(pf, x, OnlyKind(x), WholeScan("r"), s, Alone(BARE));
    UndecidedIsRecorded(x, s, j);
    AloneOps(pf, x, OnlyKind(x), WholeScan("r"), s, BARE,
             Visit(x.handler.finalize(s, j) + RemoveTree("t", BARE), Some(j)));
    WriteIsFour(x.journal.(phase := x.handler.phases[Position(x, s) + 1]));
    FinalizeStarts(x, s, j);
  }

  lemma RunNothing(pf: Platform, s: State)
    ensures Run(pf, s, []) == s
  {
  }

  lemma SoughtAlone(x: Batch)
    requires Creates(x)
    ensures WellFormed(x) && Seeks(x, OnlyKind(x), WholeScan("r"))
    ensures forall removal | Inside(x, removal) :: Orderly(x, Alone(removal))
  {
    hide WellFormed;
  }

  lemma UndecidedIsRecorded(x: Batch, s: State, j: Journal)
    requires Undecided(x, s) && CurrentJournal(x, s) == Some(j)
    ensures Recorded(x, true, JournalText(j))
  {
  }

  lemma FinalizeStarts(x: Batch, s: State, j: Journal)
    requires Applies(x) && j == x.journal.(phase := j.phase)
    requires 0 <= IndexOf(x.handler.phases, j.phase) < |x.handler.phases| - 1
    ensures var w := WriteJournal(x.journal.(phase := x.handler.phases[IndexOf(x.handler.phases, j.phase) + 1]));
            var ops := x.handler.finalize(s, j);
            |w| <= |ops| && ops[..|w|] == w
  {
    hide WellFormed, WriteJournal, Describes, AllUndoable;
    assert x.handler.finalize == BatchHandler(x.handler.phases, x.handler.commitPhase).finalize;
    var i := IndexOf(x.handler.phases, j.phase) + 1;
    assert j.(phase := x.handler.phases[i]) == x.journal.(phase := x.handler.phases[i]);
  }

  lemma AdvanceStaysAmbiguous(pf: Platform, x: Batch, s: State, i: nat)
    requires Proper(x) && Ambiguous(x, s) && i < |x.handler.phases|
    requires |WriteJournal(x.journal.(phase := x.handler.phases[i]))| == 4
    requires Committed(x.handler, x.handler.phases[i])
    ensures Ambiguous(x, Run(pf, s, WriteJournal(x.journal.(phase := x.handler.phases[i]))[..3]))
  {
    hide Exec, Run, Undecided, Fence, AllUndoable, DurableWrite, Describes;
    var j := x.journal.(phase := x.handler.phases[i]);
    AdvanceStaysUndecided(pf, x, s, i, 3);
    RunKeepsCoherent(pf, s, WriteJournal(j)[..3]);
    JournalWriteStep(pf, x, s, j, 3, JournalFile(j.id));
  }

  // ------------------------------------------------------------ the lost sidecar

  /** The old journal is back and the copy of the first file is gone. */
  ghost predicate Wrecked(x: Batch, s: State) {
    && At(s, TxnDir("t")).now.Some?
    && (exists c :: Recorded(x, false, c) && At(s, JournalFile("t")) == Settled(Some(c)))
    && At(s, LOST) == Settled(None)
    && At(s, FIRST) == Settled(Some(NEW)) && At(s, SECOND) == Settled(Some(NEW))
  }

  /** At the last phase recovery only cleans up. It has removed one sidecar when the power goes. */
  lemma CleanUpIsCut(pf: Platform, x: Batch, s: State) returns (a: Attempt)
    requires Creates(x) && Ambiguous(x, s) && Position(x, s) == |x.handler.phases| - 1
    ensures var ops := PassOps(pf, x, OnlyKind(x), WholeScan("r"), s, a.pass);
            && ops.Some? && a.steps <= |ops.value| && Interrupted(a.power, Run(pf, s, ops.value[..a.steps]), a.next)
    ensures Orderly(x, a.pass) && a.power && Wrecked(x, a.next)
  {
    hide Exec, Run, Crash, Fence, AllUndoable, Describes, Undecided, Coherent, WellFormed, Recover, Wrecked, PassOps;
    SoughtAlone(x);
    UndecidedHasJournal(x, s);
    var j := CurrentJournal(x, s).value;
    UndecidedIsRecorded(x, s, j);
    TerminalEntry(x, s, j, Removal([LOST], true));
    var ops := [Unlink(LOST), Rmdir("t")];
    assert RemoveTree("t", Removal([LOST], true)) == ops;
    AloneOps(pf, x, OnlyKind(x), WholeScan("r"), s, Removal([LOST], true), Visit(ops, Some(j)));
    assert ops[..1] == [Unlink(LOST)];
    var next := CutRemoval(pf, x, s);
    a := Attempt(Alone(Removal([LOST], true)), 1, true, next);
  }

  lemma CutRemoval(pf: Platform, x: Batch, s: State) returns (next: State)
    requires Creates(x) && Ambiguous(x, s)
    ensures Crash(Run(pf, s, [Unlink(LOST)]), next) && Wrecked(x, next)
  {
    hide Exec, Run, Crash, AllUndoable, Describes, Undecided, Coherent, CutTo, WellFormed, Recorded;
    var i :| i in At(s, JournalFile("t")).images && i.Whole? && Recorded(x, false, i.content);
    var t := Run(pf, s, [Unlink(LOST)]);
    RunKeepsCoherent(pf, s, [Unlink(LOST)]);
    UndecidedSlots(x, s);
    UnlinkSlots(pf, s);
    var chosen: map<Path, Option<Content>> := map[JournalFile("t") := Some(i.content), LOST := None];
    CutIsCrash(t, chosen);
    next := CutTo(t, chosen);
  }

  lemma UnlinkSlots(pf: Platform, s: State)
    requires At(s, JournalFile("t")).now.Some?
    ensures var t := Run(pf, s, [Unlink(LOST)]);
            && {LOST, JournalFile("t")} <= t.Keys
            && Gone in At(t, LOST).images
            && forall q | q != LOST :: At(t, q) == At(s, q)
  {
    assert [Unlink(LOST)][..0] == [];
    assert Run(pf, s, [Unlink(LOST)]) == Exec(pf, s, Unlink(LOST));
  }

  lemma UndecidedSlots(x: Batch, s: State)
    requires Creates(x) && Undecided(x, s)
    ensures At(s, TxnDir("t")).now.Some?
    ensures At(s, FIRST) == Settled(Some(NEW)) && At(s, SECOND) == Settled(Some(NEW))
  {
    hide WellFormed, AllUndoable;
    assert FIRST in x.after && SECOND in x.after;
  }

  lemma TerminalEntry(x: Batch, s: State, j: Journal, removal: Removal)
    requires Creates(x) && Undecided(x, s) && CurrentJournal(x, s) == Some(j)
    requires Position(x, s) == |x.handler.phases| - 1
    requires Recorded(x, true, JournalText(j))
    ensures Recover(OnlyKind(x), WholeScan("r"), s, "t", true, removal) == Ok(Visit(RemoveTree("t", removal), Some(j)))
  {
    hide AllUndoable, Describes, Fence, RemoveTree;
    UndecidedSlots(x, s);
    assert Fence(x.handler, x.journal.(phase := j.phase), x.journal.id, x.journal.root) == None;
    assert Terminal(x.handler, j.phase);
    assert [] + RemoveTree("t", removal) == RemoveTree("t", removal);
  }

  /** The next recovery rolls back what it can: the second file goes, the first one stays new. */
  lemma WreckedIsMixed(pf: Platform, x: Batch, s: State)
    requires pf.dirFsync && Creates(x) && Wrecked(x, s)
    ensures PassOps(pf, x, OnlyKind(x), WholeScan("r"), s, Alone(BARE)).Some?
    ensures var end := Run(pf, s, PassOps(pf, x, OnlyKind(x), WholeScan("r"), s, Alone(BARE)).value);
            && At(end, FIRST) == Settled(Some(NEW)) && At(end, SECOND) == Settled(None)
            && !AllAfter(x.before, end) && !AllAfter(x.after, end)
  {
    hide Exec, Run, AllUndoable, Describes, Fence, Recover, PassOps;
    var c :| Recorded(x, false, c) && At(s, JournalFile("t")) == Settled(Some(c));
    WreckedEntry(x, s, c);
    AloneOps(pf, x, OnlyKind(x), WholeScan("r"), s, BARE, Visit(REMOVAL, Some(c.journal)));
    RemovalSlots(pf, s);
    assert FIRST in x.before && SECOND in x.after;
  }

  const REMOVAL: seq<Op> := [Unlink(SECOND), FsyncDir(RootDir("r")), Rmdir("t")]

  lemma RemovalSlots(pf: Platform, s: State)
    requires pf.dirFsync
    ensures At(s, FIRST) == Settled(Some(NEW)) ==> At(Run(pf, s, REMOVAL), FIRST) == Settled(Some(NEW))
    ensures At(Run(pf, s, REMOVAL), SECOND) == Settled(None)
  {
    hide Exec, Run;
    var s1, s2 := Exec(pf, s, REMOVAL[0]), Exec(pf, Exec(pf, s, REMOVAL[0]), REMOVAL[1]);
    RunThree(pf, s, REMOVAL);
    forall p | p == FIRST || p == SECOND
      ensures At(s1, p) == Effect(pf, s, REMOVAL[0], p)
      ensures At(s2, p) == Effect(pf, s1, REMOVAL[1], p)
      ensures At(Run(pf, s, REMOVAL), p) == Effect(pf, s2, REMOVAL[2], p)
    {
      ExecAt(pf, s, REMOVAL[0], p);
      ExecAt(pf, s1, REMOVAL[1], p);
      ExecAt(pf, s2, REMOVAL[2], p);
    }
  }

  lemma RunThree(pf: Platform, s: State, ops: seq<Op>)
    requires |ops| == 3
    ensures Run(pf, s, ops) == Exec(pf, Exec(pf, Exec(pf, s, ops[0]), ops[1]), ops[2])
  {
    hide Exec;
    assert ops[..3] == ops && ops[..0] == [] && Run(pf, s, []) == s;
    PrefixStep(pf, s, ops, 0);
    PrefixStep(pf, s, ops, 1);
    PrefixStep(pf, s, ops, 2);
  }

  lemma WreckedEntry(x: Batch, s: State, c: Content)
    requires Creates(x) && Wrecked(x, s) && Recorded(x, false, c) && At(s, JournalFile("t")) == Settled(Some(c))
    ensures Recover(OnlyKind(x), WholeScan("r"), s, "t", true, BARE)
         == Ok(Visit(REMOVAL, Some(c.journal)))
  {
    hide AllUndoable, Describes, Fence, Restore;
    var j := c.journal;
    assert Fence(x.handler, x.journal.(phase := j.phase), x.journal.id, x.journal.root) == None;
    WreckedRollback(x, s);
    RestoreIgnoresPhase(s, x.journal, j.phase, 2);
    assert x.handler.rollback == Rollback;
    assert RemoveTree("t", BARE) == [Rmdir("t")];
    assert [Unlink(SECOND), FsyncDir(RootDir("r"))] + [Rmdir("t")] == REMOVAL;
  }

  lemma WreckedRollback(x: Batch, s: State)
    requires Creates(x) && Wrecked(x, s)
    ensures Restore(s, x.journal, 2) == [Unlink(SECOND), FsyncDir(RootDir("r"))]
  {
    hide AllUndoable, Describes, WellFormed;
    assert RestoreOne(s, x.journal, 0) == [];
    assert RestoreOne(s, x.journal, 1) == [Unlink(SECOND), FsyncDir(RootDir("r"))];
    assert Restore(s, x.journal, 1) == Restore(s, x.journal, 0) + RestoreOne(s, x.journal, 0);
    assert Restore(s, x.journal, 2) == Restore(s, x.journal, 1) + RestoreOne(s, x.journal, 1);
  }

  // --------------------------------------------------------------- main theorem

  /** One slip for each phase still to go, and then a power cut during the removal. */
  lemma {:induction false} Descend(pf: Platform, x: Batch, s: State) returns (attempts: seq<Attempt>, found: State)
    requires pf.dirFsync && Creates(x) && Ambiguous(x, s) && Position(x, s) <= |x.handler.phases| - 1
    ensures Attempts(pf, x, OnlyKind(x), WholeScan("r"), s, attempts, found)
    ensures SlipCount(x, s, attempts) == |x.handler.phases| - 1 - Position(x, s)
    ensures Wrecked(x, found)
    decreases |x.handler.phases| - Position(x, s)
  {
    hide Exec, Run, Undecided, Safe, Done, Fence, PassOps, Crash, Ambiguous, Creates, Wrecked, Orderly, Position;
    if Position(x, s) == |x.handler.phases| - 1 {
      var a := CleanUpIsCut(pf, x, s);
      attempts, found := [a], a.next;
    } else {
      var a := SlipOnce(pf, x, s);
      var rest;
      rest, found := Descend(pf, x, a.next);
      attempts := [a] + rest;
      assert attempts[1..] == rest;
    }
  }

  /** A run of a batch that is killed in the commit window, the interrupted recoveries, and a complete one. */
  datatype Trial = Trial(
    x: Batch, kinds: Registry, scan: Scan, start: State, removal: Removal,
    stopped: State, attempts: seq<Attempt>, found: State, last: Pass)

  ghost predicate KilledInCommitWindow(pf: Platform, t: Trial) {
    && Launches(pf, t.x, t.start, t.removal) && Seeks(t.x, t.kinds, t.scan)
    && (forall i | 0 <= i < |t.x.journal.changes| :: t.x.journal.changes[i].path in t.x.after)
    && Stops(pf, t.x, t.start, Life(pf, t.x, t.start), t.removal,
             |Prologue(t.x, Life(pf, t.x, t.start))| + 3, false, t.stopped)
    && Attempts(pf, t.x, t.kinds, t.scan, t.stopped, t.attempts, t.found)
    && Orderly(t.x, t.last)
  }

  ghost predicate AllOrNothing(pf: Platform, t: Trial) {
    var ops := PassOps(pf, t.x, t.kinds, t.scan, t.found, t.last);
    ops.Some? && (AllAfter(t.x.before, Run(pf, t.found, ops.value)) || AllAfter(t.x.after, Run(pf, t.found, ops.value)))
  }

  ghost predicate OfKind(t: Trial, phases: seq<string>, commitPhase: string) {
    t.x.handler.phases == phases && t.x.handler.commitPhase == commitPhase
  }

  /** With a terminal commit phase, or with as many slips as there are phases after it, some run ends with one
      file new and the other old. */
  lemma SlipsMixFiles(pf: Platform, phases: seq<string>, commitPhase: string) returns (t: Trial)
    requires Durable(pf) && Usable(phases, commitPhase)
    ensures OfKind(t, phases, commitPhase) && KilledInCommitWindow(pf, t) && !AllOrNothing(pf, t)
    ensures SlipCount(t.x, t.stopped, t.attempts) == |phases| - 1 - IndexOf(phases, commitPhase)
  {
    hide Exec, Run, Undecided, Safe, Done, Fence, PassOps, Crash, Creates, Wrecked, Attempts, SlipCount;
    hide AllAfter, Ambiguous, Forward, Prologue, Life, Applies;
    var x := TwoFilesExist(phases, commitPhase);
    assert Applies(x) by { CreatesApplies(x); }
    AppliesDescribes(x);
    WriteIsFour(CommitJournal(x));
    assert Launches(pf, x, START, BARE);
    WindowIsAmbiguous(pf, x, START, BARE);
    var k := |Prologue(x, Life(pf, x, START))| + 3;
    var stopped := Run(pf, START, Forward(pf, x, START, Life(pf, x, START), BARE)[..k]);
    var attempts, found := Descend(pf, x, stopped);
    WreckedIsMixed(pf, x, found);
    SoughtAlone(x);
    t := Trial(x, OnlyKind(x), WholeScan("r"), START, BARE, stopped, attempts, found, Alone(BARE));
  }

  lemma CreatesApplies(x: Batch)
    requires Creates(x)
    ensures Applies(x)
  {
    hide Applies;
  }

  /**
   * A kill between the commit rename and its flush, followed by recoveries of which at most `n` are killed in
   * such a window again, leaves every batch all before or all after exactly when there are more than `n`
   * phases after the commit phase. In particular one plain kill is harmless exactly when the commit phase is
   * not the last.
   */
  lemma SlipsToleratedIff(pf: Platform, phases: seq<string>, commitPhase: string, n: nat)
    requires Durable(pf) && Usable(phases, commitPhase)
    ensures IndexOf(phases, commitPhase) + n < |phases| - 1
       <==> (forall t: Trial |
               && OfKind(t, phases, commitPhase) && KilledInCommitWindow(pf, t)
               && SlipCount(t.x, t.stopped, t.attempts) <= n :: AllOrNothing(pf, t))
  {
    hide *;
    if IndexOf(phases, commitPhase) + n < |phases| - 1 {
      forall t: Trial
        | OfKind(t, phases, commitPhase) && KilledInCommitWindow(pf, t) && SlipCount(t.x, t.stopped, t.attempts) <= n
        ensures AllOrNothing(pf, t)
      {
        FewSlips(pf, t, phases, commitPhase, n);
      }
    } else {
      var t := SlipsMixFiles(pf, phases, commitPhase);
    }
  }

  lemma FewSlips(pf: Platform, t: Trial, phases: seq<string>, commitPhase: string, n: nat)
    requires IndexOf(phases, commitPhase) + n < |phases| - 1
    requires OfKind(t, phases, commitPhase) && KilledInCommitWindow(pf, t)
    requires SlipCount(t.x, t.stopped, t.attempts) <= n
    ensures AllOrNothing(pf, t)
  {
    hide Exec, Run, Fence, PassOps, Attempts, Stops, Seeks, Launches, SlipCount, AllAfter, Prologue, Life, Applies;
    BatchIsAtomic(pf, t.x, t.kinds, t.scan, t.start, t.removal, |Prologue(t.x, Life(pf, t.x, t.start))| + 3,
                  false, t.stopped, t.attempts, t.found, t.last);
  }
}
