/**
 * All or nothing for the journaled-change kind, with no assumption about the kind left.
 */
module FsTxnBatchTheorems {
  import opened Options
  import opened Disk
  import opened FsTxn
  import opened FsTxnSafety
  import opened FsTxnRuns
  import opened FsTxnWindow
  import opened FsTxnTheorems
  import opened FsTxnBatch

  /** What happens between begin and commit: stage, publish. */
  function Life(pf: Platform, x: Batch, s: State): seq<Op>
    requires forall i | 0 <= i < |x.journal.changes| :: x.journal.changes[i].path in x.after
  {
    Apply(Run(pf, s, Begin(x.journal)), x.journal, x.after)
  }

  /** A well-described batch on a disk that knows nothing of it yet. */
  ghost predicate Launches(pf: Platform, x: Batch, s: State, removal: Removal) {
    Durable(pf) && Applies(x) && Fresh(x, s) && Inside(x, removal)
  }

  lemma LaunchRuns(pf: Platform, x: Batch, s: State, removal: Removal)
    requires Launches(pf, x, s, removal)
    ensures Runs(pf, x, s, Life(pf, x, s), removal) && FlushesFirst(pf, x)
  {
    hide Exec, Safe, Apply, AllUndoable, Fence, Applies, Contract, FlushesFirst, Prepares;
    assert WellFormed(x) && Proper(x) by { AppliesIsProper(x); }
    BatchMeetsContract(pf, x);
    BatchFlushesFirst(pf, x);
    BatchIsStable(x, false);
    BeginIsSafe(pf, x, s);
    assert Begin(x.journal)[..|Begin(x.journal)|] == Begin(x.journal);
    ApplyPrepares(pf, x, Run(pf, s, Begin(x.journal)));
  }

  /**
   * All or nothing for every list of file changes, under any phase vocabulary. A kill between the commit
   * rename and its flush is no exception, as long as the recoveries that follow are killed in the same place
   * fewer times than the vocabulary has phases after the commit phase.
   */
  lemma BatchIsAtomic(
    pf: Platform, x: Batch, kinds: Registry, scan: Scan, s: State, removal: Removal, k: nat,
    power: bool, stopped: State, attempts: seq<Attempt>, found: State, last: Pass)
    requires Launches(pf, x, s, removal) && Seeks(x, kinds, scan)
    requires Stops(pf, x, s, Life(pf, x, s), removal, k, power, stopped)
    requires InWindow(x, Life(pf, x, s), k, power) ==>
               IndexOf(x.handler.phases, x.handler.commitPhase) + SlipCount(x, stopped, attempts)
                 < |x.handler.phases| - 1
    requires Attempts(pf, x, kinds, scan, stopped, attempts, found) && Orderly(x, last)
    ensures PassOps(pf, x, kinds, scan, found, last).Some?
    ensures var end := Run(pf, found, PassOps(pf, x, kinds, scan, found, last).value);
            && (AllAfter(x.before, end) || AllAfter(x.after, end))
            && (k < |Prologue(x, Life(pf, x, s))| + 3 ==> AllAfter(x.before, end))
            && (k > |Prologue(x, Life(pf, x, s))| + 3 ==> AllAfter(x.after, end))
  {
    hide Exec, Safe, Apply, AllUndoable, Fence, PassOps, Attempts, Stops, Seeks, Applies, Runs, SlipCount, FlushesFirst;
    AppliesDescribes(x);
    LaunchRuns(pf, x, s, removal);
    CrashAtomicity(pf, x, kinds, scan, s, Life(pf, x, s), removal, k, power, stopped, attempts, found, last);
  }

  // ------------------------------------------------------------------ a witness

  function OneFile(phases: seq<string>, id: string, root: string, name: string, was: Content, next: Content): Journal
    requires phases != []
  {
    var change := Change(InRoot(root, name), Update, Some(Digest(was)), Some(Digest(next)));
    Journal(1, "batch", phases[0], id, root, [change], "")
  }

  function WholeScan(root: string): Scan {
    Scan(root, _ => true)
  }

  function OnlyKind(x: Batch): Registry {
    map[x.journal.kind := x.handler]
  }

  /** A usable vocabulary: distinct phases, and the commit phase among them but not first. */
  predicate Usable(phases: seq<string>, commitPhase: string) {
    Vocabulary(phases) && IndexOf(phases, commitPhase) > 0
  }

  /** The assumptions of BatchIsAtomic are met, for instance by every update of one file. */
  lemma OneFileMeetsAssumptions(
    pf: Platform, phases: seq<string>, commitPhase: string,
    id: string, root: string, name: string, was: Content, next: Content)
    returns (x: Batch, s: State)
    requires Durable(pf) && Usable(phases, commitPhase) && WithinRoot(InRoot(root, name), root)
    ensures Launches(pf, x, s, BARE) && x.journal == OneFile(phases, id, root, name, was, next)
    ensures x.handler == BatchHandler(phases, commitPhase) && Seeks(x, OnlyKind(x), WholeScan(root))
    ensures Stops(pf, x, s, Life(pf, x, s), BARE, 0, true, s) && !InWindow(x, Life(pf, x, s), 0, true)
    ensures Attempts(pf, x, OnlyKind(x), WholeScan(root), s, [], s) && Orderly(x, Pass(true, BARE, [], []))
  {
    hide Forward, Prologue, AllUndoable, Fence;
    x, s := OneFileApplies(phases, commitPhase, id, root, name, was, next);
    AppliesDescribes(x);
    assert Forward(pf, x, s, Life(pf, x, s), BARE)[..0] == [];
    FreshCrash(s, InRoot(root, name), was);
  }

  lemma FreshCrash(s: State, p: Path, was: Content)
    requires s == map[p := Settled(Some(was))] && Owner(p).None?
    ensures Crash(s, s)
  {
  }

  lemma AppliesDescribes(x: Batch)
    requires Applies(x)
    ensures forall i | 0 <= i < |x.journal.changes| :: x.journal.changes[i].path in x.after
  {
    hide WellFormed, BatchOf;
  }

  lemma OneFileApplies(
    phases: seq<string>, commitPhase: string, id: string, root: string, name: string, was: Content, next: Content)
    returns (x: Batch, s: State)
    requires Usable(phases, commitPhase) && WithinRoot(InRoot(root, name), root)
    ensures Applies(x) && Fresh(x, s) && x.journal == OneFile(phases, id, root, name, was, next)
    ensures x.handler == BatchHandler(phases, commitPhase)
    ensures s == map[InRoot(root, name) := Settled(Some(was))]
  {
    var p := InRoot(root, name);
    var j := OneFile(phases, id, root, name, was, next);
    var before: map<Path, Option<Content>> := map[p := Some(was)];
    var after: map<Path, Option<Content>> := map[p := Some(next)];
    s := map[p := Settled(Some(was))];
    assert Describes(j, before, after) by {
      assert |j.changes| == 1 && j.changes[0].path == p;
      assert !FsTxnBatch.Untouched(j, p);
    }
    x := BatchOf(phases, commitPhase, j, before, after);
    FencesPass(x);
  }

  /** A batch of this kind whose files are under its root and whose vocabulary is usable is well formed. */
  lemma FencesPass(x: Batch)
    requires Describes(x.journal, x.before, x.after)
    requires x == BatchOf(x.handler.phases, x.handler.commitPhase, x.journal, x.before, x.after)
    requires Usable(x.handler.phases, x.handler.commitPhase) && x.journal.version == 1
    requires x.journal.phase == x.handler.phases[0]
    requires forall i | 0 <= i < |x.journal.changes| :: WithinRoot(x.journal.changes[i].path, x.journal.root)
    ensures Applies(x)
  {
    hide AllUndoable, AllAfter;
    PhaseOrder(x, 0);
    forall phase | phase in x.handler.phases
      ensures Fence(x.handler, x.journal.(phase := phase), x.journal.id, x.journal.root) == None
    {
    }
  }
}
