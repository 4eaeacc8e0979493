/**
 * A concrete kind: it applies a list of journaled file changes. Old contents are staged in the
 * transaction directory, then each file is published, then the commit phase is recorded. Its scripts are
 * shown to meet the contract that the engine asks of every kind.
 */
module FsTxnBatch {
  import opened Options
  import opened Disk
  import opened FsTxn
  import opened FsTxnSafety
  import opened FsTxnRuns
  import opened FsTxnWindow

  // ------------------------------------------------------------------ scripts

  function Now(s: State, p: Path): Option<Content> {
    match At(s, p).now
    case None => None
    case Some(f) => Some(f.content)
  }

  function HashOf(c: Option<Content>): Option<Digest> {
    match c
    case None => None
    case Some(content) => Some(Digest(content))
  }

  /** Make the path hold the content, or nothing, durably. */
  function Publish(p: Path, want: Option<Content>): seq<Op> {
    match want
    case None => [Unlink(p), FsyncDir(DirOf(p))]
    case Some(c) => DurableWrite(p, c)
  }

  /** Put one file back. A file that already is as before is only flushed; without a sidecar there is
      nothing to put back. */
  function RestoreOne(s: State, j: Journal, i: nat): seq<Op>
    requires i < |j.changes|
  {
    var ch := j.changes[i];
    if HashOf(Now(s, ch.path)) == ch.beforeHash then [FsyncDir(DirOf(ch.path))]
    else if ch.beforeHash.None? then Publish(ch.path, None)
    else if Now(s, Sidecar(j.id, Before, i)).Some? then Publish(ch.path, Now(s, Sidecar(j.id, Before, i)))
    else []
  }

  function Restore(s: State, j: Journal, n: nat): seq<Op>
    requires n <= |j.changes|
  {
    if n == 0 then [] else Restore(s, j, n - 1) + RestoreOne(s, j, n - 1)
  }

  function Rollback(s: State, j: Journal): seq<Op> {
    Restore(s, j, |j.changes|)
  }

  /** Record the phases from position i on, one durable write each. */
  function AdvanceFrom(phases: seq<string>, j: Journal, i: nat): seq<Op>
    decreases |phases| - i
  {
    if i >= |phases| then [] else Advance(j, phases[i]) + AdvanceFrom(phases, j, i + 1)
  }

  function Finalize(phases: seq<string>, j: Journal): seq<Op> {
    AdvanceFrom(phases, j, IndexOf(phases, j.phase) + 1)
  }

  /** The kind with any phase vocabulary and any commit phase in it. */
  function BatchHandler(phases: seq<string>, commitPhase: string): Handler {
    Handler(phases, commitPhase, _ => true, Rollback, (s, j) => Finalize(phases, j))
  }

  function StageOne(s: State, j: Journal, n: nat): seq<Op>
    requires n < |j.changes|
  {
    match Now(s, j.changes[n].path)
    case None => []
    case Some(c) => DurableWrite(Sidecar(j.id, Before, n), c)
  }

  /** Keep a durable copy of every old content. */
  function Stage(s: State, j: Journal, n: nat): seq<Op>
    requires n <= |j.changes|
  {
    if n == 0 then [] else Stage(s, j, n - 1) + StageOne(s, j, n - 1)
  }

  function PublishAll(j: Journal, after: map<Path, Option<Content>>, n: nat): seq<Op>
    requires n <= |j.changes|
    requires forall i | 0 <= i < |j.changes| :: j.changes[i].path in after
  {
    if n == 0 then [] else PublishAll(j, after, n - 1) + Publish(j.changes[n - 1].path, after[j.changes[n - 1].path])
  }

  // -------------------------------------------------------- what undo requires

  /** The changes name distinct files, with the hashes of the two contents; every other file is the same
      before and after. */
  ghost predicate Describes(j: Journal, before: map<Path, Option<Content>>, after: map<Path, Option<Content>>) {
    && before.Keys == after.Keys
    && (forall p | p in before :: p.InRoot? || p.Outside?)
    && (forall i | 0 <= i < |j.changes| ::
          && j.changes[i].path in before
          && j.changes[i].beforeHash == HashOf(before[j.changes[i].path])
          && j.changes[i].afterHash == HashOf(after[j.changes[i].path]))
    && (forall i, k | 0 <= i < k < |j.changes| :: j.changes[i].path != j.changes[k].path)
    && (forall p | p in before && Untouched(j, p) :: before[p] == after[p])
  }

  predicate Untouched(j: Journal, p: Path) {
    forall i | 0 <= i < |j.changes| :: j.changes[i].path != p
  }

  function ImageFor(c: Option<Content>): Image {
    match c
    case None => Gone
    case Some(content) => Whole(content)
  }

  /** The file is one of its two contents whatever happens, and the old one can be brought back. */
  predicate Undoable(before: Option<Content>, after: Option<Content>, slot: Slot, sidecar: Slot) {
    && ImageOf(slot.now) in slot.images
    && (forall i | i in slot.images :: i == ImageFor(before) || i == ImageFor(after))
    && (slot == Settled(before) || before.None? || sidecar == Settled(before))
  }

  ghost predicate ItemOk(x: Batch, s: State, i: nat)
    requires i < |x.journal.changes| && Describes(x.journal, x.before, x.after)
  {
    var p := x.journal.changes[i].path;
    Undoable(x.before[p], x.after[p], At(s, p), At(s, Sidecar(x.journal.id, Before, i)))
  }

  ghost predicate AllUndoable(
    j: Journal, before: map<Path, Option<Content>>, after: map<Path, Option<Content>>, s: State)
    requires Describes(j, before, after)
  {
    && (forall i | 0 <= i < |j.changes| ::
          Undoable(before[j.changes[i].path], after[j.changes[i].path],
                   At(s, j.changes[i].path), At(s, Sidecar(j.id, Before, i))))
    && (forall p | p in before && Untouched(j, p) :: At(s, p) == Settled(before[p]))
  }

  ghost predicate AllAfter(after: map<Path, Option<Content>>, s: State) {
    forall p | p in after :: At(s, p) == Settled(after[p])
  }

  ghost function BatchOf(
    phases: seq<string>, commitPhase: string, j: Journal,
    before: map<Path, Option<Content>>, after: map<Path, Option<Content>>): (x: Batch)
    requires Describes(j, before, after)
  {
    Batch(BatchHandler(phases, commitPhase), j, before, after,
          s => AllUndoable(j, before, after, s), s => AllAfter(after, s))
  }

  /** A well-described batch of this kind, at its first phase and passing the fences. */
  ghost predicate Applies(x: Batch) {
    && Describes(x.journal, x.before, x.after)
    && x == BatchOf(x.handler.phases, x.handler.commitPhase, x.journal, x.before, x.after)
    && Vocabulary(x.handler.phases)
    && WellFormed(x)
  }

  /** What most proofs need of it: not its scripts. */
  ghost predicate Proper(x: Batch) {
    && Describes(x.journal, x.before, x.after)
    && WellFormed(x)
    && (forall s: State :: x.undo(s) <==> AllUndoable(x.journal, x.before, x.after, s))
    && (forall s: State :: x.redo(s) <==> AllAfter(x.after, s))
  }

  lemma AppliesIsProper(x: Batch)
    requires Applies(x)
    ensures Proper(x)
  {
    hide BatchHandler, WellFormed;
  }

  lemma UndoMeans(x: Batch, s: State)
    requires Proper(x)
    ensures x.undo(s) <==> AllUndoable(x.journal, x.before, x.after, s)
  {
  }

  lemma UndoAll(x: Batch, s: State)
    requires Proper(x)
    requires forall i: nat | i < |x.journal.changes| :: ItemOk(x, s, i)
    requires forall p | p in x.before && Untouched(x.journal, p) :: At(s, p) == Settled(x.before[p])
    ensures x.undo(s)
  {
    hide Undoable, WellFormed;
    UndoMeans(x, s);
    forall i | 0 <= i < |x.journal.changes|
      ensures Undoable(x.before[x.journal.changes[i].path], x.after[x.journal.changes[i].path],
                       At(s, x.journal.changes[i].path), At(s, Sidecar(x.journal.id, Before, i)))
    {
      assert ItemOk(x, s, i);
    }
  }

  lemma UndoOne(x: Batch, s: State, i: nat)
    requires Proper(x) && x.undo(s) && i < |x.journal.changes|
    ensures ItemOk(x, s, i)
  {
    hide Undoable, Describes, WellFormed;
    UndoMeans(x, s);
  }

  lemma UndoRest(x: Batch, s: State)
    requires Proper(x) && x.undo(s)
    ensures forall p | p in x.before && Untouched(x.journal, p) :: At(s, p) == Settled(x.before[p])
  {
    hide Undoable, Describes, WellFormed;
    UndoMeans(x, s);
  }

  // ------------------------------------------------------------------ one slot

  lemma UndoableNarrows(
    before: Option<Content>, after: Option<Content>, slot: Slot, sidecar: Slot, slot': Slot, sidecar': Slot)
    requires Undoable(before, after, slot, sidecar)
    requires Narrows(slot, slot') && Narrows(sidecar, sidecar')
    ensures Undoable(before, after, slot', sidecar')
  {
    assert forall c: Option<Content>, t: Slot :: Narrows(Settled(c), t) ==> t == Settled(c);
  }

  lemma UndoNarrows(x: Batch, s: State, s': State)
    requires Proper(x) && x.undo(s)
    requires forall p | Consults(x, p) :: Narrows(At(s, p), At(s', p))
    ensures x.undo(s')
  {
    hide Undoable, WellFormed, AllUndoable, AllAfter, Narrows;
    forall i: nat | i < |x.journal.changes| ensures ItemOk(x, s', i) {
      var p := x.journal.changes[i].path;
      UndoOne(x, s, i);
      assert Consults(x, p) && Consults(x, Sidecar(x.journal.id, Before, i));
      UndoableNarrows(x.before[p], x.after[p], At(s, p), At(s, Sidecar(x.journal.id, Before, i)),
                      At(s', p), At(s', Sidecar(x.journal.id, Before, i)));
    }
    UndoRest(x, s);
    forall p | p in x.before && Untouched(x.journal, p) ensures At(s', p) == Settled(x.before[p]) {
      assert Consults(x, p);
      SettledNarrows(x.before[p], At(s', p));
    }
    UndoAll(x, s');
  }

  lemma SettledNarrows(c: Option<Content>, slot: Slot)
    requires Narrows(Settled(c), slot)
    ensures slot == Settled(c)
  {
  }

  lemma BatchIsStable(x: Batch, late: bool)
    requires Proper(x)
    ensures Stable(x, late)
  {
    hide WellFormed, Describes, AllUndoable;
    forall s: State, s': State
      | Midway(x, late, s) && forall p | Consults(x, p) :: Narrows(At(s, p), At(s', p))
      ensures Midway(x, late, s')
    {
      if late {
        forall p | p in x.after ensures At(s', p) == Settled(x.after[p]) {
          assert Consults(x, p) by { SameKeys(x); }
          SettledNarrows(x.after[p], At(s', p));
        }
      } else {
        UndoNarrows(x, s, s');
      }
    }
  }

  lemma SameKeys(x: Batch)
    requires Proper(x)
    ensures x.before.Keys == x.after.Keys
  {
  }

  /** A publish, one primitive at a time: the slot of the file is the old one, then both, then the new. */
  lemma PublishSteps(pf: Platform, s: State, p: Path, want: Option<Content>, k: nat, q: Path)
    requires pf.dirFsync && k <= |Publish(p, want)| && q != Tmp(p)
    ensures var s' := Run(pf, s, Publish(p, want)[..k]);
            && (q != p ==> At(s', q) == At(s, q) || (Flushes(pf, DirOf(p), q) && At(s', q) == Settle(At(s, q))))
            && (q == p ==> || At(s', q) == At(s, q)
                           || At(s', q) == Settled(want)
                           || (&& At(s', q).now == Settled(want).now
                               && At(s', q).images == At(s, q).images + {ImageFor(want)}))
            && (q == p && k == |Publish(p, want)| ==> At(s', q) == Settled(want))
  {
    hide Exec;
    match want
    case Some(c) => DurableWriteSteps(pf, s, p, c, k, q);
    case None =>
      var ops := Publish(p, None);
      assert ops[..0] == [] && ops[..1] == [ops[0]] && ops[..2] == ops;
      var s1 := Exec(pf, s, ops[0]);
      if k >= 1 { PrefixStep(pf, s, ops, 0); }
      if k >= 2 { PrefixStep(pf, s, ops, 1); }
      ExecAt(pf, s, ops[0], q);
      ExecAt(pf, s1, ops[1], q);
  }

  // ---------------------------------------------------------------- a publisher

  /** The paths of the transaction directory are as they were. */
  ghost predicate SameTxnDir(x: Batch, s: State, s': State) {
    forall q | Owner(q) == Some(x.journal.id) || q == TxnDir(x.journal.id) :: At(s', q) == At(s, q)
  }

  /** Files other than `p` are as they were, or flushed. */
  ghost predicate OnlyFile(x: Batch, s: State, s': State, p: Path) {
    && SameTxnDir(x, s, s')
    && forall q | q in x.before && q != p :: At(s', q) == At(s, q) || At(s', q) == Settle(At(s, q))
  }

  lemma PublishTouchesOneFile(pf: Platform, x: Batch, s: State, p: Path, want: Option<Content>, k: nat)
    requires Proper(x) && pf.dirFsync && p in x.before && k <= |Publish(p, want)|
    ensures OnlyFile(x, s, Run(pf, s, Publish(p, want)[..k]), p)
  {
    hide Run, Publish, WellFormed;
    forall q | (Owner(q) == Some(x.journal.id) || q == TxnDir(x.journal.id)) || (q in x.before && q != p)
      ensures q != Tmp(p) && q != p
      ensures At(Run(pf, s, Publish(p, want)[..k]), q) == At(s, q)
        || (q in x.before && At(Run(pf, s, Publish(p, want)[..k]), q) == Settle(At(s, q)))
    {
      assert Owner(Tmp(p)) == Owner(p) == None;
      PublishSteps(pf, s, p, want, k, q);
      OwnerOfDir(q);
      DirOfOwned(q, x.journal.id);
    }
  }

  lemma DirOfOwned(q: Path, id: string)
    ensures Owner(q) == Some(id) ==> DirOf(q) == OfTxn(id)
    ensures q == TxnDir(id) ==> DirOf(q) == Namespace
  {
  }

  lemma SafeWhileUndoable(x: Batch, s: State, s': State)
    requires Proper(x) && Safe(x, false, s) && SameTxnDir(x, s, s')
    requires Done(x, false, s') || (Anchored(x, s) && x.undo(s'))
    ensures Safe(x, false, s')
  {
  }

  // ------------------------------------------------------------------ rollback

  /** The first `n` files are restored; the others are untouched. */
  ghost predicate Restored(x: Batch, s: State, s': State, n: nat)
    requires Describes(x.journal, x.before, x.after)
  {
    && SameTxnDir(x, s, s')
    && (forall i | 0 <= i < |x.journal.changes| ::
          var p := x.journal.changes[i].path;
          if i < n then At(s', p) == Settled(x.before[p]) else At(s', p) == At(s, p) || At(s', p) == Settle(At(s, p)))
    && (forall p | p in x.before && Untouched(x.journal, p) :: At(s', p) == Settled(x.before[p]))
  }

  /** Can be rolled back: safe, with the files undoable one by one. */
  ghost predicate Startable(x: Batch, s: State) {
    Proper(x) && Safe(x, false, s) && x.undo(s)
  }

  lemma SafeIsStartable(x: Batch, s: State)
    requires Proper(x) && Safe(x, false, s)
    ensures Startable(x, s)
  {
    hide WellFormed, AllUndoable, AllAfter, JournalOk, DirOk;
    if Done(x, false, s) {
      forall i: nat | i < |x.journal.changes| ensures ItemOk(x, s, i) {
        assert x.journal.changes[i].path in Wanted(x, false);
      }
      assert forall p | p in x.before :: p in Wanted(x, false);
      UndoAll(x, s);
    }
  }

  /** The script for one file depends only on what the process can see. */
  lemma RestoreOneSees(x: Batch, s: State, s': State, i: nat)
    requires i < |x.journal.changes| && SameTxnDir(x, s, s')
    requires var p := x.journal.changes[i].path; At(s', p) == At(s, p) || At(s', p) == Settle(At(s, p))
    ensures RestoreOne(s', x.journal, i) == RestoreOne(s, x.journal, i)
  {
    assert Owner(Sidecar(x.journal.id, Before, i)) == Some(x.journal.id);
  }

  /** Restoring one file: it stays undoable throughout, other files are at most flushed, and it ends as before. */
  lemma RestoreOneSteps(pf: Platform, x: Batch, s: State, i: nat, k: nat)
    requires Startable(x, s) && pf.dirFsync && i < |x.journal.changes| && k <= |RestoreOne(s, x.journal, i)|
    ensures var s' := Run(pf, s, RestoreOne(s, x.journal, i)[..k]); var p := x.journal.changes[i].path;
            && OnlyFile(x, s, s', p)
            && ItemOk(x, s', i)
            && (k == |RestoreOne(s, x.journal, i)| ==> At(s', p) == Settled(x.before[p]))
            && (At(s, p) == Settled(x.before[p]) ==> At(s', p) == Settled(x.before[p]))
  {
    hide Exec, Run, Safe, WellFormed, AllUndoable, AllAfter, Publish;
    var j := x.journal;
    var p := j.changes[i].path;
    var side := Sidecar(j.id, Before, i);
    var ops := RestoreOne(s, j, i);
    assert ItemOk(x, s, i) by { UndoOne(x, s, i); }
    if HashOf(Now(s, p)) == j.changes[i].beforeHash {
      FlushOne(pf, x, s, p, k);
      assert Owner(side) == Some(j.id);
    } else {
      assert ops == Publish(p, x.before[p]);
      PublishSteps(pf, s, p, x.before[p], k, p) by { TmpIsAnother(p); }
      PublishTouchesOneFile(pf, x, s, p, x.before[p], k);
      assert Owner(side) == Some(j.id);
    }
  }

  lemma FlushOne(pf: Platform, x: Batch, s: State, p: Path, k: nat)
    requires Proper(x) && pf.dirFsync && p in x.before && k <= 1
    ensures var s' := Run(pf, s, [FsyncDir(DirOf(p))][..k]);
            && OnlyFile(x, s, s', p)
            && At(s', p) == if k == 1 then Settle(At(s, p)) else At(s, p)
  {
    hide Exec, WellFormed, AllUndoable, AllAfter;
    var ops := [FsyncDir(DirOf(p))];
    assert ops[..0] == [];
    if k == 1 {
      PrefixStep(pf, s, ops, 0);
      forall q ensures At(Exec(pf, s, ops[0]), q) == if Flushes(pf, DirOf(p), q) then Settle(At(s, q)) else At(s, q) {
        ExecAt(pf, s, ops[0], q);
      }
      forall q | Owner(q) == Some(x.journal.id) || q == TxnDir(x.journal.id)
        ensures !Flushes(pf, DirOf(p), q)
      {
        DirOfOwned(q, x.journal.id);
        assert DirOf(p) != Namespace && !DirOf(p).OfTxn?;
      }
    }
  }

  lemma RestoredIsSafe(x: Batch, s: State, s': State, n: nat)
    requires Startable(x, s) && Restored(x, s, s', n)
    ensures Startable(x, s')
    ensures n >= |x.journal.changes| ==> Done(x, false, s')
  {
    hide WellFormed, AllUndoable, AllAfter, Safe;
    var j := x.journal;
    forall i: nat | i < |j.changes| ensures ItemOk(x, s', i) {
      UndoOne(x, s, i);
      var p := j.changes[i].path;
      assert Owner(Sidecar(j.id, Before, i)) == Some(j.id);
      if i < n {
        assert Undoable(x.before[p], x.after[p], At(s', p), At(s', Sidecar(j.id, Before, i)));
      }
    }
    UndoAll(x, s');
    DoneByParts(x, s, s', n);
    assert Done(x, false, s') || Anchored(x, s) by { DoneOrAnchored(x, s); }
    SafeWhileUndoable(x, s, s');
  }

  lemma DoneByParts(x: Batch, s: State, s': State, n: nat)
    requires Proper(x) && Restored(x, s, s', n)
    ensures Done(x, false, s) || n >= |x.journal.changes| ==> Done(x, false, s')
  {
    if Done(x, false, s) || n >= |x.journal.changes| {
      forall p | p in x.before ensures At(s', p) == Settled(x.before[p]) {
        if !Untouched(x.journal, p) {
          var i :| 0 <= i < |x.journal.changes| && x.journal.changes[i].path == p;
          assert p in Wanted(x, false);
        }
      }
    }
  }

  /** One file changed and still undoable, the others at most flushed: the batch is still safe. */
  lemma SafeMidFile(x: Batch, s: State, s': State, n: nat)
    requires Startable(x, s) && n < |x.journal.changes|
    requires var p := x.journal.changes[n].path;
             && OnlyFile(x, s, s', p) && ItemOk(x, s', n)
             && (Anchored(x, s) || At(s', p) == Settled(x.before[p]))
    ensures Startable(x, s')
  {
    hide WellFormed, Undoable, AllUndoable, AllAfter, JournalOk, DirOk;
    var p := x.journal.changes[n].path;
    StillUndoable(x, s, s', n);
    DoneOrAnchored(x, s);
    if !Anchored(x, s) {
      forall q | q in Wanted(x, false) ensures At(s', q) == Settled(Wanted(x, false)[q]) {
        assert q in x.before;
      }
    }
    SafeWhileUndoable(x, s, s');
  }

  lemma RestoredNext(x: Batch, s: State, s': State, s2: State, n: nat)
    requires Proper(x) && n < |x.journal.changes| && Restored(x, s, s', n)
    requires OnlyFile(x, s', s2, x.journal.changes[n].path)
    requires At(s2, x.journal.changes[n].path) == Settled(x.before[x.journal.changes[n].path])
    ensures Restored(x, s, s2, n + 1)
  {
    hide WellFormed, AllUndoable, AllAfter;
    forall i | 0 <= i < |x.journal.changes| && i != n
      ensures x.journal.changes[i].path != x.journal.changes[n].path
    {
    }
  }

  lemma RestoreStep(pf: Platform, x: Batch, s: State, s': State, n: nat, k: nat)
    requires Startable(x, s) && pf.dirFsync && n < |x.journal.changes| && Restored(x, s, s', n)
    requires k <= |RestoreOne(s, x.journal, n)|
    ensures var s2 := Run(pf, s', RestoreOne(s, x.journal, n)[..k]);
            && Safe(x, false, s2)
            && (k == |RestoreOne(s, x.journal, n)| ==> Restored(x, s, s2, n + 1))
  {
    hide Run, WellFormed, RestoreOne, AllUndoable, AllAfter, Safe, ItemOk, OnlyFile;
    RestoreOneSees(x, s, s', n);
    RestoredIsSafe(x, s, s', n);
    RestoreOneSteps(pf, x, s', n, k);
    var s2 := Run(pf, s', RestoreOne(s, x.journal, n)[..k]);
    if k == |RestoreOne(s, x.journal, n)| {
      RestoredNext(x, s, s', s2, n);
    }
    var p := x.journal.changes[n].path;
    if !Anchored(x, s') {
      DoneOrAnchored(x, s');
      assert p in Wanted(x, false);
    }
    SafeMidFile(x, s', s2, n);
  }

  lemma DoneOrAnchored(x: Batch, s: State)
    requires Safe(x, false, s)
    ensures Done(x, false, s) || Anchored(x, s)
  {
  }

  lemma StillUndoable(x: Batch, s: State, s': State, n: nat)
    requires Startable(x, s) && n < |x.journal.changes|
    requires OnlyFile(x, s, s', x.journal.changes[n].path) && ItemOk(x, s', n)
    ensures x.undo(s')
  {
    hide WellFormed, Safe, AllUndoable, AllAfter;
    var j := x.journal;
    UndoRest(x, s);
    forall i: nat | i < |j.changes| ensures ItemOk(x, s', i) {
      UndoOne(x, s, i);
      assert Owner(Sidecar(j.id, Before, i)) == Some(j.id);
    }
    UndoAll(x, s');
  }

  lemma {:induction false} RollbackSteps(pf: Platform, x: Batch, s: State, n: nat)
    requires Startable(x, s) && pf.dirFsync && n <= |x.journal.changes|
    ensures Guards(pf, x, false, s, Restore(s, x.journal, n))
    ensures Restored(x, s, Run(pf, s, Restore(s, x.journal, n)), n)
  {
    hide Exec, WellFormed, Safe, AllUndoable, AllAfter, RestoreOne;
    var j := x.journal;
    if n > 0 {
      RollbackSteps(pf, x, s, n - 1);
      var a, b := Restore(s, j, n - 1), RestoreOne(s, j, n - 1);
      var s' := Run(pf, s, a);
      forall k | 0 <= k <= |b| ensures Safe(x, false, Run(pf, s', b[..k])) {
        RestoreStep(pf, x, s, s', n - 1, k);
      }
      RestoreStep(pf, x, s, s', n - 1, |b|);
      assert b[..|b|] == b;
      GuardsAppend(pf, x, false, s, a, b);
    } else {
      assert Restored(x, s, s, 0) by { UndoRest(x, s); }
    }
  }

  // --------------------------------------------------------------------- apply

  /** The files are untouched and the first `n` old contents are staged. */
  ghost predicate Staged(x: Batch, s: State, n: nat)
    requires Describes(x.journal, x.before, x.after)
  {
    && Safe(x, false, s) && Done(x, false, s) && Anchored(x, s)
    && forall i | 0 <= i < n && i < |x.journal.changes| :: SidecarOk(x, s, i)
  }

  ghost predicate SidecarOk(x: Batch, s: State, i: nat)
    requires i < |x.journal.changes| && Describes(x.journal, x.before, x.after)
  {
    var was := x.before[x.journal.changes[i].path];
    was.None? || At(s, Sidecar(x.journal.id, Before, i)) == Settled(was)
  }

  /** Writing a sidecar only flushes the transaction directory. */
  lemma StageStep(pf: Platform, x: Batch, s: State, n: nat, c: Content, k: nat)
    requires Proper(x) && pf.dirFsync && n < |x.journal.changes| && Staged(x, s, n) && k <= 4
    requires x.before[x.journal.changes[n].path] == Some(c)
    ensures var s' := Run(pf, s, DurableWrite(Sidecar(x.journal.id, Before, n), c)[..k]);
            Staged(x, s', if k == 4 then n + 1 else n)
  {
    hide Run, WellFormed, AllUndoable, AllAfter;
    var side := Sidecar(x.journal.id, Before, n);
    var s' := Run(pf, s, DurableWrite(side, c)[..k]);
    TmpIsAnother(side);
    forall q | q in x.before || q == TxnDir(x.journal.id) || q == JournalFile(x.journal.id) || q.Sidecar?
      ensures At(s', q) == DuringWrite(pf, s, side, c, k, q)
    {
      DurableWriteSteps(pf, s, side, c, k, q);
    }
    StageKeepsSafe(x, s, s');
    forall i: nat | (i < n || (i == n && k == 4)) && i < |x.journal.changes| ensures SidecarOk(x, s', i) {
      assert i < n ==> SidecarOk(x, s, i);
    }
  }

  lemma StageKeepsSafe(x: Batch, s: State, s': State)
    requires Proper(x) && Safe(x, false, s) && Done(x, false, s) && Anchored(x, s)
    requires forall q | q in x.before || q == TxnDir(x.journal.id) || q == JournalFile(x.journal.id) ::
               At(s', q) == At(s, q) || At(s', q) == Settle(At(s, q))
    ensures Safe(x, false, s') && Done(x, false, s') && Anchored(x, s')
  {
    hide WellFormed, AllUndoable, AllAfter, Recorded, Describes;
    forall q | q in Wanted(x, false) ensures At(s', q) == Settled(Wanted(x, false)[q]) {
      assert q in x.before;
    }
  }

  lemma StageOneSettles(pf: Platform, x: Batch, s0: State, s: State, n: nat)
    requires Proper(x) && pf.dirFsync && n < |x.journal.changes| && Staged(x, s, n)
    requires Done(x, false, s0)
    ensures Guards(pf, x, false, s, StageOne(s0, x.journal, n))
    ensures Staged(x, Run(pf, s, StageOne(s0, x.journal, n)), n + 1)
  {
    hide Exec, WellFormed, AllUndoable, AllAfter, DurableWrite, Safe;
    var p := x.journal.changes[n].path;
    assert p in Wanted(x, false);
    assert Now(s0, p) == x.before[p];
    match x.before[p] {
      case None =>
        assert forall i | 0 <= i < n + 1 && i < |x.journal.changes| :: SidecarOk(x, s, i);
      case Some(c) =>
        var b := DurableWrite(Sidecar(x.journal.id, Before, n), c);
        WriteLength(Sidecar(x.journal.id, Before, n), c);
        forall k | 0 <= k <= 4 ensures Safe(x, false, Run(pf, s, b[..k])) {
          StageStep(pf, x, s, n, c, k);
        }
        StageStep(pf, x, s, n, c, 4);
        assert b[..4] == b;
    }
  }

  lemma {:induction false} StageSteps(pf: Platform, x: Batch, s: State, n: nat)
    requires Proper(x) && pf.dirFsync && n <= |x.journal.changes| && Staged(x, s, 0)
    ensures Guards(pf, x, false, s, Stage(s, x.journal, n))
    ensures Staged(x, Run(pf, s, Stage(s, x.journal, n)), n)
  {
    hide Exec, WellFormed, AllUndoable, AllAfter, StageOne, Safe, Guards;
    if n > 0 {
      StageSteps(pf, x, s, n - 1);
      var a, b := Stage(s, x.journal, n - 1), StageOne(s, x.journal, n - 1);
      StageOneSettles(pf, x, s, Run(pf, s, a), n - 1);
      GuardsAppend(pf, x, false, s, a, b);
    } else {
      NothingGuards(pf, x, s);
    }
  }

  lemma NothingGuards(pf: Platform, x: Batch, s: State)
    requires Safe(x, false, s)
    ensures Guards(pf, x, false, s, []) && Run(pf, s, []) == s
  {
  }

  lemma WriteLength(p: Path, c: Content)
    ensures |DurableWrite(p, c)| == 4
  {
  }

  /** The first `n` files are published, the others are as before, and the old contents are staged. */
  ghost predicate Published(x: Batch, s: State, n: nat)
    requires Describes(x.journal, x.before, x.after)
  {
    && Startable(x, s) && Anchored(x, s)
    && (forall i | 0 <= i < |x.journal.changes| ::
          var p := x.journal.changes[i].path;
          At(s, p) == Settled(if i < n then x.after[p] else x.before[p]))
    && (forall i | 0 <= i < |x.journal.changes| :: SidecarOk(x, s, i))
  }

  lemma StagedIsPublished(x: Batch, s: State)
    requires Proper(x) && Staged(x, s, |x.journal.changes|)
    ensures Published(x, s, 0)
  {
    hide WellFormed, AllUndoable, AllAfter, JournalOk, DirOk, Undoable;
    SafeIsStartable(x, s);
    forall i | 0 <= i < |x.journal.changes|
      ensures At(s, x.journal.changes[i].path) == Settled(x.before[x.journal.changes[i].path])
    {
      assert x.journal.changes[i].path in Wanted(x, false);
    }
  }

  lemma PublishStep(pf: Platform, x: Batch, s: State, n: nat, k: nat)
    requires Proper(x) && pf.dirFsync && n < |x.journal.changes| && Published(x, s, n)
    requires k <= |Publish(x.journal.changes[n].path, x.after[x.journal.changes[n].path])|
    ensures var p := x.journal.changes[n].path;
            var s' := Run(pf, s, Publish(p, x.after[p])[..k]);
            && Startable(x, s') && (k == |Publish(p, x.after[p])| ==> Published(x, s', n + 1))
  {
    hide Run, WellFormed, AllUndoable, AllAfter, Safe, Publish;
    var p := x.journal.changes[n].path;
    var s' := Run(pf, s, Publish(p, x.after[p])[..k]);
    var side := Sidecar(x.journal.id, Before, n);
    PublishSteps(pf, s, p, x.after[p], k, p) by { TmpIsAnother(p); }
    PublishTouchesOneFile(pf, x, s, p, x.after[p], k);
    assert Owner(side) == Some(x.journal.id);
    assert SidecarOk(x, s, n);
    assert ItemOk(x, s', n);
    SafeMidFile(x, s, s', n);
    if k == |Publish(p, x.after[p])| {
      PublishedNext(x, s, s', n);
    }
  }

  lemma PublishedNext(x: Batch, s: State, s': State, n: nat)
    requires Proper(x) && n < |x.journal.changes| && Published(x, s, n) && Startable(x, s')
    requires var p := x.journal.changes[n].path;
             OnlyFile(x, s, s', p) && At(s', p) == Settled(x.after[p])
    ensures Published(x, s', n + 1)
  {
    hide WellFormed, AllUndoable, AllAfter, Safe;
    forall i: nat | i < |x.journal.changes| ensures SidecarOk(x, s', i) {
      assert SidecarOk(x, s, i);
      assert Owner(Sidecar(x.journal.id, Before, i)) == Some(x.journal.id);
    }
    forall i: nat | i < |x.journal.changes|
      ensures At(s', x.journal.changes[i].path)
           == Settled(if i < n + 1 then x.after[x.journal.changes[i].path] else x.before[x.journal.changes[i].path])
    {
      if i != n {
        assert x.journal.changes[i].path != x.journal.changes[n].path;
      }
    }
    assert Owner(JournalFile(x.journal.id)) == Some(x.journal.id);
  }

  lemma PublishOneSettles(pf: Platform, x: Batch, s: State, n: nat)
    requires Proper(x) && pf.dirFsync && n < |x.journal.changes| && Published(x, s, n)
    ensures var b := Publish(x.journal.changes[n].path, x.after[x.journal.changes[n].path]);
            Guards(pf, x, false, s, b) && Published(x, Run(pf, s, b), n + 1)
  {
    hide Exec, WellFormed, AllUndoable, AllAfter, Safe, Publish, Published;
    var p := x.journal.changes[n].path;
    var b := Publish(p, x.after[p]);
    forall k | 0 <= k <= |b| ensures Safe(x, false, Run(pf, s, b[..k])) {
      PublishStep(pf, x, s, n, k);
    }
    PublishStep(pf, x, s, n, |b|);
    assert b[..|b|] == b;
  }

  lemma {:induction false} PublishAllSteps(pf: Platform, x: Batch, s: State, n: nat)
    requires Proper(x) && pf.dirFsync && n <= |x.journal.changes| && Published(x, s, 0)
    ensures Guards(pf, x, false, s, PublishAll(x.journal, x.after, n))
    ensures Published(x, Run(pf, s, PublishAll(x.journal, x.after, n)), n)
  {
    hide Exec, WellFormed, AllUndoable, AllAfter, Safe, Publish, Guards, Published;
    if n > 0 {
      PublishAllSteps(pf, x, s, n - 1);
      var a := PublishAll(x.journal, x.after, n - 1);
      var p := x.journal.changes[n - 1].path;
      PublishOneSettles(pf, x, Run(pf, s, a), n - 1);
      GuardsAppend(pf, x, false, s, a, Publish(p, x.after[p]));
    } else {
      assert Safe(x, false, s) by { PublishedIsSafe(x, s); }
      NothingGuards(pf, x, s);
    }
  }

  lemma PublishedIsSafe(x: Batch, s: State)
    requires Proper(x) && Published(x, s, 0)
    ensures Safe(x, false, s)
  {
    hide Safe;
  }

  /** The apply step of the kind: stage every old content, then publish every new one. */
  function Apply(s: State, j: Journal, after: map<Path, Option<Content>>): seq<Op>
    requires forall i | 0 <= i < |j.changes| :: j.changes[i].path in after
  {
    Stage(s, j, |j.changes|) + PublishAll(j, after, |j.changes|)
  }

  lemma PublishedIsReady(x: Batch, s: State)
    requires Applies(x) && Published(x, s, |x.journal.changes|)
    ensures x.redo(s) && x.undo(s) && Anchored(x, s) && Done(x, true, s)
  {
    hide WellFormed, AllUndoable, Safe;
    AppliesIsProper(x);
    forall p | p in x.after ensures At(s, p) == Settled(x.after[p]) {
      SameKeys(x);
      if !Untouched(x.journal, p) {
        var i :| 0 <= i < |x.journal.changes| && x.journal.changes[i].path == p;
      } else {
        UndoRest(x, s);
      }
    }
    assert AllAfter(x.after, s);
    RedoIsDone(x, s);
  }

  lemma ApplyPrepares(pf: Platform, x: Batch, s: State)
    requires pf.dirFsync && Applies(x) && Safe(x, false, s) && Done(x, false, s) && Anchored(x, s)
    ensures Prepares(pf, x, s, Apply(s, x.journal, x.after))
  {
    hide Exec, WellFormed, AllUndoable, AllAfter, Safe, Stage, PublishAll, Applies;
    AppliesIsProper(x);
    var n := |x.journal.changes|;
    var a, b := Stage(s, x.journal, n), PublishAll(x.journal, x.after, n);
    StageSteps(pf, x, s, n);
    StagedIsPublished(x, Run(pf, s, a));
    PublishAllSteps(pf, x, Run(pf, s, a), n);
    GuardsAppend(pf, x, false, s, a, b);
    PublishedIsReady(x, Run(pf, s, a + b));
  }

  // ------------------------------------------------------------------ finalize

  lemma AdvanceIsSafe(pf: Platform, x: Batch, s: State, phase: string)
    requires Proper(x) && phase in x.handler.phases && Committed(x.handler, phase)
    requires Safe(x, true, s) && Done(x, true, s)
    ensures Settles(pf, x, true, s, WriteJournal(x.journal.(phase := phase)))
  {
    hide Exec, Run, DurableWrite, Fence, AllUndoable, Describes, Committed;
    var j := x.journal.(phase := phase);
    var ops := WriteJournal(j);
    BatchIsStable(x, true);
    WriteIsFour(j);
    forall k | 0 <= k <= 4 ensures Safe(x, true, Run(pf, s, ops[..k])) && Done(x, true, Run(pf, s, ops[..k])) {
      JournalWriteNarrows(pf, x, true, s, j, k);
      JournalWriteStep(pf, x, s, j, k, JournalFile(j.id));
      JournalWriteStep(pf, x, s, j, k, TxnDir(j.id));
    }
    assert ops[..4] == ops;
  }

  lemma PhaseOrder(x: Batch, i: nat)
    requires Vocabulary(x.handler.phases) && i < |x.handler.phases|
    ensures IndexOf(x.handler.phases, x.handler.phases[i]) == i
    ensures Committed(x.handler, x.handler.phases[i]) <==> i >= IndexOf(x.handler.phases, x.handler.commitPhase)
  {
    var n := IndexOf(x.handler.phases, x.handler.phases[i]);
    assert x.handler.phases[n] == x.handler.phases[i];
  }

  lemma RedoIsDone(x: Batch, s: State)
    requires Proper(x)
    ensures x.redo(s) <==> Done(x, true, s)
  {
  }

  lemma {:induction false} AdvanceFromSettles(pf: Platform, x: Batch, s: State, i: nat)
    requires Proper(x) && Vocabulary(x.handler.phases) && Safe(x, true, s) && Done(x, true, s)
    requires i > IndexOf(x.handler.phases, x.handler.commitPhase)
    ensures Settles(pf, x, true, s, AdvanceFrom(x.handler.phases, x.journal, i))
    decreases |x.handler.phases| - i
  {
    hide Exec, Fence, AllUndoable, WriteJournal, Describes, Committed, Safe, Done, Proper;
    if i >= |x.handler.phases| {
      CleanupKeepsSafe(pf, x, true, s, []) by { ProperIsWellFormed(x); }
    } else {
      var a := Advance(x.journal, x.handler.phases[i]);
      PhaseOrder(x, i);
      AdvanceIsSafe(pf, x, s, x.handler.phases[i]);
      assert a[..|a|] == a;
      AdvanceFromSettles(pf, x, Run(pf, s, a), i + 1);
      GuardsAppend(pf, x, true, s, a, AdvanceFrom(x.handler.phases, x.journal, i + 1));
    }
  }

  lemma ProperIsWellFormed(x: Batch)
    requires Proper(x)
    ensures WellFormed(x)
  {
  }

  lemma {:induction false} AdvanceIgnoresPhase(phases: seq<string>, j: Journal, phase: string, i: nat)
    ensures AdvanceFrom(phases, j.(phase := phase), i) == AdvanceFrom(phases, j, i)
    decreases |phases| - i
  {
    if i < |phases| {
      AdvanceIgnoresPhase(phases, j, phase, i + 1);
    }
  }

  lemma FinalizeSettles(pf: Platform, x: Batch, s: State)
    requires Proper(x) && Vocabulary(x.handler.phases) && Safe(x, true, s)
    requires CurrentJournal(x, s).Some? && !Terminal(x.handler, CurrentJournal(x, s).value.phase)
    ensures Settles(pf, x, true, s, Finalize(x.handler.phases, CurrentJournal(x, s).value))
  {
    hide Exec, Run, DurableWrite, Fence, AllUndoable, WriteJournal, Describes;
    var j := CurrentJournal(x, s).value;
    assert Done(x, true, s) by { RedoIsDone(x, s); }
    assert Recorded(x, true, JournalText(j)) by {
      assert ImageOf(At(s, JournalFile(x.journal.id)).now) in At(s, JournalFile(x.journal.id)).images;
    }
    AdvanceIgnoresPhase(x.handler.phases, x.journal, j.phase, IndexOf(x.handler.phases, j.phase) + 1);
    AdvanceFromSettles(pf, x, s, IndexOf(x.handler.phases, j.phase) + 1);
  }

  // ----------------------------------------------- finalize, out of a window

  /** The first three primitives of a journal write out of an undecided state: still undecided, and only the
      third changes what is seen. */
  lemma AdvanceStaysUndecided(pf: Platform, x: Batch, s: State, i: nat, k: nat)
    requires Proper(x) && Undecided(x, s) && i < |x.handler.phases| && Committed(x.handler, x.handler.phases[i])
    requires k < 4
    ensures var t := Run(pf, s, WriteJournal(x.journal.(phase := x.handler.phases[i]))[..k]);
            && Undecided(x, t)
            && CurrentJournal(x, t) == if k < 3 then CurrentJournal(x, s)
                                       else Some(x.journal.(phase := x.handler.phases[i]))
  {
    hide Exec, Run, DurableWrite, Fence, AllUndoable, Describes, Committed;
    var j := x.journal.(phase := x.handler.phases[i]);
    WriteIsFour(j);
    BatchIsStable(x, false);
    BatchIsStable(x, true);
    RedoIsDone(x, s);
    JournalWriteNarrows(pf, x, false, s, j, k);
    JournalWriteNarrows(pf, x, true, s, j, k);
    JournalWriteStep(pf, x, s, j, k, JournalFile(j.id));
    JournalWriteStep(pf, x, s, j, k, TxnDir(j.id));
  }

  lemma AdvanceDecides(pf: Platform, x: Batch, s: State, i: nat)
    requires Proper(x) && pf.dirFsync && Undecided(x, s)
    requires i < |x.handler.phases| && Committed(x.handler, x.handler.phases[i])
    ensures var t := Run(pf, s, WriteJournal(x.journal.(phase := x.handler.phases[i])));
            Safe(x, true, t) && Done(x, true, t)
  {
    hide Exec, Run, DurableWrite, Fence, AllUndoable, Describes, Committed;
    var j := x.journal.(phase := x.handler.phases[i]);
    WriteIsFour(j);
    BatchIsStable(x, true);
    RedoIsDone(x, s);
    assert WriteJournal(j)[..4] == WriteJournal(j);
    JournalWriteNarrows(pf, x, true, s, j, 4);
    JournalWriteStep(pf, x, s, j, 4, JournalFile(j.id));
    JournalWriteStep(pf, x, s, j, 4, TxnDir(j.id));
  }

  lemma AdvanceRoams(pf: Platform, x: Batch, s: State, i: nat)
    requires Proper(x) && Vocabulary(x.handler.phases) && pf.dirFsync && Undecided(x, s)
    requires i < |x.handler.phases| && Committed(x.handler, x.handler.phases[i]) && Position(x, s) + 1 == i
    ensures Roams(pf, x, s, WriteJournal(x.journal.(phase := x.handler.phases[i])), i)
  {
    hide Exec, Run, DurableWrite, Fence, AllUndoable, Describes, Committed, Undecided, Safe, Proper;
    var ops := WriteJournal(x.journal.(phase := x.handler.phases[i]));
    WriteIsFour(x.journal.(phase := x.handler.phases[i]));
    PhaseOrder(x, i);
    AdvanceDecides(pf, x, s, i);
    assert ops[..4] == ops;
    forall k | 0 <= k <= |ops| ensures Between(x, Run(pf, s, ops[..k]), i) {
      if k < 4 {
        AdvanceStaysUndecided(pf, x, s, i, k);
      }
    }
  }

  /** Nothing is removed before the journal is flushed, so the kind also survives a kill in a journal window. */
  lemma BatchFlushesFirst(pf: Platform, x: Batch)
    requires pf.dirFsync && Applies(x)
    ensures FlushesFirst(pf, x)
  {
    AppliesIsProper(x);
    assert x.handler.finalize == BatchHandler(x.handler.phases, x.handler.commitPhase).finalize;
    hide Proper, Undecided, Escapes, WellFormed, Applies, Finalize;
    forall s: State
      | Undecided(x, s) && CurrentJournal(x, s).Some? && !Terminal(x.handler, CurrentJournal(x, s).value.phase)
      ensures Escapes(pf, x, s, x.handler.finalize(s, CurrentJournal(x, s).value))
    {
      FinalizeEscapes(pf, x, s);
    }
  }

  lemma FinalizeEscapes(pf: Platform, x: Batch, s: State)
    requires Proper(x) && Vocabulary(x.handler.phases) && pf.dirFsync && Undecided(x, s)
    requires CurrentJournal(x, s).Some? && !Terminal(x.handler, CurrentJournal(x, s).value.phase)
    ensures Escapes(pf, x, s, Finalize(x.handler.phases, CurrentJournal(x, s).value))
  {
    hide Exec, Run, DurableWrite, Fence, AllUndoable, WriteJournal, Describes, Safe, Done, Between;
    var j := CurrentJournal(x, s).value;
    var p := x.handler.phases;
    var i := Position(x, s) + 1;
    UndecidedPhase(x, s);
    PhaseOrder(x, i);
    AdvanceIgnoresPhase(p, x.journal, j.phase, i);
    var a, b := Advance(x.journal, p[i]), AdvanceFrom(p, x.journal, i + 1);
    AdvanceRoams(pf, x, s, i);
    AdvanceDecides(pf, x, s, i);
    AdvanceFromSettles(pf, x, Run(pf, s, a), i + 1);
    GuardsRoams(pf, x, Run(pf, s, a), b, i);
    assert b[..|b|] == b;
    RoamsAppend(pf, x, s, a, b, i);
  }

  lemma UndecidedPhase(x: Batch, s: State)
    requires Proper(x) && Vocabulary(x.handler.phases) && Undecided(x, s)
    requires CurrentJournal(x, s).Some? && !Terminal(x.handler, CurrentJournal(x, s).value.phase)
    ensures 0 <= Position(x, s) < |x.handler.phases| - 1
    ensures Position(x, s) >= IndexOf(x.handler.phases, x.handler.commitPhase)
  {
    hide Fence, AllUndoable, Describes;
  }

  /** The batch kind meets the contract of the engine, so every result about contracts applies to it. */
  lemma BatchMeetsContract(pf: Platform, x: Batch)
    requires pf.dirFsync && Applies(x)
    ensures Contract(pf, x)
  {
    AppliesIsProper(x);
    assert x.handler.rollback == Rollback
        && x.handler.finalize == BatchHandler(x.handler.phases, x.handler.commitPhase).finalize;
    hide Safe, Settles, WellFormed, Restore, Finalize, Stable, Applies, Proper, Rollback;
    BatchIsStable(x, false);
    BatchIsStable(x, true);
    forall s: State | Safe(x, false, s) && CurrentJournal(x, s).Some?
      ensures Settles(pf, x, false, s, x.handler.rollback(s, CurrentJournal(x, s).value))
    {
      RollbackSettles(pf, x, s);
    }
    forall s: State
      | Safe(x, true, s) && CurrentJournal(x, s).Some? && !Terminal(x.handler, CurrentJournal(x, s).value.phase)
      ensures Settles(pf, x, true, s, x.handler.finalize(s, CurrentJournal(x, s).value))
    {
      FinalizeSettles(pf, x, s);
    }
  }

  lemma RollbackSettles(pf: Platform, x: Batch, s: State)
    requires pf.dirFsync && Proper(x) && Safe(x, false, s) && CurrentJournal(x, s).Some?
    ensures Settles(pf, x, false, s, Rollback(s, CurrentJournal(x, s).value))
  {
    hide Exec, Run, WellFormed;
    var j := CurrentJournal(x, s).value;
    assert Recorded(x, false, JournalText(j)) by {
      assert ImageOf(At(s, JournalFile(x.journal.id)).now) in At(s, JournalFile(x.journal.id)).images;
    }
    RestoreIgnoresPhase(s, x.journal, j.phase, |j.changes|);
    SafeIsStartable(x, s);
    RollbackSteps(pf, x, s, |j.changes|);
    DoneByParts(x, s, Run(pf, s, Restore(s, x.journal, |j.changes|)), |j.changes|);
  }

  lemma RestoreIgnoresPhase(s: State, j: Journal, phase: string, n: nat)
    requires n <= |j.changes|
    ensures Restore(s, j.(phase := phase), n) == Restore(s, j, n)
  {
  }
}
