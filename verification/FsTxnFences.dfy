/**
 * What a recovery scan refuses and what it takes on, stated of the journals on disk: the safety fences of
 * src/core/fs-txn.ts and the decision behind them.
 */
module FsTxnFences {
  import opened Options
  import opened Disk
  import opened FsTxn

  /** The bytes of the journal file of an entry, if the directory and the file are there. */
  function Found(s: State, id: string): Option<Content> {
    if At(s, TxnDir(id)).now.None? || At(s, JournalFile(id)).now.None? then None
    else Some(At(s, JournalFile(id)).now.value.content)
  }

  predicate Readable(c: Content) {
    c.JournalText? && c.journal.version == 1
  }

  /** Inside the root, and not spelled as if it left it. */
  predicate Below(p: Path, root: string) {
    p.InRoot? && p.dir == root && p.name != "" && !(|p.name| >= 2 && p.name[0] == '.' && p.name[1] == '.')
  }

  /** What the engine and the kind ask of a journal before any of its handlers runs. */
  predicate Admissible(h: Handler, j: Journal, root: string) {
    && j.root == root
    && (exists i :: 0 <= i < |h.phases| && h.phases[i] == j.phase)
    && (forall i | 0 <= i < |j.changes| :: Below(j.changes[i].path, root))
    && h.validate(j)
  }

  /** A journal of a known kind that the scan asks for. */
  predicate Concerns(kinds: Registry, scan: Scan, c: Content) {
    Readable(c) && c.journal.kind in kinds && scan.wanted(c.journal)
  }

  predicate MustRefuse(kinds: Registry, scan: Scan, s: State, id: string) {
    && Found(s, id).Some?
    && var c := Found(s, id).value;
       !Readable(c) || (Concerns(kinds, scan, c) && !Admissible(kinds[c.journal.kind], c.journal, scan.root))
  }

  predicate MustResume(kinds: Registry, scan: Scan, s: State, id: string) {
    && Found(s, id).Some?
    && var c := Found(s, id).value;
       Concerns(kinds, scan, c) && Admissible(kinds[c.journal.kind], c.journal, scan.root)
  }

  lemma FenceIsAdmissible(h: Handler, j: Journal, id: string, root: string)
    ensures Fence(h, j, id, root).None? <==> Admissible(h, j, root)
  {
    forall p: Path ensures WithinRoot(p, root) <==> Below(p, root) {
    }
    assert j.phase in h.phases <==> exists i :: 0 <= i < |h.phases| && h.phases[i] == j.phase;
  }

  /** Before its commit phase. */
  predicate Early(h: Handler, j: Journal) {
    exists i, c ::
      && 0 <= i < c < |h.phases|
      && h.phases[i] == j.phase && j.phase !in h.phases[..i]
      && h.phases[c] == h.commitPhase && h.commitPhase !in h.phases[..c]
  }

  lemma EarlyIsUncommitted(h: Handler, j: Journal)
    requires j.phase in h.phases && h.commitPhase in h.phases
    ensures Early(h, j) <==> !Committed(h, j.phase)
  {
    var i, c := IndexOf(h.phases, j.phase), IndexOf(h.phases, h.commitPhase);
    if Early(h, j) {
      var i', c' :| 0 <= i' < c' < |h.phases| && h.phases[i'] == j.phase && j.phase !in h.phases[..i']
                    && h.phases[c'] == h.commitPhase && h.commitPhase !in h.phases[..c'];
      FirstIsUnique(h.phases, j.phase, i, i');
      FirstIsUnique(h.phases, h.commitPhase, c, c');
    }
  }

  lemma FirstIsUnique(phases: seq<string>, phase: string, i: nat, k: nat)
    requires i < |phases| && phases[i] == phase && phase !in phases[..i]
    requires k < |phases| && phases[k] == phase && phase !in phases[..k]
    ensures i == k
  {
    InPrefix(phases, i, k);
    InPrefix(phases, k, i);
  }

  lemma InPrefix(phases: seq<string>, i: nat, k: nat)
    requires i < |phases| && k < |phases|
    ensures i < k ==> phases[i] in phases[..k]
  {
    assert i < k ==> phases[..k][i] == phases[i];
  }

  /** The whole decision about one entry, by what is found there. */
  lemma EntryDecision(kinds: Registry, scan: Scan, s: State, id: string, stale: bool, removal: Removal)
    ensures var r := Recover(kinds, scan, s, id, stale, removal);
            && (r.Err? <==> MustRefuse(kinds, scan, s, id))
            && (r.Ok? ==> (r.value.recovered.Some? <==> MustResume(kinds, scan, s, id)))
            && (MustResume(kinds, scan, s, id) ==>
                  var j := Found(s, id).value.journal;
                  var h := kinds[j.kind];
                  && r.value.recovered == Some(j)
                  && (h.commitPhase in h.phases ==>
                        r.value.ops == (if Early(h, j) then h.rollback(s, j)
                                        else if j.phase == h.phases[|h.phases| - 1] then []
                                        else h.finalize(s, j)) + RemoveTree(id, removal)))
            && (!MustRefuse(kinds, scan, s, id) && !MustResume(kinds, scan, s, id) ==>
                  r == Ok(Visit(if Abandoned(kinds, s, id) && stale then RemoveTree(id, removal) else [], None)))
  {
    if Found(s, id).Some? && Concerns(kinds, scan, Found(s, id).value) {
      var j := Found(s, id).value.journal;
      var h := kinds[j.kind];
      FenceIsAdmissible(h, j, id, scan.root);
      if Admissible(h, j, scan.root) && h.commitPhase in h.phases {
        EarlyIsUncommitted(h, j);
      }
    }
  }

  lemma EntryRefusedIff(kinds: Registry, scan: Scan, s: State, id: string, stale: bool, removal: Removal)
    ensures Recover(kinds, scan, s, id, stale, removal).Err? <==> MustRefuse(kinds, scan, s, id)
    ensures Recover(kinds, scan, s, id, stale, removal).Ok? ==>
              (Recover(kinds, scan, s, id, stale, removal).value.recovered.Some? <==> MustResume(kinds, scan, s, id))
  {
    hide Recover, MustRefuse, MustResume;
    EntryDecision(kinds, scan, s, id, stale, removal);
  }

  /** What a refusal says: the first fence that the journal fails. */
  lemma RefusalNamesTheFence(kinds: Registry, scan: Scan, s: State, id: string, stale: bool, removal: Removal)
    requires MustRefuse(kinds, scan, s, id)
    ensures var e := Recover(kinds, scan, s, id, stale, removal).error; var c := Found(s, id).value;
            && (!c.JournalText? <==> e == Unreadable(id))
            && (c.JournalText? && c.journal.version != 1 <==> e == Unsafe(id))
            && (Readable(c) ==>
                  var j := c.journal;
                  && (j.root != scan.root <==> e == BoundElsewhere(id))
                  && (j.root == scan.root && j.phase !in kinds[j.kind].phases <==> e == UnknownPhase(j.phase))
                  && (e == OutsideRoot(id) ==> exists i :: 0 <= i < |j.changes| && !Below(j.changes[i].path, scan.root))
                  && (e == Refused(id) ==> !kinds[j.kind].validate(j))
                  && (e.BoundElsewhere? || e.UnknownPhase? || e.OutsideRoot? || e.Refused?))
  {
    forall p: Path ensures WithinRoot(p, scan.root) <==> Below(p, scan.root) {
    }
    if Readable(Found(s, id).value) {
      var j := Found(s, id).value.journal;
      FenceIsAdmissible(kinds[j.kind], j, id, scan.root);
    }
  }

  /** A directory without a journal, or with one of a kind that nobody registers. */
  predicate Abandoned(kinds: Registry, s: State, id: string) {
    && At(s, TxnDir(id)).now.Some?
    && (Found(s, id).None? || (Readable(Found(s, id).value) && Found(s, id).value.journal.kind !in kinds))
  }
}
