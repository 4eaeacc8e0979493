/**
 * Kills between a journal rename and its flush. The process sees the new phase, the disk may still come back
 * with an old one, and the recovery that follows already acts on the new one.
 */
module FsTxnWindow {
  import opened Options
  import opened Disk
  import opened FsTxn
  import opened FsTxnSafety
  import opened FsTxnRuns

  // ------------------------------------------------- what a handler must do

  /** An ordered vocabulary names each phase once. */
  predicate Vocabulary(phases: seq<string>) {
    forall i, k | 0 <= i < k < |phases| :: phases[i] != phases[k]
  }

  /** Where in its vocabulary the journal that the process sees stands. */
  function Position(x: Batch, s: State): int {
    match CurrentJournal(x, s)
    case Some(j) => IndexOf(x.handler.phases, j.phase)
    case None => -1
  }

  /** Committed for good, or still undecided at a phase no later than `bound`. */
  ghost predicate Between(x: Batch, s: State, bound: int) {
    Safe(x, true, s) || (Undecided(x, s) && Position(x, s) <= bound)
  }

  ghost predicate Roams(pf: Platform, x: Batch, s: State, ops: seq<Op>, bound: int) {
    forall k | 0 <= k <= |ops| :: Between(x, Run(pf, s, ops[..k]), bound)
  }

  /** Out of an undecided state the script reaches the final files by way of a flushed journal, one phase
      further at most before that flush, with both directions open until then. */
  ghost predicate Escapes(pf: Platform, x: Batch, s: State, ops: seq<Op>) {
    Roams(pf, x, s, ops, Position(x, s) + 1) && Safe(x, true, Run(pf, s, ops)) && Done(x, true, Run(pf, s, ops))
  }

  /** The one thing more that a kill in such a window asks of finalize: flush the journal before anything. */
  ghost predicate FlushesFirst(pf: Platform, x: Batch) {
    && Vocabulary(x.handler.phases)
    && forall s: State ::
         Undecided(x, s) && CurrentJournal(x, s).Some? && !Terminal(x.handler, CurrentJournal(x, s).value.phase) ==>
           Escapes(pf, x, s, x.handler.finalize(s, CurrentJournal(x, s).value))
  }

  // --------------------------------------------------------------- composition

  lemma RoamsAppend(pf: Platform, x: Batch, s: State, a: seq<Op>, b: seq<Op>, bound: int)
    requires Roams(pf, x, s, a, bound)
    requires Roams(pf, x, Run(pf, s, a), b, bound)
    ensures Roams(pf, x, s, a + b, bound)
    ensures Run(pf, s, a + b) == Run(pf, Run(pf, s, a), b)
  {
    hide Between, Exec;
    RunAppend(pf, s, a, b);
    forall k | 0 <= k <= |a + b| ensures Between(x, Run(pf, s, (a + b)[..k]), bound) {
      if k <= |a| {
        assert (a + b)[..k] == a[..k];
      } else {
        assert (a + b)[..k] == a + b[..k - |a|];
        RunAppend(pf, s, a, b[..k - |a|]);
      }
    }
  }

  lemma GuardsRoams(pf: Platform, x: Batch, s: State, ops: seq<Op>, bound: int)
    requires Guards(pf, x, true, s, ops)
    ensures Roams(pf, x, s, ops, bound)
  {
    hide Safe, Undecided, Position;
  }

  // ------------------------------------------------------------- other entries

  lemma UndecidedForeignStep(pf: Platform, x: Batch, s: State, op: Op)
    requires WellFormed(x) && Stable(x, false) && Stable(x, true) && Undecided(x, s)
    requires forall p | Owns(x, p) :: !Writes(op, p)
    ensures Undecided(x, Exec(pf, s, op)) && CurrentJournal(x, Exec(pf, s, op)) == CurrentJournal(x, s)
  {
    hide Exec, Fence, Committed, Writes;
    var s' := Exec(pf, s, op);
    forall p | Owns(x, p) ensures At(s', p) == At(s, p) || At(s', p) == Settle(At(s, p)) {
      Untouched(pf, s, op, p);
    }
    assert Owns(x, JournalFile(x.journal.id)) && Owns(x, TxnDir(x.journal.id));
    forall p | Consults(x, p) ensures Narrows(At(s, p), At(s', p)) {
      assert Owns(x, p);
    }
    assert Midway(x, false, s) && Midway(x, true, s);
    assert Midway(x, false, s') && Midway(x, true, s');
    if Done(x, true, s) {
      forall p | p in Wanted(x, true) ensures At(s', p) == Settled(Wanted(x, true)[p]) {
        assert Owns(x, p);
      }
    }
  }

  lemma {:induction false} UndecidedForeign(pf: Platform, x: Batch, s: State, ops: seq<Op>)
    requires WellFormed(x) && Stable(x, false) && Stable(x, true) && Undecided(x, s) && Foreign(x, ops)
    ensures Roams(pf, x, s, ops, Position(x, s))
    ensures Undecided(x, Run(pf, s, ops)) && CurrentJournal(x, Run(pf, s, ops)) == CurrentJournal(x, s)
    decreases |ops|
  {
    hide Safe, Undecided, Exec, CurrentJournal;
    assert ops[..|ops|] == ops;
    if ops != [] {
      var n := |ops| - 1;
      UndecidedForeign(pf, x, s, ops[..n]);
      forall k | 0 <= k <= n ensures ops[..n][..k] == ops[..k] {
      }
      assert ops[..n][..n] == ops[..n] && ops[n] in ops;
      UndecidedForeignStep(pf, x, Run(pf, s, ops[..n]), ops[n]);
    }
  }

  // ------------------------------------------------------------------ recovery

  /** What a scan does with the entry of an undecided transaction: it finalizes, and then cleans up. */
  lemma UndecidedEntry(pf: Platform, x: Batch, kinds: Registry, scan: Scan, s: State, pass: Pass)
    returns (j: Journal)
    requires WellFormed(x) && Seeks(x, kinds, scan) && Undecided(x, s)
    requires CurrentJournal(x, s).Some? ==> !Terminal(x.handler, CurrentJournal(x, s).value.phase)
    ensures CurrentJournal(x, s) == Some(j)
    ensures Recover(kinds, scan, s, x.journal.id, pass.stale, pass.removal)
         == Ok(Visit(x.handler.finalize(s, j) + RemoveTree(x.journal.id, pass.removal), Some(j)))
  {
    hide Fence, Exec;
    j := At(s, JournalFile(x.journal.id)).now.value.content.journal;
    assert j == x.journal.(phase := j.phase) && j.phase in x.handler.phases;
    assert At(s, TxnDir(x.journal.id)).now.Some?;
  }

  /** A complete scan from an undecided state that is not at its terminal phase ends with the files final, and
      until the journal is flushed both directions stay open. */
  lemma UndecidedPass(pf: Platform, x: Batch, kinds: Registry, scan: Scan, s: State, pass: Pass)
    requires WellFormed(x) && Contract(pf, x) && FlushesFirst(pf, x) && Seeks(x, kinds, scan)
    requires Undecided(x, s) && Orderly(x, pass)
    requires CurrentJournal(x, s).Some? ==> !Terminal(x.handler, CurrentJournal(x, s).value.phase)
    ensures PassOps(pf, x, kinds, scan, s, pass).Some?
    ensures Escapes(pf, x, s, PassOps(pf, x, kinds, scan, s, pass).value)
  {
    hide Safe, Undecided, Done, Exec, Fence, Stable, Recover, Between, Seeks;
    var s1 := Run(pf, s, pass.earlier);
    UndecidedForeign(pf, x, s, pass.earlier);
    WiderRoams(pf, x, s, pass.earlier, Position(x, s), Position(x, s) + 1);
    var j := UndecidedEntry(pf, x, kinds, scan, s1, pass);
    var a, b := x.handler.finalize(s1, j), RemoveTree(x.journal.id, pass.removal);
    assert Escapes(pf, x, s1, a);
    var s2 := Run(pf, s1, a);
    CleanupSteps(x, pass.removal);
    CleanupKeepsSafe(pf, x, true, s2, b);
    GuardsRoams(pf, x, s2, b, Position(x, s) + 1);
    assert b[..|b|] == b;
    var s3 := Run(pf, s2, b);
    ForeignKeepsSafe(pf, x, true, s3, pass.later);
    GuardsRoams(pf, x, s3, pass.later, Position(x, s) + 1);
    assert pass.later[..|pass.later|] == pass.later;
    RoamsAppend(pf, x, s1, a, b, Position(x, s) + 1);
    RoamsAppend(pf, x, s1, a + b, pass.later, Position(x, s) + 1);
    RoamsAppend(pf, x, s, pass.earlier, a + b + pass.later, Position(x, s) + 1);
  }

  lemma WiderRoams(pf: Platform, x: Batch, s: State, ops: seq<Op>, narrow: int, wide: int)
    requires Roams(pf, x, s, ops, narrow) && narrow <= wide
    ensures Roams(pf, x, s, ops, wide)
  {
    hide Safe, Undecided, Position;
  }

  // ------------------------------------------------------------------- chains

  /** The attempt was killed with its journal at another phase than it found, and that phase not yet flushed. */
  ghost predicate Slips(x: Batch, s: State, a: Attempt) {
    !a.power && Undecided(x, a.next) && CurrentJournal(x, a.next) != CurrentJournal(x, s)
  }

  ghost function SlipCount(x: Batch, s: State, attempts: seq<Attempt>): nat
    decreases |attempts|
  {
    if attempts == [] then 0
    else (if Slips(x, s, attempts[0]) then 1 else 0) + SlipCount(x, attempts[0].next, attempts[1..])
  }

  /** Decided, or undecided with a phase still to go. */
  ghost predicate Recoverable(x: Batch, s: State) {
    Safe(x, false, s) || Safe(x, true, s) || (Undecided(x, s) && Position(x, s) < |x.handler.phases| - 1)
  }

  lemma NotTerminal(x: Batch, s: State)
    requires Vocabulary(x.handler.phases) && Position(x, s) < |x.handler.phases| - 1
    requires CurrentJournal(x, s).Some? && CurrentJournal(x, s).value.phase in x.handler.phases
    ensures !Terminal(x.handler, CurrentJournal(x, s).value.phase)
  {
  }

  lemma UndecidedHasJournal(x: Batch, s: State)
    requires Undecided(x, s)
    ensures CurrentJournal(x, s).Some? && CurrentJournal(x, s).value.phase in x.handler.phases
  {
  }

  /** One interrupted scan out of an undecided state: decided, or one phase further and one slip more. */
  lemma OneAttempt(pf: Platform, x: Batch, kinds: Registry, scan: Scan, s: State, a: Attempt)
    requires WellFormed(x) && Contract(pf, x) && FlushesFirst(pf, x) && Seeks(x, kinds, scan) && Orderly(x, a.pass)
    requires Undecided(x, s) && Position(x, s) < |x.handler.phases| - 1
    requires var ops := PassOps(pf, x, kinds, scan, s, a.pass);
             && (ops.Some? ==> a.steps <= |ops.value| && Interrupted(a.power, Run(pf, s, ops.value[..a.steps]), a.next))
             && (ops.None? ==> a.next == s)
    ensures || Safe(x, false, a.next) || Safe(x, true, a.next)
            || (&& Undecided(x, a.next)
                && Position(x, a.next) <= Position(x, s) + (if Slips(x, s, a) then 1 else 0))
  {
    hide Safe, Undecided, Done, Exec, Fence, Stable, PassOps, Contract, Seeks, FlushesFirst, Vocabulary, Crash;
    UndecidedHasJournal(x, s);
    assert Vocabulary(x.handler.phases) && Stable(x, false) && Stable(x, true) by { ContractParts(pf, x); }
    NotTerminal(x, s);
    UndecidedPass(pf, x, kinds, scan, s, a.pass);
    var ops := PassOps(pf, x, kinds, scan, s, a.pass).value;
    var t := Run(pf, s, ops[..a.steps]);
    assert Between(x, t, Position(x, s) + 1);
    if a.power {
      if Safe(x, true, t) {
        CrashKeepsSafe(x, true, t, a.next);
      } else {
        CrashDecides(x, t, a.next);
      }
    }
  }

  lemma ContractParts(pf: Platform, x: Batch)
    requires Contract(pf, x)
    ensures Stable(x, false) && Stable(x, true)
    ensures FlushesFirst(pf, x) ==> Vocabulary(x.handler.phases)
  {
    hide Stable, Settles, Escapes;
  }

  /** Fewer slips than phases to go: the transaction stays recoverable. */
  lemma {:induction false} AttemptsStayRecoverable(
    pf: Platform, x: Batch, kinds: Registry, scan: Scan, s: State, attempts: seq<Attempt>, end: State)
    requires WellFormed(x) && Contract(pf, x) && FlushesFirst(pf, x) && Seeks(x, kinds, scan)
    requires Undecided(x, s) && Position(x, s) + SlipCount(x, s, attempts) < |x.handler.phases| - 1
    requires Attempts(pf, x, kinds, scan, s, attempts, end)
    ensures Recoverable(x, end)
    decreases |attempts|
  {
    hide Safe, Undecided, Done, Exec, Run, Fence, Stable, PassOps, Contract, Seeks, FlushesFirst, Crash, Position;
    hide Slips;
    if attempts != [] {
      var a := attempts[0];
      OneAttempt(pf, x, kinds, scan, s, a);
      if Safe(x, false, a.next) {
        AttemptsStaySafe(pf, x, false, kinds, scan, a.next, attempts[1..], end);
      } else if Safe(x, true, a.next) {
        AttemptsStaySafe(pf, x, true, kinds, scan, a.next, attempts[1..], end);
      } else {
        AttemptsStayRecoverable(pf, x, kinds, scan, a.next, attempts[1..], end);
      }
    }
  }

  /** A complete scan from a recoverable state ends with all files before or all files after. */
  lemma LastPassIsFinal(pf: Platform, x: Batch, kinds: Registry, scan: Scan, s: State, pass: Pass)
    requires WellFormed(x) && Contract(pf, x) && Seeks(x, kinds, scan) && Orderly(x, pass)
    requires Recoverable(x, s)
    requires Safe(x, false, s) || Safe(x, true, s) || FlushesFirst(pf, x)
    ensures PassOps(pf, x, kinds, scan, s, pass).Some?
    ensures var end := Run(pf, s, PassOps(pf, x, kinds, scan, s, pass).value);
            && (Safe(x, false, s) ==> Done(x, false, end))
            && (Safe(x, true, s) ==> Done(x, true, end))
            && (Undecided(x, s) && !Safe(x, false, s) && !Safe(x, true, s) ==> Done(x, true, end))
  {
    hide Safe, Undecided, Done, Exec, Run, Fence, Stable, PassOps, Contract, Seeks, FlushesFirst, Guards;
    hide Roams, Vocabulary;
    if Safe(x, false, s) {
      PassSettles(pf, x, false, kinds, scan, s, pass);
    }
    if Safe(x, true, s) {
      PassSettles(pf, x, true, kinds, scan, s, pass);
    }
    if !Safe(x, false, s) && !Safe(x, true, s) {
      UndecidedHasJournal(x, s);
      ContractParts(pf, x);
      NotTerminal(x, s);
      UndecidedPass(pf, x, kinds, scan, s, pass);
    }
  }
}
