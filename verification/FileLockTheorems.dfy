/**
 * What the lock protocol guarantees over whole interleavings: exclusion, reclaims with one winner and no gap,
 * and releases that spare a successor.
 */
module FileLockTheorems {
  import opened Options
  import opened FileLock

  // -------------------------------------------------------------------- frames

  /** The handles of this process are what they were. */
  ghost predicate SameHandles(me: Pid, c: Core, d: Core) {
    && (forall f | Has(c, me, f) :: Has(d, me, f) && d.handles[f] == c.handles[f])
    && (forall f | Has(d, me, f) :: Has(c, me, f))
  }

  /** The other process is where it was, and outside the mutex no file was touched. */
  ghost predicate Framed(s: State, p: Pid, s': State, me: Pid) {
    && PcOf(s', me) == PcOf(s, me)
    && (me in s.core.alive ==> me in s'.core.alive) && s'.core.alive <= s.core.alive
    && SameHandles(me, s.core, s'.core)
    && (forall e :: Verdict(me, e) in s.core.verdicts <==> Verdict(me, e) in s'.core.verdicts)
    && (!InMutex(PcOf(s, p)) ==>
          && s'.core.files == s.core.files && s'.core.lock == s.core.lock
          && s'.core.handles == s.core.handles && s'.core.wins == s.core.wins)
  }

  lemma AcquireFrame(env: Env, s: State, p: Pid, act: Act, me: Pid)
    requires AcquireReady(env, s, p, act) && p != me && (act == Snapshot ==> s.core.lock.value !in s.core.handles)
    ensures Framed(s, p, PerformAcquire(env, s, p, act), me)
  {
    hide LockFits, Fits, LooksDead, NoFileFor;
  }

  lemma ProbeFrame(env: Env, s: State, p: Pid, act: Act, me: Pid)
    requires ProbeReady(env, s, p, act) && p != me
    ensures Framed(s, p, PerformProbe(env, s, p, act), me)
  {
    hide LockFits, Fits, LooksDead, NoFileFor, HandleFor;
  }

  lemma ReclaimFrame(env: Env, s: State, p: Pid, act: Act, me: Pid)
    requires ReclaimReady(env, s, p, act) && p != me
    ensures Framed(s, p, PerformReclaim(env, s, p, act), me)
  {
    hide LockFits, Fits, LooksDead, NoFileFor, HandleFor;
  }

  lemma ReleaseFrame(env: Env, s: State, p: Pid, act: Act, me: Pid)
    requires ReleaseReady(env, s, p, act) && p != me
    ensures Framed(s, p, PerformRelease(env, s, p, act), me)
  {
    hide LockFits, Fits, LooksDead, NoFileFor, HandleFor;
  }

  lemma PerformFrame(env: Env, s: State, p: Pid, act: Act, me: Pid)
    requires Inv(env, s) && p in s.core.alive && Ready(env, s, p, act) && p != me
    ensures Framed(s, p, Perform(env, s, p, act), me)
  {
    hide Inv;
    hide AcquireReady, ProbeReady, ReclaimReady, ReleaseReady;
    hide PerformAcquire, PerformProbe, PerformReclaim, PerformRelease, Framed;
    if AcquireReady(env, s, p, act) {
      SnapshotIsNew(env, s, p, act);
      AcquireFrame(env, s, p, act, me);
    } else if ProbeReady(env, s, p, act) {
      ProbeFrame(env, s, p, act, me);
    } else if ReclaimReady(env, s, p, act) {
      ReclaimFrame(env, s, p, act, me);
    } else {
      ReleaseFrame(env, s, p, act, me);
    }
  }

  lemma SnapshotIsNew(env: Env, s: State, p: Pid, act: Act)
    requires Inv(env, s) && p in s.core.alive && AcquireReady(env, s, p, act)
    ensures act == Snapshot ==> s.core.lock == Some(PcOf(s, p).file) && s.core.lock.value !in s.core.handles
  {
    InvPc(env, s, p);
  }

  /** Files, handles and verdicts are never forgotten, a released handle stays released, and a won file stays won
      by whoever won it. */
  ghost predicate Grows(s: State, s': State) {
    && (forall f | f in s.core.files :: f in s'.core.files)
    && (forall f | f in s.core.handles :: f in s'.core.handles && Ages(s.core.handles[f], s'.core.handles[f]))
    && s.core.verdicts <= s'.core.verdicts
    && (forall f | f in s.core.wins :: f in s'.core.wins && s'.core.wins[f] == s.core.wins[f])
    && s'.core.alive <= s.core.alive
  }

  /** All that ever happens to a handle is that it is released. */
  predicate Ages(h: Handle, h': Handle) {
    h' == h || h' == h.(released := true)
  }

  lemma AcquireGrows(env: Env, s: State, p: Pid, act: Act)
    requires AcquireReady(env, s, p, act) && (act == Snapshot ==> s.core.lock.value !in s.core.handles)
    ensures Grows(s, PerformAcquire(env, s, p, act))
  {
    hide LockFits, Fits, LooksDead, NoFileFor, HandleFor;
  }

  lemma ProbeGrows(env: Env, s: State, p: Pid, act: Act)
    requires ProbeReady(env, s, p, act)
    ensures Grows(s, PerformProbe(env, s, p, act))
  {
    hide LockFits, Fits, LooksDead, NoFileFor, HandleFor;
  }

  lemma ReclaimGrows(env: Env, s: State, p: Pid, act: Act)
    requires ReclaimReady(env, s, p, act)
    requires act == Drop ==> PcOf(s, p).file !in s.core.wins
    ensures Grows(s, PerformReclaim(env, s, p, act))
  {
    hide LockFits, Fits, LooksDead, NoFileFor, HandleFor;
  }

  lemma ReleaseGrows(env: Env, s: State, p: Pid, act: Act)
    requires ReleaseReady(env, s, p, act)
    ensures Grows(s, PerformRelease(env, s, p, act))
  {
    hide LockFits, Fits, LooksDead, NoFileFor, HandleFor;
  }

  lemma ForeignGrows(env: Env, s: State, m: Meddling)
    requires CanMeddle(env, s.core, m)
    ensures Grows(s, s.(core := Meddle(env, s.core, m)))
  {
  }

  lemma StepGrows(env: Env, s: State, a: Action)
    requires Inv(env, s) && Enabled(env, s, a)
    ensures Grows(s, Next(env, s, a))
  {
    hide AcquireReady, ProbeReady, ReclaimReady, ReleaseReady, Inv, Grows, CanMeddle, Meddle;
    hide PerformAcquire, PerformProbe, PerformReclaim, PerformRelease;
    match a {
      case By(p, act) =>
        if AcquireReady(env, s, p, act) {
          SnapshotIsNew(env, s, p, act);
          AcquireGrows(env, s, p, act);
        } else if ProbeReady(env, s, p, act) {
          ProbeGrows(env, s, p, act);
        } else if ReclaimReady(env, s, p, act) {
          assert act == Drop ==> PcOf(s, p).file !in s.core.wins by { DroppedIsNew(env, s, p, act); }
          ReclaimGrows(env, s, p, act);
        } else {
          ReleaseGrows(env, s, p, act);
        }
      case Foreign(m) => ForeignGrows(env, s, m);
    }
  }

  lemma DroppedIsNew(env: Env, s: State, p: Pid, act: Act)
    requires Inv(env, s) && p in s.core.alive && ReclaimReady(env, s, p, act)
    ensures act == Drop ==> PcOf(s, p).Verified? && PcOf(s, p).file !in s.core.wins
  {
    InvPc(env, s, p);
  }

  lemma {:induction false} Growth(env: Env, states: seq<State>, actions: seq<Action>, i: nat, j: nat)
    requires EnvOk(env) && Execution(env, states, actions) && i <= j < |states|
    ensures Grows(states[i], states[j])
    decreases j
  {
    hide Enabled, Next, Inv, EnvOk;
    if i < j {
      Growth(env, states, actions, i, j - 1);
      ReachableInv(env, states, actions, j - 1);
      assert Leads(env, states[j - 1], actions[j - 1], states[j]);
      StepGrows(env, states[j - 1], actions[j - 1]);
    }
  }

  // ------------------------------------------------------------ main theorems

  /** Mutual exclusion: in every interleaving, repeated and late releases included, a handle that a live process
      has not released has its exact sentinel at the lock path, so there is at most one such handle: never two of
      different processes, and never two of one process. */
  lemma MutualExclusion(env: Env, states: seq<State>, actions: seq<Action>, i: nat, f: FileId, g: FileId)
    requires EnvOk(env) && !env.aging && Execution(env, states, actions) && i < |states|
    requires Live(states[i].core, f)
    ensures LockFits(states[i].core, Claim(states[i].core.handles[f])) && states[i].core.lock == Some(f)
    ensures Live(states[i].core, g) ==> f == g
  {
    hide Enabled, Next;
    ReachableInv(env, states, actions, i);
    assert HandleOk(env, states[i].core, f);
    SoleOwner(env, states[i].core, f);
  }

  /** Each acquisition returns a handle of its own, for a file that no handle was ever for. */
  lemma AcquisitionsAreDistinct(
    env: Env, states: seq<State>, actions: seq<Action>, i: nat, j: nat, p: Pid, q: Pid)
    requires EnvOk(env) && Execution(env, states, actions) && i < j < |actions|
    requires actions[i] == By(p, Snapshot) && actions[j] == By(q, Snapshot)
    ensures PcOf(states[i], p).Reading? && PcOf(states[j], q).Reading?
    ensures PcOf(states[i], p).file != PcOf(states[j], q).file
  {
    hide Perform, Inv, EnvOk;
    ReachableInv(env, states, actions, i);
    ReachableInv(env, states, actions, j);
    assert Leads(env, states[i], actions[i], states[i + 1]) && Leads(env, states[j], actions[j], states[j + 1]);
    SnapshotIsNew(env, states[i], p, Snapshot);
    SnapshotIsNew(env, states[j], q, Snapshot);
    SnapshotHands(env, states[i], p);
    Growth(env, states, actions, i + 1, j);
  }

  lemma SnapshotHands(env: Env, s: State, p: Pid)
    requires AcquireReady(env, s, p, Snapshot)
    ensures s.core.lock.value in Perform(env, s, p, Snapshot).core.handles
  {
  }

  /** A release, of whichever handle of its process and however often: it changes the path only by removing the
      sentinel that this handle was returned for, and then this was its first release. When anything else stands
      there, such as the sentinel of a successor, in the same process or another, it stays. */
  lemma ReleaseSparesSuccessor(env: Env, states: seq<State>, actions: seq<Action>, i: nat, p: Pid)
    requires EnvOk(env) && Execution(env, states, actions) && i < |actions|
    requires actions[i] == By(p, CheckRelease) || actions[i] == By(p, Unlink)
    ensures IsReleasing(PcOf(states[i], p)) && Has(states[i].core, p, PcOf(states[i], p).file)
    ensures var f := PcOf(states[i], p).file; var c, d := states[i].core, states[i + 1].core;
            && (d.lock != c.lock ==> c.lock == Some(f) && d.lock.None? && !c.handles[f].released)
            && (c.lock != Some(f) ==> actions[i] == By(p, CheckRelease) && d == Released(c, f))
            && (c.lock == Some(f) && actions[i] == By(p, CheckRelease) ==> d == c)
            && (actions[i] == By(p, Unlink) ==> d == Released(c, f).(lock := None))
  {
    ReachableInv(env, states, actions, i);
    assert Leads(env, states[i], actions[i], states[i + 1]);
    ReleaseTouchesOwn(env, states[i], p, actions[i].act);
  }

  predicate IsReleasing(pc: Pc) {
    pc.Releasing? || pc.Unlinking?
  }

  lemma ReleaseTouchesOwn(env: Env, s: State, p: Pid, act: Act)
    requires EnvOk(env) && Inv(env, s) && p in s.core.alive && Ready(env, s, p, act)
    requires act == CheckRelease || act == Unlink
    ensures IsReleasing(PcOf(s, p)) && Has(s.core, p, PcOf(s, p).file)
    ensures var f := PcOf(s, p).file; var d := Perform(env, s, p, act).core;
            && (act == CheckRelease ==> d == if s.core.lock == Some(f) then s.core else Released(s.core, f))
            && (act == Unlink ==> s.core.lock == Some(f) && d == Released(s.core, f).(lock := None))
            && (s.core.lock == Some(f) ==> !s.core.handles[f].released)
  {
    InvPc(env, s, p);
    CheckIsExact(env, s.core, PcOf(s, p).file);
  }

  /** Releasing is idempotent: once a handle is released, its sentinel is off the path for good, and every further
      release of it, whatever was acquired meanwhile, changes nothing at all. */
  lemma RepeatedReleaseChangesNothing(
    env: Env, states: seq<State>, actions: seq<Action>, i: nat, j: nat, f: FileId, p: Pid)
    requires EnvOk(env) && Execution(env, states, actions) && i <= j < |states|
    requires f in states[i].core.handles && states[i].core.handles[f].released
    ensures f in states[j].core.handles && states[j].core.handles[f].released && states[j].core.lock != Some(f)
    ensures j < |actions| && (actions[j] == By(p, CheckRelease) || actions[j] == By(p, Unlink))
            && IsReleasing(PcOf(states[j], p)) && PcOf(states[j], p).file == f ==>
              actions[j] == By(p, CheckRelease) && states[j + 1].core == states[j].core
  {
    hide Enabled, Next, EnvOk;
    Growth(env, states, actions, i, j);
    ReachableInv(env, states, actions, j);
    assert HandleOk(env, states[j].core, f);
    if j < |actions| && (actions[j] == By(p, CheckRelease) || actions[j] == By(p, Unlink)) {
      ReleaseSparesSuccessor(env, states, actions, j, p);
    }
  }

  /** A reclaim removes only what its probe saw: if the removed sentinel was made by a cooperating process then
      its body and identity are exactly those probed, and unless holders are aged out its process is dead or
      never was. In particular a probe that saw a half-written body never removes the finished one. */
  lemma ReclaimRemovesOnlyWhatWasProbed(
    env: Env, states: seq<State>, actions: seq<Action>, i: nat, p: Pid)
    requires EnvOk(env) && Execution(env, states, actions) && i < |actions|
    requires actions[i] == By(p, Drop)
    ensures var pc := PcOf(states[i], p); var c := states[i].core;
            && pc.Verified? && pc.file in c.files && c.lock != Some(pc.file)
            && (c.files[pc.file].author.Some? ==> Fits(c.files[pc.file], pc.evidence))
            && (!env.aging ==> LooksDead(env, c.alive, pc.evidence.content) && NoOwner(c))
            && (pc.evidence.content != c.files[pc.file].content ==> c.files[pc.file].author.None?)
  {
    hide Next;
    ReachableInv(env, states, actions, i);
    assert Leads(env, states[i], actions[i], states[i + 1]);
    assert PcOk(env, states[i].core, p, PcOf(states[i], p));
  }

  /** The step in which a reclaim wins. */
  lemma DropWins(env: Env, s: State, p: Pid)
    requires Inv(env, s) && p in s.core.alive && Ready(env, s, p, Drop)
    ensures var pc := PcOf(s, p); var c := Perform(env, s, p, Drop).core;
            && pc.Verified? && pc.file !in s.core.wins
            && c == s.core.(wins := s.core.wins[pc.file := Win(p, pc.evidence)])
            && WinOk(env, s.core, pc.file, pc.evidence)
  {
    InvPc(env, s, p);
  }

  /** At most one winner per sentinel, over the whole interleaving and with or without aging: no two reclaims
      that acted on one complete body both removed a file; and if two acted on the same incomplete evidence,
      they removed different files for which the file system had used one inode twice. */
  lemma ReclaimHasOneWinner(
    env: Env, states: seq<State>, actions: seq<Action>, i: nat, j: nat, p: Pid, q: Pid)
    requires EnvOk(env) && Execution(env, states, actions) && i < j < |actions|
    requires actions[i] == By(p, Drop) && actions[j] == By(q, Drop)
    ensures PcOf(states[i], p).Verified? && PcOf(states[j], q).Verified?
    ensures PcOf(states[i], p).file != PcOf(states[j], q).file
    ensures PcOf(states[i], p).evidence.content == PcOf(states[j], q).evidence.content ==>
              !env.payload(PcOf(states[i], p).evidence.content)
    ensures PcOf(states[i], p).evidence == PcOf(states[j], q).evidence ==>
              var f, g := PcOf(states[i], p).file, PcOf(states[j], q).file;
              && f in states[j].core.files && g in states[j].core.files
              && states[j].core.files[f].ino == states[j].core.files[g].ino
  {
    hide Next, Ready, Perform, CoreOk;
    ReachableInv(env, states, actions, i);
    ReachableInv(env, states, actions, j);
    assert Leads(env, states[i], actions[i], states[i + 1]) && Leads(env, states[j], actions[j], states[j + 1]);
    assert states[i + 1] == Perform(env, states[i], p, Drop) by { NextBy(env, states[i], p, Drop); }
    DropWins(env, states[i], p);
    DropWins(env, states[j], q);
    Growth(env, states, actions, i + 1, j);
    var f, g := PcOf(states[i], p).file, PcOf(states[j], q).file;
    var c := states[j].core;
    assert f in c.wins && c.wins[f] == Win(p, PcOf(states[i], p).evidence);
    WonFits(env, c, f);
    if env.payload(PcOf(states[i], p).evidence.content)
       && PcOf(states[i], p).evidence.content == PcOf(states[j], q).evidence.content {
      CompleteBodyIsOneFile(env, c, f, g);
      assert false;
    }
  }

  lemma NextBy(env: Env, s: State, p: Pid, act: Act)
    requires Enabled(env, s, By(p, act))
    ensures Next(env, s, By(p, act)) == Perform(env, s, p, act)
  {
  }

  lemma WonFits(env: Env, c: Core, f: FileId)
    requires CoreOk(env, c) && f in c.wins
    ensures WinOk(env, c, f, c.wins[f].evidence)
  {
  }

  /** A second reclaim of a sentinel that is gone cannot remove it again. */
  lemma RemovedStaysRemoved(
    env: Env, states: seq<State>, actions: seq<Action>, i: nat, j: nat, p: Pid, q: Pid)
    requires EnvOk(env) && Execution(env, states, actions) && i < j < |states|
    requires actions[i] == By(p, Drop) && q in states[j].core.alive
    ensures PcOf(states[i], p).Verified? && states[j].core.lock != Some(PcOf(states[i], p).file)
    ensures PcOf(states[j], q).Verified? || PcOf(states[j], q).Quarantined? || PcOf(states[j], q).Restoring? ==>
              PcOf(states[j], q).file != PcOf(states[i], p).file
  {
    hide Next, Ready, Perform, CoreOk;
    ReachableInv(env, states, actions, i);
    ReachableInv(env, states, actions, j);
    assert Leads(env, states[i], actions[i], states[i + 1]);
    assert states[i + 1] == Perform(env, states[i], p, Drop) by { NextBy(env, states[i], p, Drop); }
    DropWins(env, states[i], p);
    Growth(env, states, actions, i + 1, j);
    WonFits(env, states[j].core, PcOf(states[i], p).file);
    InvPc(env, states[j], q);
  }

  // ---------------------------------------------------------- no gap at the path

  predicate HasQuarantine(pc: Pc) {
    pc.Quarantined? || pc.Verified? || pc.Restoring?
  }

  /** While p has a file in quarantine nobody of the protocol touches the path: what stands there has been
      created since the file was taken. */
  ghost predicate TakenAt(s: State, p: Pid, later: State) {
    HasQuarantine(PcOf(later, p)) ==>
      && s.core.lock == Some(PcOf(later, p).file) && PcOf(s, p).Matched?
      && PcOf(later, p).evidence == PcOf(s, p).evidence
      && (later.core.lock.Some? ==> later.core.lock.value !in s.core.files)
  }

  lemma TakenLasts(env: Env, s: State, p: Pid, later: State, a: Action)
    requires EnvOk(env) && Inv(env, later) && Enabled(env, later, a) && TakenAt(s, p, later) && a != By(p, Rename)
    requires p in Next(env, later, a).core.alive && forall f | f in s.core.files :: f in later.core.files
    ensures TakenAt(s, p, Next(env, later, a))
  {
    hide CoreOk, PcOk, EnvOk;
    match a {
      case By(q, act) =>
        if q == p {
          OwnStepsInQuarantine(env, later, p, act);
        } else {
          hide Ready, Perform;
          PerformFrame(env, later, q, act, p);
          assert p in later.core.alive;
          assert HasQuarantine(PcOf(later, p)) ==> InMutex(PcOf(later, p)) && !InMutex(PcOf(later, q));
        }
      case Foreign(m) =>
    }
  }

  /** What its own steps do to a file that a process has in quarantine. */
  ghost predicate SameQuarantine(s: State, p: Pid, s': State) {
    HasQuarantine(PcOf(s', p)) ==>
      && HasQuarantine(PcOf(s, p)) && s'.core.lock == s.core.lock
      && PcOf(s', p).file == PcOf(s, p).file && PcOf(s', p).evidence == PcOf(s, p).evidence
  }

  lemma ReclaimKeepsQuarantine(env: Env, s: State, p: Pid, act: Act)
    requires ReclaimReady(env, s, p, act) && act != Rename
    ensures SameQuarantine(s, p, PerformReclaim(env, s, p, act))
  {
    hide LockFits, Fits, LooksDead, NoFileFor, HandleFor;
  }

  lemma OtherOperationsHaveNoQuarantine(env: Env, s: State, p: Pid, act: Act)
    requires Ready(env, s, p, act) && !ReclaimReady(env, s, p, act)
    ensures SameQuarantine(s, p, Perform(env, s, p, act))
  {
    hide LockFits, Fits, LooksDead, NoFileFor, HandleFor, PerformReclaim;
  }

  lemma OwnStepsInQuarantine(env: Env, s: State, p: Pid, act: Act)
    requires Ready(env, s, p, act) && act != Rename
    ensures SameQuarantine(s, p, Perform(env, s, p, act))
  {
    if ReclaimReady(env, s, p, act) {
      hide SameQuarantine;
      assert !AcquireReady(env, s, p, act) && !ProbeReady(env, s, p, act);
      ReclaimKeepsQuarantine(env, s, p, act);
    } else {
      OtherOperationsHaveNoQuarantine(env, s, p, act);
    }
  }

  lemma {:induction false} QuarantineLasts(
    env: Env, states: seq<State>, actions: seq<Action>, i: nat, k: nat, p: Pid)
    requires EnvOk(env) && Execution(env, states, actions) && i < k < |states|
    requires actions[i] == By(p, Rename) && p in states[k].core.alive
    requires forall m | i < m < k :: actions[m] != By(p, Rename)
    ensures TakenAt(states[i], p, states[k])
    decreases k
  {
    hide Enabled, Next, Inv, EnvOk, TakenAt;
    ReachableInv(env, states, actions, i);
    if k == i + 1 {
      assert Leads(env, states[i], actions[i], states[k]);
      RenameTakes(env, states[i], p);
    } else {
      ReachableInv(env, states, actions, k - 1);
      Growth(env, states, actions, k - 1, k);
      Growth(env, states, actions, i, k - 1);
      QuarantineLasts(env, states, actions, i, k - 1, p);
      assert Leads(env, states[k - 1], actions[k - 1], states[k]);
      TakenLasts(env, states[i], p, states[k - 1], actions[k - 1]);
    }
  }

  lemma RenameTakes(env: Env, s: State, p: Pid)
    requires Enabled(env, s, By(p, Rename))
    ensures TakenAt(s, p, Next(env, s, By(p, Rename)))
  {
  }

  /** A reclaim that took a file at step i and gives it back at step j leaves the path occupied: by that very
      file, or by a sentinel that was created after i and that it does not replace. */
  lemma FalseReclaimLeavesNoGap(
    env: Env, states: seq<State>, actions: seq<Action>, i: nat, j: nat, p: Pid)
    requires EnvOk(env) && Execution(env, states, actions) && i < j < |actions|
    requires actions[i] == By(p, Rename) && actions[j] == By(p, Restore)
    requires forall m | i < m < j :: actions[m] != By(p, Rename)
    ensures states[i].core.lock.Some? && states[j + 1].core.lock.Some?
    ensures if states[j].core.lock.None? then states[j + 1].core.lock == states[i].core.lock
            else && states[j + 1].core == states[j].core
                 && states[j].core.lock.value in states[j].core.files
                 && states[j].core.lock.value !in states[i].core.files
  {
    hide CoreOk, PcOk, EnvOk;
    ReachableInv(env, states, actions, j);
    assert Leads(env, states[j], actions[j], states[j + 1]);
    QuarantineLasts(env, states, actions, i, j, p);
    if states[j].core.lock.Some? {
      LockIsAFile(env, states[j].core);
    }
  }
}
