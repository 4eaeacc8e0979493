/**
 * The entry points of src/core/file-lock.ts as methods of one process. Between any two primitives everyone
 * else may take any number of steps; each method is proved against that interference.
 */
module FileLockMethods {
  import opened Options
  import opened FileLock
  import opened FileLockTheorems

  // ------------------------------------------------------------- interference

  /** Steps of everyone but `me`. */
  ghost predicate PathOfOthers(env: Env, me: Pid, states: seq<State>, actions: seq<Action>) {
    && |states| == |actions| + 1
    && (forall i | 0 <= i < |actions| :: Leads(env, states[i], actions[i], states[i + 1]))
    && (forall i | 0 <= i < |actions| :: actions[i].By? ==> actions[i].p != me)
  }

  ghost predicate Others(env: Env, me: Pid, s: State, s': State) {
    exists states, actions ::
      PathOfOthers(env, me, states, actions) && states[0] == s && states[|actions|] == s'
  }

  /** Handles and verdicts of this process are what they were. */
  ghost predicate Mine(me: Pid, c: Core, d: Core) {
    SameHandles(me, c, d) && forall e :: Verdict(me, e) in c.verdicts <==> Verdict(me, e) in d.verdicts
  }

  lemma MineTrans(me: Pid, a: Core, b: Core, c: Core)
    requires Mine(me, a, b) && Mine(me, b, c)
    ensures Mine(me, a, c)
  {
  }

  /** What a process that takes part can rely on while others move. */
  ghost predicate Keeps(me: Pid, s: State, s': State) {
    && PcOf(s', me) == PcOf(s, me)
    && (me in s.core.alive ==> me in s'.core.alive)
    && Mine(me, s.core, s'.core)
    && s'.core.alive <= s.core.alive
    && Progress(me, s.core, s'.core)
    && (InMutex(PcOf(s, me)) ==> ProtocolFilesKept(s.core, s'.core))
  }

  /** Removals that happened stay on record, and new ones are not this process's. */
  ghost predicate OthersWins(me: Pid, c: Core, d: Core) {
    && (forall f | f in c.wins :: f in d.wins && d.wins[f] == c.wins[f])
    && (forall f | f in d.wins && f !in c.wins :: d.wins[f].winner != me)
  }

  ghost predicate Progress(me: Pid, c: Core, d: Core) {
    (forall f | f in c.files :: f in d.files) && OthersWins(me, c, d)
  }

  lemma ProgressTrans(me: Pid, a: Core, b: Core, c: Core)
    requires Progress(me, a, b) && Progress(me, b, c)
    ensures Progress(me, a, c)
  {
    forall f | f in c.wins && f !in a.wins ensures c.wins[f].winner != me {
      assert f in b.wins ==> c.wins[f] == b.wins[f];
    }
  }

  /** A step of its own that leaves files and wins alone. */
  lemma ProgressSame(me: Pid, a: Core, b: Core, c: Core)
    requires Progress(me, a, b) && c.files == b.files && c.wins == b.wins
    ensures Progress(me, a, c)
  {
  }

  lemma NoProgress(me: Pid, c: Core)
    ensures Progress(me, c, c)
  {
  }

  /** A win after such progress is the first of its file, and the only one of this process since. */
  lemma FirstWin(me: Pid, a: Core, b: Core, f: FileId, e: Evidence)
    requires Progress(me, a, b) && f !in b.wins
    ensures var c := b.(wins := b.wins[f := Win(me, e)]);
            && f !in a.wins
            && forall g | g in c.wins && g !in a.wins && g != f :: c.wins[g].winner != me
  {
  }

  /** What stands at a path that was emptied under the mutex is newer than that. */
  lemma NewAtPath(me: Pid, a: Core, b: Core, c: Core)
    requires a.lock.None? && Progress(me, a, b) && ProtocolFilesKept(a, b) && ProtocolFilesKept(b, c)
    ensures c.lock.Some? ==> c.lock.value !in a.files
  {
  }

  lemma OthersOnly(me: Pid, a: Core, b: Core)
    requires Progress(me, a, b)
    ensures OthersWins(me, a, b)
  {
  }

  lemma SameOwners(a: Core, b: Core)
    requires a.alive == b.alive && a.handles == b.handles
    ensures NoOwner(a) <==> NoOwner(b)
  {
    assert forall f :: Live(a, f) <==> Live(b, f);
  }

  lemma GivenBackIsNoGap(me: Pid, a: Core, b: Core, g: FileId)
    requires Progress(me, a, b) && g !in b.files
    ensures g !in a.files
  {
  }

  /** Under the mutex, files made by the protocol stay as they are and where they are, nothing is reclaimed,
      and what newly stands at the path is a new file. */
  ghost predicate ProtocolFilesKept(c: Core, d: Core) {
    && (forall f | f in c.files && c.files[f].author.Some? :: f in d.files && d.files[f] == c.files[f])
    && (forall f | f in c.files :: f in d.files && d.files[f].author == c.files[f].author)
    && (c.lock.Some? && c.lock.value in c.files && c.files[c.lock.value].author.Some? ==> d.lock == c.lock)
    && d.wins == c.wins
    && (d.lock == c.lock || d.lock.None? || d.lock.value !in c.files)
  }

  /** The file is not what the evidence says, or not the protocol's. */
  predicate Misfit(c: Core, f: FileId, e: Evidence) {
    f in c.files && (c.files[f].author.Some? ==> !Fits(c.files[f], e))
  }

  lemma MisfitStays(c: Core, d: Core, f: FileId, e: Evidence)
    requires d.files == c.files && Misfit(c, f, e)
    ensures Misfit(d, f, e)
  {
  }

  lemma MisfitKept(c: Core, d: Core, f: FileId, e: Evidence)
    requires ProtocolFilesKept(c, d) && Misfit(c, f, e)
    ensures Misfit(d, f, e)
  {
  }

  /** Dying touches no file either, even under the mutex. */
  lemma OneOther(env: Env, me: Pid, s: State, a: Action)
    requires EnvOk(env) && Inv(env, s) && Enabled(env, s, a) && me in s.core.alive
    requires a.By? ==> a.p != me
    ensures Keeps(me, s, Next(env, s, a))
  {
    hide CoreOk, PcOk, Ready, Perform, EnvOk;
    StepGrows(env, s, a);
    match a {
      case By(p, act) =>
        PerformFrame(env, s, p, act, me);
        OnlyOwnWins(env, s, p, act);
        assert InMutex(PcOf(s, me)) ==> !InMutex(PcOf(s, p));
      case Foreign(m) =>
    }
  }

  lemma OnlyOwnWins(env: Env, s: State, p: Pid, act: Act)
    requires Ready(env, s, p, act)
    ensures forall f | f in Perform(env, s, p, act).core.wins && f !in s.core.wins ::
              Perform(env, s, p, act).core.wins[f].winner == p
  {
    if ReclaimReady(env, s, p, act) {
      hide AcquireReady, ProbeReady, ReleaseReady, PerformAcquire, PerformProbe, PerformRelease;
      hide LockFits, Fits, LooksDead, NoFileFor, HandleFor;
      NoOtherOperation(env, s, p, act);
    } else {
      hide PerformReclaim, LockFits, Fits, LooksDead, NoFileFor, HandleFor;
    }
  }

  lemma NoOtherOperation(env: Env, s: State, p: Pid, act: Act)
    requires ReclaimReady(env, s, p, act)
    ensures !AcquireReady(env, s, p, act) && !ProbeReady(env, s, p, act)
  {
    hide PerformReclaim;
  }

  lemma {:induction false} OthersKeep(env: Env, me: Pid, states: seq<State>, actions: seq<Action>, n: nat)
    requires EnvOk(env) && PathOfOthers(env, me, states, actions) && n <= |actions|
    requires Inv(env, states[0]) && me in states[0].core.alive
    ensures Inv(env, states[n]) && Keeps(me, states[0], states[n])
  {
    hide Inv, Enabled, Next, PcOf, EnvOk, InMutex;
    if n > 0 {
      OthersKeep(env, me, states, actions, n - 1);
      assert Leads(env, states[n - 1], actions[n - 1], states[n]);
      StepKeepsInv(env, states[n - 1], actions[n - 1]);
      OneOther(env, me, states[n - 1], actions[n - 1]);
    }
  }

  lemma NobodyMoves(env: Env, me: Pid, s: State)
    ensures Others(env, me, s, s)
  {
    assert PathOfOthers(env, me, [s], []);
  }

  lemma Bound(ids: set<FileId>) returns (n: FileId)
    ensures forall f | f in ids :: f < n
  {
    if ids == {} {
      n := 0;
    } else {
      var f :| f in ids;
      var m := Bound(ids - {f});
      n := if f < m then m else f + 1;
      forall g | g in ids ensures g < n {
        assert g == f || g in ids - {f};
      }
    }
  }

  // -------------------------------------------- what a process can do, by its position

  lemma AtIdle(env: Env, s: State, p: Pid)
    requires PcOf(s, p).Idle?
    ensures s.core.lock.Some? ==>
              Ready(env, s, p, Open) && Perform(env, s, p, Open) == Go(s, p, ProbeOpened(s.core.lock.value))
    ensures forall f | Has(s.core, p, f) ::
              Ready(env, s, p, RequestRelease(f)) && Perform(env, s, p, RequestRelease(f)) == Go(s, p, WantRelease(f))
    ensures forall e | Verdict(p, e) in s.core.verdicts ::
              Ready(env, s, p, RequestReclaim(e)) && Perform(env, s, p, RequestReclaim(e)) == Go(s, p, WantReclaim(e))
    ensures forall payload | env.payload(payload) && env.extract(payload) == Some(p) && NoFileFor(s.core, payload) ::
              && Ready(env, s, p, Request(payload))
              && Perform(env, s, p, Request(payload)) == Go(s, p, WantAcquire(payload))
  {
  }

  function Inside(pc: Pc): Pc {
    match pc
    case WantAcquire(payload) => Creating(payload)
    case WantReclaim(e) => Reclaiming(e)
    case WantRelease(f) => Releasing(f)
    case _ => pc
  }

  lemma AtWaiting(env: Env, s: State, p: Pid)
    requires PcOf(s, p).WantAcquire? || PcOf(s, p).WantReclaim? || PcOf(s, p).WantRelease?
    ensures Ready(env, s, p, GiveUp) && Perform(env, s, p, GiveUp) == Go(s, p, Idle)
    ensures s.mutex.None? ==>
              && Ready(env, s, p, TakeMutex)
              && Perform(env, s, p, TakeMutex) == Go(s, p, Inside(PcOf(s, p))).(mutex := Some(p))
  {
  }

  lemma AtCreating(env: Env, s: State, p: Pid)
    requires PcOf(s, p).Creating?
    ensures s.core.lock.Some? ==>
              Ready(env, s, p, CreateExists) && Perform(env, s, p, CreateExists) == Leave(s, p, Idle)
    ensures s.core.lock.None? ==> forall f: FileId, ino: nat, mtime: nat | f !in s.core.files ::
              && Ready(env, s, p, Create(f, ino, mtime))
              && Perform(env, s, p, Create(f, ino, mtime))
                 == Go(s.(core := s.core.(lock := Some(f),
                                          files := s.core.files[f := File("", ino, mtime, Some(PcOf(s, p).payload))])),
                       p, Writing(PcOf(s, p).payload, f))
  {
  }

  lemma AtWriting(env: Env, s: State, p: Pid, n: nat, mtime: nat)
    requires PcOf(s, p).Writing? && PcOf(s, p).file in s.core.files
    requires |s.core.files[PcOf(s, p).file].content| <= n <= |PcOf(s, p).payload|
    ensures Ready(env, s, p, WriteFails) && Perform(env, s, p, WriteFails) == Leave(s, p, Idle)
    ensures Ready(env, s, p, WriteMore(n, mtime))
    ensures var s' := Perform(env, s, p, WriteMore(n, mtime)); var pc := PcOf(s, p);
            && PcOf(s', p) == (if n == |pc.payload| then Reading(pc.payload, pc.file) else pc)
            && pc.file in s'.core.files && |s'.core.files[pc.file].content| == n
            && s'.core == s.core.(files := s'.core.files)
  {
  }

  lemma AtReading(env: Env, s: State, p: Pid)
    requires PcOf(s, p).Reading? && s.core.lock.Some? && s.core.lock.value in s.core.files
    ensures Ready(env, s, p, SnapshotFails)
    ensures Perform(env, s, p, SnapshotFails) == Leave(s.(core := s.core.(lock := None)), p, Idle)
    ensures Ready(env, s, p, Snapshot)
    ensures Perform(env, s, p, Snapshot)
         == Leave(s.(core := WithHandle(s.core, s.core.lock.value, HandleFor(s.core, p))), p, Idle)
  {
  }

  lemma AtProbe(env: Env, s: State, p: Pid)
    requires PcOf(s, p).ProbeOpened? || PcOf(s, p).ProbeRead? ==> PcOf(s, p).file in s.core.files
    ensures PcOf(s, p).ProbeOpened? ==>
              && Ready(env, s, p, Read)
              && Perform(env, s, p, Read) == Go(s, p, ProbeRead(PcOf(s, p).file, s.core.files[PcOf(s, p).file].content))
    ensures PcOf(s, p).ProbeRead? ==>
              && Ready(env, s, p, Stat)
              && Perform(env, s, p, Stat)
                 == Go(s, p, ProbeDone(Evidence(PcOf(s, p).content, IdentityOf(s.core.files[PcOf(s, p).file]))))
  {
  }

  lemma AtJudge(env: Env, s: State, p: Pid, aged: bool)
    requires PcOf(s, p).ProbeDone? && (aged ==> env.aging)
    ensures var seen := PcOf(s, p).seen;
            && Ready(env, s, p, Judge(aged))
            && Perform(env, s, p, Judge(aged))
               == if aged || LooksDead(env, s.core.alive, seen.content)
                  then Go(s.(core := s.core.(verdicts := s.core.verdicts + {Verdict(p, seen)})), p, Idle)
                  else Go(s, p, Idle)
  {
  }

  lemma AtReclaim(env: Env, s: State, p: Pid)
    ensures PcOf(s, p).Reclaiming? ==>
              var e := PcOf(s, p).evidence;
              && Ready(env, s, p, Match)
              && Perform(env, s, p, Match)
                 == (if LockFits(s.core, e) then Go(s, p, Matched(e)) else Leave(s, p, Idle))
    ensures PcOf(s, p).Matched? ==>
              var e := PcOf(s, p).evidence;
              && Ready(env, s, p, Rename)
              && Perform(env, s, p, Rename)
                 == (if s.core.lock.None? then Leave(s, p, Idle)
                     else Go(s.(core := s.core.(lock := None)), p, Quarantined(e, s.core.lock.value)))
  {
  }

  lemma AtQuarantine(env: Env, s: State, p: Pid, readable: bool)
    requires PcOf(s, p).Quarantined? ==> PcOf(s, p).file in s.core.files
    ensures PcOf(s, p).Quarantined? ==>
              var e, f := PcOf(s, p).evidence, PcOf(s, p).file;
              && Ready(env, s, p, Verify(readable))
              && Perform(env, s, p, Verify(readable))
                 == Go(s, p, if readable && Fits(s.core.files[f], e) then Verified(e, f) else Restoring(e, f))
    ensures PcOf(s, p).Verified? ==>
              var e, f := PcOf(s, p).evidence, PcOf(s, p).file;
              && Ready(env, s, p, Drop)
              && Perform(env, s, p, Drop) == Leave(s.(core := s.core.(wins := s.core.wins[f := Win(p, e)])), p, Idle)
    ensures PcOf(s, p).Restoring? ==>
              && Ready(env, s, p, Restore)
              && Perform(env, s, p, Restore)
                 == Leave(s.(core := s.core.(lock := if s.core.lock.None? then Some(PcOf(s, p).file) else s.core.lock)),
                          p, Idle)
              && Ready(env, s, p, RestoreFails) && Perform(env, s, p, RestoreFails) == Leave(s, p, Idle)
  {
  }

  lemma AtRelease(env: Env, s: State, p: Pid)
    requires IsReleasing(PcOf(s, p)) ==> Has(s.core, p, PcOf(s, p).file)
    ensures PcOf(s, p).Releasing? ==>
              var f := PcOf(s, p).file;
              && Ready(env, s, p, CheckRelease)
              && Perform(env, s, p, CheckRelease)
                 == (if LockFits(s.core, Claim(s.core.handles[f])) then Go(s, p, Unlinking(f))
                     else Leave(s.(core := Released(s.core, f)), p, Idle))
    ensures PcOf(s, p).Unlinking? ==>
              && Ready(env, s, p, Unlink)
              && Perform(env, s, p, Unlink)
                 == Leave(s.(core := Released(s.core, PcOf(s, p).file).(lock := None)), p, Idle)
  {
  }

  // ----------------------------------------------------------------- results

  datatype Acquired = Ours(file: FileId) | Exists | Failed

  datatype Reason = InvalidPid | PidDead | AgeExceeded

  datatype Probe =
    | Absent
    | Held(holder: Pid, seen: Evidence)
    | StaleLock(reason: Reason, seen: Evidence)

  /** What the file system refuses an acquisition: the write call of this number, and the read-back. */
  datatype AcquireFaults = AcquireFaults(write: Option<nat>, readBack: bool)

  /** And a reclaim: reading the quarantined file, and linking it back. */
  datatype ReclaimFaults = ReclaimFaults(read: bool, link: bool)

  /** The source returns true for Won, false for Lost and GivenBack. */
  datatype Reclaimed = Won | Lost | GivenBack | Threw

  // ----------------------------------------------------------------- machine

  class Machine {
    const env: Env
    var state: State

    constructor (env: Env, state: State)
      ensures this.env == env && this.state == state
    {
      this.env, this.state := env, state;
    }

    ghost predicate Valid(me: Pid)
      reads this
    {
      EnvOk(env) && Inv(env, state) && me in state.core.alive
    }

    /** Everyone else runs for a while; callers may use only what follows from any such run. */
    method Interfere(me: Pid)
      requires Valid(me)
      modifies this`state
      ensures Valid(me) && Others(env, me, old(state), state) && Keeps(me, old(state), state)
    {
      NobodyMoves(env, me, state);
    }

    /** One primitive of this process. */
    method Do(me: Pid, act: Act)
      requires Valid(me) && Ready(env, state, me, act) && act != Die
      modifies this`state
      ensures Valid(me) && state == Perform(env, old(state), me, act)
    {
      hide EnvOk, Inv, Others, ProtocolFilesKept, Progress, LooksDead, LockFits, Ready, Perform, NoFileFor, Fits;
      StepKeepsInv(env, state, By(me, act));
      state := Perform(env, state, me, act);
      assert me in state.core.alive by { OnlyDeathKills(env, old(state), me, act); }
    }

    /** `BEGIN IMMEDIATE`, tried up to five times; anyone may hold the mutex meanwhile. */
    method WithLockOperationMutex(me: Pid) returns (began: bool)
      requires Valid(me)
      requires PcOf(state, me).WantAcquire? || PcOf(state, me).WantReclaim? || PcOf(state, me).WantRelease?
      modifies this`state
      ensures Valid(me)
      ensures Mine(me, old(state).core, state.core)
      ensures began ==> PcOf(state, me) == Inside(PcOf(old(state), me))
      ensures !began ==> PcOf(state, me) == Idle && state.mutex.Some?
      ensures Progress(me, old(state).core, state.core)
    {
      hide EnvOk, Inv, Others, ProtocolFilesKept, Progress, LooksDead, LockFits, Ready, Perform, NoFileFor, Fits;
      began := false;
      var attempt := 0;
      NoProgress(me, state.core);
      while attempt < 5 && !began
        invariant Valid(me)
        invariant Mine(me, old(state).core, state.core)
        invariant !began ==> PcOf(state, me) == PcOf(old(state), me) && (attempt > 0 ==> state.mutex.Some?)
        invariant began ==> PcOf(state, me) == Inside(PcOf(old(state), me))
        invariant Progress(me, old(state).core, state.core)
        decreases 5 - attempt, if began then 0 else 1
      {
        ghost var was := state.core;
        Interfere(me);
        ProgressTrans(me, old(state).core, was, state.core);
        AtWaiting(env, state, me);
        if state.mutex.None? {
          Do(me, TakeMutex);
          began := true;
        }
        attempt := attempt + 1;
      }
      if !began {
        AtWaiting(env, state, me);
        Do(me, GiveUp);
      }
    }

    /** The process may have any handles already, of its own other contexts or left over. A return with a handle
        means that it is a new one, that the path holds exactly this payload, and that no other handle is live,
        unless holders are aged out; in particular all earlier ones of this process were released. Exists means that
        something stands at the path, and Failed that the mutex is taken or the file system refused a call: otherwise
        the answer is a handle. */
    method TryAcquireLockSync(me: Pid, payload: string, faults: AcquireFaults) returns (r: Acquired)
      requires Valid(me) && PcOf(state, me).Idle?
      requires env.payload(payload) && env.extract(payload) == Some(me) && NoFileFor(state.core, payload)
      modifies this`state
      ensures Valid(me) && PcOf(state, me).Idle?
      ensures r.Ours? ==>
                && Gained(me, old(state).core, state.core, r.file)
                && Live(state.core, r.file) && state.core.handles[r.file].payload == payload
                && state.core.lock == Some(r.file) && LockFits(state.core, Claim(state.core.handles[r.file]))
                && (!env.aging ==> forall g :: Live(state.core, g) ==> g == r.file)
                && (!env.aging ==> forall g | Has(old(state).core, me, g) :: old(state).core.handles[g].released)
      ensures !r.Ours? ==> SameHandles(me, old(state).core, state.core)
      ensures r.Exists? ==> state.core.lock.Some?
      ensures r.Failed? ==> state.mutex.Some? || faults.write.Some? || faults.readBack
    {
      hide EnvOk, Inv, Others, ProtocolFilesKept, Progress, LooksDead, LockFits, Ready, Perform, NoFileFor, Fits, Mine;
      hide SameHandles, Gained, Live;
      AtIdle(env, state, me);
      Do(me, Request(payload));
      var began := WithLockOperationMutex(me);
      MineHandles(me, old(state).core, state.core);
      if !began {
        return Failed;
      }
      ghost var inside := state.core;
      r := TryAcquireLockRaw(me, payload, faults);
      if r.Ours? {
        SameThenGained(me, old(state).core, inside, state.core, r.file);
        EarlierAreReleased(env, old(state).core, state.core, me, r.file);
      } else {
        SameTrans(me, old(state).core, inside, state.core);
      }
    }

    /** Under the mutex: create with `wx`, write piece by piece, read back. */
    method TryAcquireLockRaw(me: Pid, payload: string, faults: AcquireFaults) returns (r: Acquired)
      requires Valid(me) && PcOf(state, me) == Creating(payload)
      modifies this`state
      ensures Valid(me) && PcOf(state, me).Idle?
      ensures r.Ours? ==>
                && Gained(me, old(state).core, state.core, r.file)
                && Live(state.core, r.file) && state.core.handles[r.file].payload == payload
                && state.core.lock == Some(r.file) && LockFits(state.core, Claim(state.core.handles[r.file]))
                && (!env.aging ==> forall g :: Live(state.core, g) ==> g == r.file)
      ensures !r.Ours? ==> SameHandles(me, old(state).core, state.core)
      ensures r.Exists? ==> state.core.lock.Some?
      ensures r.Failed? ==> faults.write.Some? || faults.readBack
    {
      hide EnvOk, Inv, Others, ProtocolFilesKept, Progress, LooksDead, LockFits, Ready, Perform, NoFileFor, Fits, Mine;
      hide SameHandles, Gained, Live;
      Interfere(me);
      MineHandles(me, old(state).core, state.core);
      AtCreating(env, state, me);
      if state.core.lock.Some? {
        Do(me, CreateExists);
        return Exists;
      }
      var f := FreshFile();
      var ino: nat, mtime: nat := *, *;
      ghost var before := state.core;
      Do(me, Create(f, ino, mtime));
      MineStays(me, old(state).core, before, state.core);
      ghost var created := state.core;
      var written := WriteBody(me, payload, f, faults.write);
      MineTrans(me, old(state).core, created, state.core);
      MineHandles(me, old(state).core, state.core);
      if !written {
        return Failed;
      }
      ghost var complete := state.core;
      Interfere(me);
      MineTrans(me, old(state).core, complete, state.core);
      MineHandles(me, old(state).core, state.core);
      ghost var here := state.core;
      r := ReadBack(me, payload, f, faults.readBack);
      if r.Ours? {
        SameThenGained(me, old(state).core, here, state.core, f);
      } else {
        SameTrans(me, old(state).core, here, state.core);
      }
    }

    /** The last primitive: the snapshot of the sentinel just written, or its removal when that fails. */
    method ReadBack(me: Pid, payload: string, f: FileId, fails: bool) returns (r: Acquired)
      requires Valid(me) && PcOf(state, me) == Reading(payload, f)
      modifies this`state
      ensures Valid(me) && PcOf(state, me).Idle?
      ensures r == if fails then Failed else Ours(f)
      ensures r.Ours? ==>
                && Gained(me, old(state).core, state.core, f)
                && Live(state.core, f) && state.core.handles[f].payload == payload
                && state.core.lock == Some(f) && LockFits(state.core, Claim(state.core.handles[f]))
                && (!env.aging ==> forall g :: Live(state.core, g) ==> g == f)
      ensures !r.Ours? ==> SameHandles(me, old(state).core, state.core)
    {
      hide EnvOk, Inv, LooksDead, LockFits, Ready, Perform, NoFileFor, Fits;
      ReadingFacts(env, state, me);
      AtReading(env, state, me);
      if fails {
        Do(me, SnapshotFails);
        return Failed;
      }
      Do(me, Snapshot);
      FreshHandle(env, state, me, f);
      r := Ours(f);
    }

    method FreshFile() returns (f: FileId)
      ensures f !in state.core.files
    {
      ghost var n := Bound(state.core.files.Keys);
      assert n !in state.core.files;
      f :| f !in state.core.files;
    }

    /** The body arrives in any number of pieces; the write call of the given number fails. */
    method WriteBody(me: Pid, payload: string, f: FileId, failing: Option<nat>) returns (ok: bool)
      requires Valid(me) && PcOf(state, me) == Writing(payload, f)
      requires f in state.core.files && state.core.files[f].content == ""
      modifies this`state
      ensures Valid(me) && Mine(me, old(state).core, state.core)
      ensures PcOf(state, me) == if ok then Reading(payload, f) else Idle
      ensures !ok ==> failing.Some?
    {
      hide EnvOk, Inv, Others, ProtocolFilesKept, Progress, LooksDead, LockFits, Ready, Perform, NoFileFor, Fits, Mine;
      MineSelf(me, state.core);
      var done: nat, calls: nat := 0, 0;
      ok := false;
      while !ok
        invariant Valid(me) && Mine(me, old(state).core, state.core) && done <= |payload|
        invariant PcOf(state, me) == if ok then Reading(payload, f) else Writing(payload, f)
        invariant !ok ==> f in state.core.files && |state.core.files[f].content| == done
        invariant !ok && done > 0 ==> done < |payload|
        decreases |payload| - done, !ok
      {
        WritingFacts(env, state, me);
        ghost var was := state.core;
        Interfere(me);
        assert state.core.files[f] == was.files[f] by { KeptFile(was, state.core, f); }
        MineTrans(me, old(state).core, was, state.core);
        ghost var now := state.core;
        var mtime: nat := *;
        var upTo: nat := |payload|;
        if done < |payload| {
          upTo :| done < upTo <= |payload|;
        }
        AtWriting(env, state, me, upTo, mtime);
        if failing == Some(calls) {
          Do(me, WriteFails);
          return false;
        }
        calls := calls + 1;
        Do(me, WriteMore(upTo, mtime));
        MineStays(me, old(state).core, now, state.core);
        ok := upTo == |payload|;
        done := upTo;
      }
    }

    /** Opens whatever stands at the path, then reads the content of that file, then its identity: three
        moments, between which others move; but it is one file throughout. */
    method ReadLockSnapshot(me: Pid)
      returns (seen: Option<Evidence>, ghost file: FileId, ghost opened': State, ghost read: State, ghost stated: State)
      requires Valid(me) && PcOf(state, me).Idle?
      modifies this`state
      ensures Valid(me)
      ensures seen.None? ==> state.core.lock.None? && PcOf(state, me).Idle?
      ensures seen.Some? ==>
                && PcOf(state, me) == ProbeDone(seen.value)
                && opened'.core.lock == Some(file)
                && file in read.core.files && file in stated.core.files
                && seen.value.content == read.core.files[file].content
                && seen.value.identity == IdentityOf(stated.core.files[file])
                && state.core == stated.core
                && Progress(me, opened'.core, read.core) && Progress(me, read.core, stated.core)
    {
      hide EnvOk, Inv, Others, ProtocolFilesKept, Progress, LooksDead, LockFits, Ready, Perform, NoFileFor, Fits;
      hide InMutex;
      file, opened', read, stated := 0, state, state, state;
      Interfere(me);
      if state.core.lock.None? {
        return None, file, opened', read, stated;
      }
      opened', file := state, state.core.lock.value;
      AtIdle(env, state, me);
      Do(me, Open);
      Interfere(me);
      ProbeFacts(env, state, me);
      read := state;
      AtProbe(env, state, me);
      Do(me, Read);
      Interfere(me);
      ProbeFacts(env, state, me);
      stated := state;
      AtProbe(env, state, me);
      Do(me, Stat);
      seen := Some(PcOf(state, me).seen);
    }

    /** Never holds the mutex. Unless the caller gave an age bound, a stale verdict names no process that is
        alive, now or ever again. */
    method ProbeLock(me: Pid, tooOld: bool) returns (r: Probe)
      requires Valid(me) && PcOf(state, me).Idle?
      modifies this`state
      ensures Valid(me) && PcOf(state, me).Idle?
      ensures r.StaleLock? ==>
                && Verdict(me, r.seen) in state.core.verdicts
                && (r.reason.InvalidPid? <==> env.extract(r.seen.content).None?)
                && (r.reason.PidDead? <==>
                      env.extract(r.seen.content).Some? && LooksDead(env, state.core.alive, r.seen.content))
                && (r.reason.AgeExceeded? ==> env.aging && tooOld)
      ensures r.Held? ==>
                && env.extract(r.seen.content) == Some(r.holder)
                && r.holder in state.core.alive && !(env.aging && tooOld)
      ensures r.Absent? ==> state.core.lock.None?
    {
      hide EnvOk, Inv, Others, ProtocolFilesKept, Progress, LockFits, Ready, Perform, NoFileFor, Fits;
      hide InMutex;
      var snapshot, _, _, _, _ := ReadLockSnapshot(me);
      if snapshot.None? {
        return Absent;
      }
      Interfere(me);
      var seen := snapshot.value;
      var aged := env.aging && tooOld;
      AtJudge(env, state, me, aged);
      Do(me, Judge(aged));
      if env.extract(seen.content).None? {
        return StaleLock(InvalidPid, seen);
      }
      if env.extract(seen.content).value !in state.core.alive {
        return StaleLock(PidDead, seen);
      }
      if aged {
        return StaleLock(AgeExceeded, seen);
      }
      r := Held(env.extract(seen.content).value, seen);
    }

    /**
     * Match, quarantine, verify, then remove or give back. Won: this call, and nobody else, removed one file
     * that nobody had removed before, on this evidence; unless holders are aged out nobody owned the lock.
     * Otherwise this call removed nothing. GivenBack: the path is occupied, by the file that was `taken` or
     * by one that did not exist when the call began, and the quarantined file could not be read or does not fit
     * the evidence. Lost: what stands at the path, if anything, does not fit it. Threw: the mutex is taken or the
     * link was refused. The verdict may be as old as it likes.
     */
    method ReclaimStaleLock(me: Pid, e: Evidence, faults: ReclaimFaults) returns (r: Reclaimed, ghost taken: FileId)
      requires Valid(me) && PcOf(state, me).Idle? && Verdict(me, e) in state.core.verdicts
      modifies this`state
      ensures Valid(me) && PcOf(state, me).Idle?
      ensures r == Won ==>
                && taken !in old(state.core.wins) && taken in state.core.wins
                && state.core.wins[taken] == Win(me, e)
                && state.core.lock != Some(taken)
                && (!env.aging ==> NoOwner(state.core))
                && forall f | f in state.core.wins && f !in old(state.core.wins) && f != taken ::
                     state.core.wins[f].winner != me
      ensures r != Won ==> OthersWins(me, old(state.core), state.core)
      ensures r == GivenBack ==>
                && state.core.lock.Some?
                && (state.core.lock.value == taken || state.core.lock.value !in old(state.core.files))
                && (faults.read || Misfit(state.core, taken, e))
      ensures r == Lost ==> !LockFits(state.core, e)
      ensures r == Threw ==> state.mutex.Some? || faults.link
    {
      hide *;
      taken := 0;
      ghost var c0 := state.core;
      var inside := EnterReclaim(me, e);
      if inside != GivenBack {
        OthersOnly(me, c0, state.core);
        return inside, taken;
      }
      taken := PcOf(state, me).file;
      ghost var c1 := state.core;
      ghost var last;
      r, last := FinishReclaim(me, faults);
      ProgressTrans(me, c0, c1, last);
      if r == Won {
        FirstWin(me, c0, last, taken, e);
        SameOwners(last, state.core);
      } else {
        ProgressSame(me, c0, last, state.core);
        OthersOnly(me, c0, state.core);
        if last.lock.Some? && last.lock.value !in c1.files {
          GivenBackIsNoGap(me, c0, c1, last.lock.value);
        }
      }
    }

    /** From the quarantine on; `last` is the state before the final primitive. */
    method FinishReclaim(me: Pid, faults: ReclaimFaults) returns (r: Reclaimed, ghost last: Core)
      requires Valid(me) && PcOf(state, me).Quarantined? && state.core.lock.None?
      modifies this`state
      ensures Valid(me) && r != Lost && Progress(me, old(state).core, last)
      ensures PcOf(state, me).Idle?
      ensures var f, e := old(PcOf(state, me)).file, old(PcOf(state, me)).evidence;
              && (r == Threw ==> state.core == last && faults.link)
              && (r == GivenBack ==> faults.read || Misfit(state.core, f, e))
              && (r == GivenBack ==> state.core == last.(lock := if last.lock.None? then Some(f) else last.lock)
                                     && (last.lock.Some? ==> last.lock.value !in old(state).core.files))
              && (r == Won ==> state.core == last.(wins := last.wins[f := Win(me, e)]) && f !in last.wins
                               && last.lock != Some(f) && (!env.aging ==> NoOwner(last)))
    {
      hide EnvOk, Inv, Others, ProtocolFilesKept, Progress, LooksDead, LockFits, Ready, Perform, NoFileFor, Fits;
      hide NoOwner;
      ghost var f, e := PcOf(state, me).file, PcOf(state, me).evidence;
      ghost var c1 := state.core;
      Interfere(me);
      ghost var c2 := state.core;
      var readable := !faults.read;
      QuarantineFacts(env, state, me);
      AtQuarantine(env, state, me, readable);
      Do(me, Verify(readable));
      ghost var misfits := Misfit(state.core, f, e);
      assert PcOf(state, me).Restoring? && readable ==> misfits;
      hide Misfit;
      ghost var c3 := state.core;
      Interfere(me);
      last := state.core;
      if misfits {
        MisfitKept(c3, last, f, e);
      }
      ProgressTrans(me, c1, c2, last);
      NewAtPath(me, c1, c2, last);
      AtQuarantine(env, state, me, readable);
      if PcOf(state, me).Restoring? {
        if faults.link {
          Do(me, RestoreFails);
          return Threw, last;
        }
        Do(me, Restore);
        if misfits {
          MisfitStays(last, state.core, f, e);
        }
        return GivenBack, last;
      }
      VerifiedFacts(env, state, me);
      Do(me, Drop);
      r := Won;
    }

    /** Up to the quarantine: GivenBack here means that a file has been taken from the path. */
    method EnterReclaim(me: Pid, e: Evidence) returns (r: Reclaimed)
      requires Valid(me) && PcOf(state, me).Idle? && Verdict(me, e) in state.core.verdicts
      modifies this`state
      ensures Valid(me) && r != Won && Progress(me, old(state).core, state.core)
      ensures r == Lost || r == Threw ==> PcOf(state, me) == Idle
      ensures r == Lost ==> !LockFits(state.core, e)
      ensures r == Threw ==> state.mutex.Some?
      ensures r == GivenBack ==>
                && PcOf(state, me).Quarantined? && PcOf(state, me).evidence == e
                && state.core.lock.None?
    {
      hide EnvOk, Inv, Others, ProtocolFilesKept, LooksDead, LockFits, Ready, Perform, NoFileFor, Fits;
      ghost var c0 := state.core;
      NoProgress(me, c0);
      AtIdle(env, state, me);
      Do(me, RequestReclaim(e));
      var began := WithLockOperationMutex(me);
      if !began {
        return Threw;
      }
      ghost var c1 := state.core;
      r := TakeMatching(me, e);
      ProgressTrans(me, c0, c1, state.core);
    }

    /** Under the mutex: compare, and take what stands at the path into quarantine. */
    method TakeMatching(me: Pid, e: Evidence) returns (r: Reclaimed)
      requires Valid(me) && PcOf(state, me) == Reclaiming(e)
      modifies this`state
      ensures Valid(me) && (r == Lost || r == GivenBack) && Progress(me, old(state).core, state.core)
      ensures r == Lost ==> PcOf(state, me) == Idle && !LockFits(state.core, e)
      ensures r == GivenBack ==>
                && PcOf(state, me).Quarantined? && PcOf(state, me).evidence == e
                && state.core.lock.None?
    {
      hide EnvOk, Inv, Others, ProtocolFilesKept, LooksDead, LockFits, Ready, Perform, NoFileFor, Fits, Progress;
      ghost var c0 := state.core;
      Interfere(me);
      AtReclaim(env, state, me);
      ghost var c1 := state.core;
      Do(me, Match);
      ProgressSame(me, c0, c1, state.core);
      if PcOf(state, me).Idle? {
        return Lost;
      }
      ghost var c2 := state.core;
      Interfere(me);
      ProgressTrans(me, c0, c2, state.core);
      AtReclaim(env, state, me);
      ghost var c3 := state.core;
      Do(me, Rename);
      ProgressSame(me, c0, c3, state.core);
      if PcOf(state, me).Idle? {
        NothingFits(state.core, e);
        return Lost;
      }
      r := GivenBack;
    }

    /**
     * For any handle of this process, released before or not, and whatever else it has acquired since. Done means
     * that the handle is released; `before` is the state in which the last primitive found the machine, and that
     * primitive emptied the path of the handle's own sentinel if it stood there, and otherwise left the path
     * alone, and everything else if the handle was released before. A failed mutex leaves all handles as they were.
     */
    method ReleaseLock(me: Pid, f: FileId) returns (done: bool, ghost before: Core)
      requires Valid(me) && PcOf(state, me).Idle? && Has(state.core, me, f)
      modifies this`state
      ensures Valid(me) && PcOf(state, me).Idle? && Mine(me, old(state).core, before)
      ensures done ==>
                && f in before.handles
                && state.core == Released(before, f).(lock := if before.lock == Some(f) then None else before.lock)
                && (old(state).core.handles[f].released ==> state.core == before)
                && (!env.aging && !old(state).core.handles[f].released ==> before.lock == Some(f))
      ensures !done ==> state.core == before && state.mutex.Some?
    {
      hide EnvOk, Inv, Others, ProtocolFilesKept, Progress, LooksDead, LockFits, Ready, Perform, NoFileFor, Fits, Mine;
      AtIdle(env, state, me);
      Do(me, RequestRelease(f));
      var began := WithLockOperationMutex(me);
      before := state.core;
      if !began {
        return false, before;
      }
      ghost var inside := state.core;
      MineHas(me, old(state).core, inside, f);
      before := RemoveOwn(me, f);
      MineTrans(me, old(state).core, inside, before);
      done := true;
    }

    /** Under the mutex: compare, and unlink what matches. */
    method RemoveOwn(me: Pid, f: FileId) returns (ghost before: Core)
      requires Valid(me) && PcOf(state, me) == Releasing(f) && Has(state.core, me, f)
      modifies this`state
      ensures Valid(me) && PcOf(state, me).Idle? && Mine(me, old(state).core, before)
      ensures f in before.handles
      ensures state.core == Released(before, f).(lock := if before.lock == Some(f) then None else before.lock)
      ensures old(state).core.handles[f].released ==> state.core == before
      ensures !env.aging && !old(state).core.handles[f].released ==> before.lock == Some(f)
    {
      hide EnvOk, Inv, Others, ProtocolFilesKept, Progress, LooksDead, LockFits, Ready, Perform, NoFileFor, Fits, Mine;
      Interfere(me);
      before := state.core;
      MineHas(me, old(state).core, before, f);
      ReleaseFacts(env, state, me, f);
      AtRelease(env, state, me);
      Do(me, CheckRelease);
      if PcOf(state, me).Idle? {
        return before;
      }
      ghost var checked := state.core;
      Interfere(me);
      MineTrans(me, old(state).core, checked, state.core);
      before := state.core;
      MineHas(me, old(state).core, before, f);
      ReleaseFacts(env, state, me, f);
      AtRelease(env, state, me);
      Do(me, Unlink);
    }
  }

  /** One new handle, and the others of this process as they were. */
  ghost predicate Gained(me: Pid, c: Core, d: Core, f: FileId) {
    && !Has(c, me, f) && Has(d, me, f)
    && (forall g | Has(c, me, g) :: Has(d, me, g) && d.handles[g] == c.handles[g])
    && (forall g | Has(d, me, g) :: Has(c, me, g) || g == f)
  }

  lemma SameThenGained(me: Pid, a: Core, b: Core, c: Core, f: FileId)
    requires SameHandles(me, a, b) && Gained(me, b, c, f)
    ensures Gained(me, a, c, f)
  {
  }

  lemma SameTrans(me: Pid, a: Core, b: Core, c: Core)
    requires SameHandles(me, a, b) && SameHandles(me, b, c)
    ensures SameHandles(me, a, c)
  {
  }

  lemma EarlierAreReleased(env: Env, c: Core, d: Core, me: Pid, f: FileId)
    requires Gained(me, c, d, f) && me in d.alive
    ensures (forall g :: Live(d, g) ==> g == f) ==> forall g | Has(c, me, g) :: c.handles[g].released
  {
    if forall g :: Live(d, g) ==> g == f {
      forall g | Has(c, me, g) ensures c.handles[g].released {
        assert Live(d, g) ==> g == f;
      }
    }
  }

  lemma MineSelf(me: Pid, c: Core)
    ensures Mine(me, c, c)
  {
  }

  /** A step of its own that moves files only. */
  lemma MineStays(me: Pid, a: Core, b: Core, c: Core)
    requires Mine(me, a, b) && c.handles == b.handles && c.verdicts == b.verdicts
    ensures Mine(me, a, c)
  {
  }

  lemma MineHandles(me: Pid, c: Core, d: Core)
    requires Mine(me, c, d)
    ensures SameHandles(me, c, d)
  {
  }

  lemma MineHas(me: Pid, c: Core, d: Core, f: FileId)
    requires Mine(me, c, d) && Has(c, me, f)
    ensures Has(d, me, f) && d.handles[f] == c.handles[f]
  {
  }

  lemma ReleaseFacts(env: Env, s: State, me: Pid, f: FileId)
    requires EnvOk(env) && Inv(env, s) && me in s.core.alive && Has(s.core, me, f)
    ensures LockFits(s.core, Claim(s.core.handles[f])) <==> s.core.lock == Some(f)
    ensures s.core.lock == Some(f) ==> !s.core.handles[f].released
    ensures !env.aging && !s.core.handles[f].released ==> s.core.lock == Some(f)
    ensures PcOf(s, me) == Unlinking(f) ==> s.core.lock == Some(f)
  {
    InvPc(env, s, me);
    CheckIsExact(env, s.core, f);
    assert HandleOk(env, s.core, f);
  }

  lemma NothingFits(c: Core, e: Evidence)
    ensures c.lock.None? ==> !LockFits(c, e)
  {
  }

  lemma KeptFile(c: Core, d: Core, f: FileId)
    requires ProtocolFilesKept(c, d) && f in c.files && c.files[f].author.Some?
    ensures f in d.files && d.files[f] == c.files[f]
  {
  }

  lemma OnlyDeathKills(env: Env, s: State, me: Pid, act: Act)
    requires Ready(env, s, me, act) && act != Die
    ensures Perform(env, s, me, act).core.alive == s.core.alive
  {
  }

  /** What an acquisition returns stands at the path at that moment, aging or not. */
  lemma FreshHandle(env: Env, s: State, me: Pid, f: FileId)
    requires EnvOk(env) && Inv(env, s) && me in s.core.alive
    requires s.core.lock == Some(f) && f in s.core.files && f in s.core.handles
    requires s.core.handles[f] == HandleFor(s.core, me)
    ensures Has(s.core, me, f) && Live(s.core, f) && LockFits(s.core, Claim(s.core.handles[f]))
    ensures !env.aging ==> forall g :: Live(s.core, g) ==> g == f
  {
    assert HandleOk(env, s.core, f);
    if !env.aging {
      SoleOwner(env, s.core, f);
    }
  }

  lemma VerifiedFacts(env: Env, s: State, me: Pid)
    requires Inv(env, s) && me in s.core.alive && PcOf(s, me).Verified?
    ensures PcOf(s, me).file !in s.core.wins && s.core.lock != Some(PcOf(s, me).file)
    ensures !env.aging ==> NoOwner(s.core)
  {
    InvPc(env, s, me);
  }

  lemma ReadingFacts(env: Env, s: State, me: Pid)
    requires Inv(env, s) && me in s.core.alive && PcOf(s, me).Reading?
    ensures s.core.lock == Some(PcOf(s, me).file) && PcOf(s, me).file in s.core.files
    ensures s.core.files[PcOf(s, me).file].content == PcOf(s, me).payload
    ensures PcOf(s, me).file !in s.core.handles
  {
    InvPc(env, s, me);
  }

  lemma WritingFacts(env: Env, s: State, me: Pid)
    requires Inv(env, s) && me in s.core.alive && PcOf(s, me).Writing?
    ensures PcOf(s, me).file in s.core.files && s.core.files[PcOf(s, me).file].author.Some?
  {
    InvPc(env, s, me);
  }

  lemma ProbeFacts(env: Env, s: State, me: Pid)
    requires Inv(env, s) && me in s.core.alive && (PcOf(s, me).ProbeOpened? || PcOf(s, me).ProbeRead?)
    ensures PcOf(s, me).file in s.core.files
  {
    InvPc(env, s, me);
  }

  lemma QuarantineFacts(env: Env, s: State, me: Pid)
    requires Inv(env, s) && me in s.core.alive && PcOf(s, me).Quarantined?
    ensures PcOf(s, me).file in s.core.files
  {
    InvPc(env, s, me);
  }
}
