/**
 * The sentinel lock of src/core/file-lock.ts as interleaved steps of processes: creation is torn, probes run
 * outside every mutex, processes die anywhere, and a writer that ignores the protocol may interfere.
 */
module FileLock {
  import opened Options

  type Pid = nat
  type FileId = nat

  // -------------------------------------------------------------------- state

  /** `author` is the payload that a cooperating acquisition is writing or has written. */
  datatype File = File(content: string, ino: nat, mtime: nat, author: Option<string>)

  datatype Identity = Identity(ino: nat, mtime: nat, size: nat)

  function IdentityOf(f: File): Identity {
    Identity(f.ino, f.mtime, |f.content|)
  }

  /** What a probe carries away: the content at one moment, the identity at another. */
  datatype Evidence = Evidence(content: string, identity: Identity)

  /** What an acquisition returns, and whether a release of it has gone through. A process may keep any number of
      handles, for its contexts acquire and release independently. */
  datatype Handle = Handle(owner: Pid, payload: string, identity: Identity, released: bool)

  /** A stale verdict, which the process that probed may act on at any later time. */
  datatype Verdict = Verdict(prober: Pid, evidence: Evidence)

  /** Where a process stands in the operation it is performing. */
  datatype Pc =
    | Idle
    | WantAcquire(payload: string)
    | Creating(payload: string)
    | Writing(payload: string, file: FileId)
    | Reading(payload: string, file: FileId)
    | ProbeOpened(file: FileId)
    | ProbeRead(file: FileId, content: string)
    | ProbeDone(seen: Evidence)
    | WantReclaim(evidence: Evidence)
    | Reclaiming(evidence: Evidence)
    | Matched(evidence: Evidence)
    | Quarantined(evidence: Evidence, file: FileId)
    | Verified(evidence: Evidence, file: FileId)
    | Restoring(evidence: Evidence, file: FileId)
    | WantRelease(file: FileId)
    | Releasing(file: FileId)
    | Unlinking(file: FileId)

  /** A reclaim that returned true: who, and on what evidence. */
  datatype Win = Win(winner: Pid, evidence: Evidence)

  /** `handles`: every handle ever returned, by the file that its acquisition made. `verdicts`: every stale
      verdict. `wins`: the files that reclaims removed. */
  datatype Core = Core(
    alive: set<Pid>,
    lock: Option<FileId>,
    files: map<FileId, File>,
    handles: map<FileId, Handle>,
    verdicts: set<Verdict>,
    wins: map<FileId, Win>)

  datatype State = State(core: Core, pcs: map<Pid, Pc>, mutex: Option<Pid>)

  function PcOf(s: State, p: Pid): Pc {
    if p in s.pcs then s.pcs[p] else Idle
  }

  /** `extract` reads the holder out of a sentinel body; `payload` holds of the bodies that cooperating
      acquisitions write: each is made once and names its process. `aging`: probes are given an age bound, so
      that any sentinel may be called stale, a live holder's included. */
  datatype Env = Env(extract: string -> Option<Pid>, payload: string -> bool, aging: bool)

  /** A complete body names a process and is not the beginning of another complete body. */
  ghost predicate EnvOk(env: Env) {
    && (forall c | env.payload(c) :: env.extract(c).Some?)
    && (forall a, b | env.payload(a) && env.payload(b) && a <= b :: a == b)
  }

  predicate InMutex(pc: Pc) {
    pc.Creating? || pc.Writing? || pc.Reading? || pc.Reclaiming? || pc.Matched? || pc.Quarantined?
    || pc.Verified? || pc.Restoring? || pc.Releasing? || pc.Unlinking?
  }

  // -------------------------------------------------------------------- steps

  /** One step of a process that takes part. */
  datatype Act =
    | Request(payload: string)
    | TakeMutex
    | GiveUp
    | Create(file: FileId, ino: nat, mtime: nat)
    | CreateExists
    | WriteMore(upTo: nat, mtime: nat)
    | WriteFails
    | Snapshot
    | SnapshotFails
    | Open
    | Read
    | Stat
    | Judge(aged: bool)
    | RequestReclaim(evidence: Evidence)
    | Match
    | Rename
    | Verify(readable: bool)
    | Restore
    | RestoreFails
    | Drop
    | RequestRelease(file: FileId)
    | CheckRelease
    | Unlink
    | Die

  /** One step of a writer that ignores the mutex; it creates with `wx` too and removes only its own file. */
  datatype Meddling =
    | ForeignCreate(file: FileId, content: string, ino: nat, mtime: nat)
    | ForeignWrite(file: FileId, content: string, mtime: nat)
    | ForeignRemove

  datatype Action = By(p: Pid, act: Act) | Foreign(meddling: Meddling)

  /** No process that is alive is named: the reasons `invalid_pid` and `pid_dead`. */
  predicate LooksDead(env: Env, alive: set<Pid>, content: string) {
    env.extract(content).None? || env.extract(content).value !in alive
  }

  predicate Fits(f: File, e: Evidence) {
    f.content == e.content && IdentityOf(f) == e.identity
  }

  /** What a successful acquisition returns: the file now at the path. */
  function HandleFor(c: Core, p: Pid): Handle
    requires c.lock.Some? && c.lock.value in c.files
  {
    var f := c.files[c.lock.value];
    Handle(p, f.content, IdentityOf(f), false)
  }

  predicate NoFileFor(c: Core, payload: string) {
    forall f | f in c.files :: c.files[f].author != Some(payload)
  }

  /** The lock path holds a file that fits the evidence. */
  predicate LockFits(c: Core, e: Evidence) {
    c.lock.Some? && c.lock.value in c.files && Fits(c.files[c.lock.value], e)
  }

  /** What a release compares the path with. */
  function Claim(h: Handle): Evidence {
    Evidence(h.payload, h.identity)
  }

  /** The process has been given this handle, and may release it, once or again. */
  predicate Has(c: Core, p: Pid, f: FileId) {
    f in c.handles && c.handles[f].owner == p
  }

  predicate AcquireReady(env: Env, s: State, p: Pid, act: Act) {
    var c := s.core;
    var pc := PcOf(s, p);
    match act
    case Request(payload) =>
      pc.Idle? && env.payload(payload) && env.extract(payload) == Some(p) && NoFileFor(c, payload)
    case TakeMutex => (pc.WantAcquire? || pc.WantReclaim? || pc.WantRelease?) && s.mutex.None?
    case GiveUp => pc.WantAcquire? || pc.WantReclaim? || pc.WantRelease?
    case Create(f, _, _) => pc.Creating? && c.lock.None? && f !in c.files
    case CreateExists => pc.Creating? && c.lock.Some?
    case WriteMore(n, _) => pc.Writing? && pc.file in c.files && |c.files[pc.file].content| <= n <= |pc.payload|
    case WriteFails => pc.Writing?
    case Snapshot => pc.Reading? && c.lock.Some? && c.lock.value in c.files
    case SnapshotFails => pc.Reading?
    case _ => false
  }

  predicate ProbeReady(env: Env, s: State, p: Pid, act: Act) {
    var c := s.core;
    var pc := PcOf(s, p);
    match act
    case Open => pc.Idle? && c.lock.Some?
    case Read => pc.ProbeOpened? && pc.file in c.files
    case Stat => pc.ProbeRead? && pc.file in c.files
    case Judge(aged) => pc.ProbeDone? && (aged ==> env.aging)
    case _ => false
  }

  predicate ReclaimReady(env: Env, s: State, p: Pid, act: Act) {
    var c := s.core;
    var pc := PcOf(s, p);
    match act
    case RequestReclaim(e) => pc.Idle? && Verdict(p, e) in c.verdicts
    case Match => pc.Reclaiming?
    case Rename => pc.Matched?
    case Verify(_) => pc.Quarantined? && pc.file in c.files
    case Restore => pc.Restoring?
    case RestoreFails => pc.Restoring?
    case Drop => pc.Verified?
    case _ => false
  }

  predicate ReleaseReady(env: Env, s: State, p: Pid, act: Act) {
    var c := s.core;
    var pc := PcOf(s, p);
    match act
    case RequestRelease(f) => pc.Idle? && Has(c, p, f)
    case CheckRelease => pc.Releasing? && Has(c, p, pc.file)
    case Unlink => pc.Unlinking? && Has(c, p, pc.file)
    case Die => true
    case _ => false
  }

  predicate Ready(env: Env, s: State, p: Pid, act: Act) {
    AcquireReady(env, s, p, act) || ProbeReady(env, s, p, act) || ReclaimReady(env, s, p, act)
    || ReleaseReady(env, s, p, act)
  }

  predicate CanMeddle(env: Env, c: Core, m: Meddling) {
    match m
    case ForeignCreate(f, content, _, _) => c.lock.None? && f !in c.files && !env.payload(content)
    case ForeignWrite(f, content, _) => f in c.files && c.files[f].author.None? && !env.payload(content)
    case ForeignRemove => c.lock.Some? && c.lock.value in c.files && c.files[c.lock.value].author.None?
  }

  predicate Enabled(env: Env, s: State, a: Action) {
    match a
    case By(p, act) => p in s.core.alive && Ready(env, s, p, act)
    case Foreign(m) => CanMeddle(env, s.core, m)
  }

  function Go(s: State, p: Pid, pc: Pc): State {
    s.(pcs := s.pcs[p := pc])
  }

  /** The operation ends, and with it the mutex. */
  function Leave(s: State, p: Pid, pc: Pc): State {
    Go(s, p, pc).(mutex := None)
  }

  function PerformAcquire(env: Env, s: State, p: Pid, act: Act): State
    requires AcquireReady(env, s, p, act)
  {
    var c := s.core;
    var pc := PcOf(s, p);
    match act
    case Request(payload) => Go(s, p, WantAcquire(payload))
    case TakeMutex =>
      Go(s, p, if pc.WantAcquire? then Creating(pc.payload)
               else if pc.WantReclaim? then Reclaiming(pc.evidence) else Releasing(pc.file)).(mutex := Some(p))
    case GiveUp => Go(s, p, Idle)
    case Create(f, ino, mtime) =>
      Go(s.(core := c.(lock := Some(f), files := c.files[f := File("", ino, mtime, Some(pc.payload))])),
         p, Writing(pc.payload, f))
    case CreateExists => Leave(s, p, Idle)
    case WriteMore(n, mtime) =>
      Go(s.(core := c.(files := c.files[pc.file := c.files[pc.file].(content := pc.payload[..n], mtime := mtime)])),
         p, if n == |pc.payload| then Reading(pc.payload, pc.file) else pc)
    case WriteFails => Leave(s, p, Idle)
    case Snapshot =>
      Leave(s.(core := c.(handles := c.handles[c.lock.value := HandleFor(c, p)])), p, Idle)
    case SnapshotFails => Leave(s.(core := c.(lock := None)), p, Idle)
  }

  function PerformProbe(env: Env, s: State, p: Pid, act: Act): State
    requires ProbeReady(env, s, p, act)
  {
    var c := s.core;
    var pc := PcOf(s, p);
    match act
    case Open => Go(s, p, ProbeOpened(c.lock.value))
    case Read => Go(s, p, ProbeRead(pc.file, c.files[pc.file].content))
    case Stat => Go(s, p, ProbeDone(Evidence(pc.content, IdentityOf(c.files[pc.file]))))
    case Judge(aged) =>
      if aged || LooksDead(env, c.alive, pc.seen.content) then
        Go(s.(core := c.(verdicts := c.verdicts + {Verdict(p, pc.seen)})), p, Idle)
      else Go(s, p, Idle)
  }

  function PerformReclaim(env: Env, s: State, p: Pid, act: Act): State
    requires ReclaimReady(env, s, p, act)
  {
    var c := s.core;
    var pc := PcOf(s, p);
    match act
    case RequestReclaim(e) => Go(s, p, WantReclaim(e))
    case Match =>
      if LockFits(c, pc.evidence) then Go(s, p, Matched(pc.evidence)) else Leave(s, p, Idle)
    case Rename =>
      if c.lock.None? then Leave(s, p, Idle)
      else Go(s.(core := c.(lock := None)), p, Quarantined(pc.evidence, c.lock.value))
    case Verify(readable) =>
      Go(s, p, if readable && Fits(c.files[pc.file], pc.evidence) then Verified(pc.evidence, pc.file)
               else Restoring(pc.evidence, pc.file))
    case Restore =>
      Leave(s.(core := c.(lock := if c.lock.None? then Some(pc.file) else c.lock)), p, Idle)
    case RestoreFails => Leave(s, p, Idle)
    case Drop => Leave(s.(core := c.(wins := c.wins[pc.file := Win(p, pc.evidence)])), p, Idle)
  }

  function Released(c: Core, f: FileId): Core
    requires f in c.handles
  {
    c.(handles := c.handles[f := c.handles[f].(released := true)])
  }

  function PerformRelease(env: Env, s: State, p: Pid, act: Act): State
    requires ReleaseReady(env, s, p, act)
  {
    var c := s.core;
    var pc := PcOf(s, p);
    match act
    case RequestRelease(f) => Go(s, p, WantRelease(f))
    case CheckRelease =>
      if LockFits(c, Claim(c.handles[pc.file])) then Go(s, p, Unlinking(pc.file))
      else Leave(s.(core := Released(c, pc.file)), p, Idle)
    case Unlink => Leave(s.(core := Released(c, pc.file).(lock := None)), p, Idle)
    case Die => s.(core := c.(alive := c.alive - {p}), mutex := if s.mutex == Some(p) then None else s.mutex)
  }

  function Perform(env: Env, s: State, p: Pid, act: Act): State
    requires Ready(env, s, p, act)
  {
    if AcquireReady(env, s, p, act) then PerformAcquire(env, s, p, act)
    else if ProbeReady(env, s, p, act) then PerformProbe(env, s, p, act)
    else if ReclaimReady(env, s, p, act) then PerformReclaim(env, s, p, act)
    else PerformRelease(env, s, p, act)
  }

  function Meddle(env: Env, c: Core, m: Meddling): Core
    requires CanMeddle(env, c, m)
  {
    match m
    case ForeignCreate(f, content, ino, mtime) =>
      c.(lock := Some(f), files := c.files[f := File(content, ino, mtime, None)])
    case ForeignWrite(f, content, mtime) =>
      c.(files := c.files[f := c.files[f].(content := content, mtime := mtime)])
    case ForeignRemove => c.(lock := None)
  }

  function Next(env: Env, s: State, a: Action): State
    requires Enabled(env, s, a)
  {
    match a
    case By(p, act) => Perform(env, s, p, act)
    case Foreign(m) => s.(core := Meddle(env, s.core, m))
  }

  // --------------------------------------------------------------------- runs

  ghost predicate Initial(env: Env, s: State) {
    && s.core.lock.None? && s.core.files == map[] && s.core.handles == map[]
    && s.core.verdicts == {} && s.core.wins == map[]
    && s.pcs == map[] && s.mutex.None?
  }

  ghost predicate Leads(env: Env, s: State, a: Action, s': State) {
    Enabled(env, s, a) && s' == Next(env, s, a)
  }

  /** An interleaving: the states passed through, and the action between each and the next. */
  ghost predicate Execution(env: Env, states: seq<State>, actions: seq<Action>) {
    && |states| == |actions| + 1
    && Initial(env, states[0])
    && forall i | 0 <= i < |actions| :: Leads(env, states[i], actions[i], states[i + 1])
  }

  // ---------------------------------------------------------------- invariant

  /** A handle that a live process has not released. */
  predicate Live(c: Core, f: FileId) {
    f in c.handles && !c.handles[f].released && c.handles[f].owner in c.alive
  }

  ghost predicate NoOwner(c: Core) {
    forall f :: !Live(c, f)
  }

  /** The file of a handle is complete and its own, for good. Live, it stands at the lock path unless holders can
      be aged out; released, it never stands there again. */
  predicate HandleOk(env: Env, c: Core, f: FileId)
    requires f in c.handles
  {
    var h := c.handles[f];
    && f in c.files && c.files[f].author == Some(h.payload) && Fits(c.files[f], Claim(h))
    && env.payload(h.payload) && env.extract(h.payload) == Some(h.owner)
    && (Live(c, f) && !env.aging ==> c.lock == Some(f))
    && (h.released ==> c.lock != Some(f))
  }

  ghost predicate Alone(env: Env, c: Core) {
    env.aging || NoOwner(c)
  }

  /** What a stale verdict means for good. */
  predicate Judged(env: Env, c: Core, e: Evidence) {
    env.aging || LooksDead(env, c.alive, e.content)
  }

  predicate FileOk(env: Env, f: File) {
    if f.author.None? then !env.payload(f.content)
    else env.payload(f.author.value) && f.content <= f.author.value
  }

  /** A removed file is off the lock path for good and is what the reclaim was meant to remove. */
  predicate WinOk(env: Env, c: Core, f: FileId, e: Evidence) {
    && f in c.files && c.lock != Some(f)
    && c.files[f].ino == e.identity.ino
    && (c.files[f].author.Some? ==> Fits(c.files[f], e))
    && (c.files[f].author.None? ==> !env.payload(e.content))
  }

  ghost predicate CoreOk(env: Env, c: Core) {
    && (c.lock.Some? ==> c.lock.value in c.files)
    && (forall f | f in c.handles :: HandleOk(env, c, f))
    && (forall v | v in c.verdicts :: Judged(env, c, v.evidence))
    && (forall f | f in c.files :: FileOk(env, c.files[f]))
    && (forall f, g | f in c.files && g in c.files && f != g && c.files[f].author.Some? ::
          c.files[f].author != c.files[g].author)
    && (forall f | f in c.wins :: WinOk(env, c, f, c.wins[f].evidence))
  }

  /** The payload is this process's own and no file was made for it yet. */
  ghost predicate Unused(env: Env, c: Core, p: Pid, payload: string) {
    && env.payload(payload) && env.extract(payload) == Some(p)
    && NoFileFor(c, payload)
  }

  /** Off the path, but not for good. */
  predicate Held(c: Core, f: FileId) {
    f in c.files && c.lock != Some(f) && f !in c.wins && (f in c.handles ==> !c.handles[f].released)
  }

  ghost predicate PcOk(env: Env, c: Core, p: Pid, pc: Pc) {
    match pc
    case WantAcquire(payload) => Unused(env, c, p, payload)
    case Creating(payload) => Unused(env, c, p, payload)
    case Writing(payload, f) =>
      && env.payload(payload) && env.extract(payload) == Some(p)
      && c.lock == Some(f) && f in c.files && c.files[f].author == Some(payload) && Alone(env, c)
      && f !in c.handles
    case Reading(payload, f) =>
      && env.payload(payload) && env.extract(payload) == Some(p)
      && c.lock == Some(f) && f in c.files && c.files[f].author == Some(payload) && Alone(env, c)
      && c.files[f].content == payload && f !in c.handles
    case ProbeOpened(f) => f in c.files
    case ProbeRead(f, _) => f in c.files
    case WantReclaim(e) => Judged(env, c, e)
    case Reclaiming(e) => Judged(env, c, e)
    case Matched(e) => Judged(env, c, e) && Alone(env, c)
    case Quarantined(e, f) => Judged(env, c, e) && Alone(env, c) && Held(c, f)
    case Restoring(e, f) => Judged(env, c, e) && Alone(env, c) && Held(c, f)
    case Verified(e, f) =>
      Judged(env, c, e) && Alone(env, c) && Held(c, f) && WinOk(env, c, f, e)
    case WantRelease(f) => Has(c, p, f)
    case Releasing(f) => Has(c, p, f)
    case Unlinking(f) => Has(c, p, f) && c.lock == Some(f) && f in c.files && c.files[f].author.Some?
    case _ => true
  }

  ghost predicate Inv(env: Env, s: State) {
    && CoreOk(env, s.core)
    && (forall p | p in s.core.alive :: PcOk(env, s.core, p, PcOf(s, p)))
    && (forall p | p in s.core.alive :: InMutex(PcOf(s, p)) <==> s.mutex == Some(p))
    && (s.mutex.Some? ==> s.mutex.value in s.core.alive)
  }

  // ------------------------------------------------------------ preservation

  /** A step that moves only the control of one process. */
  lemma ControlStep(env: Env, s: State, p: Pid, pc: Pc, mutex: Option<Pid>)
    requires Inv(env, s) && p in s.core.alive
    requires PcOk(env, s.core, p, pc)
    requires InMutex(pc) <==> mutex == Some(p)
    requires mutex == s.mutex || (s.mutex == Some(p) && mutex == None) || (s.mutex == None && mutex == Some(p))
    ensures Inv(env, Go(s, p, pc).(mutex := mutex))
  {
    hide PcOk, CoreOk;
  }

  /** Facts about the state that no step outside the mutex can lose. */
  ghost predicate Extends(c: Core, d: Core) {
    && d.alive <= c.alive
    && (forall f | f in c.files :: f in d.files)
    && (forall f | f in c.handles :: f in d.handles && d.handles[f].owner == c.handles[f].owner)
  }

  /** What a process outside the mutex relies on survives what the holder does. */
  lemma OutsideStays(env: Env, c: Core, d: Core, q: Pid, pc: Pc)
    requires PcOk(env, c, q, pc) && !InMutex(pc) && Extends(c, d)
    requires forall f, payload | f in d.files && d.files[f].author == Some(payload) ::
               (f in c.files && c.files[f].author == Some(payload)) || env.extract(payload) != Some(q)
    ensures PcOk(env, d, q, pc)
  {
    hide NoOwner, Alone, WinOk;
    if pc.WantAcquire? {
      forall f | f in d.files ensures d.files[f].author != Some(pc.payload) {
        assert f in c.files ==> c.files[f].author != Some(pc.payload);
      }
    }
  }

  /** A step of the mutex holder that changes the files, the path or a handle. */
  lemma HolderStep(env: Env, s: State, p: Pid, d: Core, pc: Pc, mutex: Option<Pid>)
    requires Inv(env, s) && s.mutex == Some(p)
    requires d.alive == s.core.alive && CoreOk(env, d) && PcOk(env, d, p, pc)
    requires Extends(s.core, d)
    requires forall f, payload | f in d.files && d.files[f].author == Some(payload) ::
               (f in s.core.files && s.core.files[f].author == Some(payload)) || env.extract(payload) == Some(p)
    requires mutex == if InMutex(pc) then Some(p) else None
    ensures Inv(env, Go(s.(core := d), p, pc).(mutex := mutex))
  {
    hide PcOk, CoreOk;
    forall q | q in d.alive && q != p ensures PcOk(env, d, q, PcOf(s, q)) {
      OutsideStays(env, s.core, d, q, PcOf(s, q));
    }
  }

  function WithNewFile(c: Core, f: FileId, file: File): Core {
    c.(lock := Some(f), files := c.files[f := file])
  }

  lemma CreateKeeps(env: Env, c: Core, f: FileId, file: File)
    requires CoreOk(env, c) && c.lock.None? && f !in c.files && FileOk(env, file) && Alone(env, c)
    requires file.author.Some? && NoFileFor(c, file.author.value)
    ensures CoreOk(env, WithNewFile(c, f, file)) && f !in c.handles && Alone(env, WithNewFile(c, f, file))
  {
    var d := WithNewFile(c, f, file);
    assert forall g :: Live(d, g) <==> Live(c, g);
    forall g | g in d.handles ensures HandleOk(env, d, g) && g != f {
      assert HandleOk(env, c, g);
    }
    forall g | g in d.wins ensures WinOk(env, d, g, d.wins[g].evidence) {
      assert WinOk(env, c, g, c.wins[g].evidence);
    }
  }

  lemma EmptyPathIsUnowned(env: Env, c: Core)
    requires CoreOk(env, c) && c.lock.None?
    ensures Alone(env, c)
  {
    forall f ensures Live(c, f) ==> env.aging {
      assert Live(c, f) ==> HandleOk(env, c, f);
    }
  }

  lemma CreateStep(env: Env, s: State, p: Pid, act: Act)
    requires EnvOk(env) && Inv(env, s) && p in s.core.alive && Ready(env, s, p, act) && act.Create?
    ensures Inv(env, Perform(env, s, p, act))
  {
    hide CoreOk, NoOwner;
    var payload := PcOf(s, p).payload;
    var file := File("", act.ino, act.mtime, Some(payload));
    InvPc(env, s, p);
    EmptyPathIsUnowned(env, s.core);
    CreateKeeps(env, s.core, act.file, file);
    HolderStep(env, s, p, WithNewFile(s.core, act.file, file), Writing(payload, act.file), Some(p));
  }

  lemma WriteKeeps(env: Env, c: Core, f: FileId, file: File)
    requires CoreOk(env, c) && f in c.files && f !in c.handles && FileOk(env, file) && c.lock == Some(f)
    requires file.author == c.files[f].author && file.ino == c.files[f].ino && file.author.Some?
    ensures CoreOk(env, c.(files := c.files[f := file]))
    ensures Alone(env, c) ==> Alone(env, c.(files := c.files[f := file]))
  {
    var d := c.(files := c.files[f := file]);
    assert forall g :: Live(d, g) <==> Live(c, g);
    forall g | g in d.handles ensures HandleOk(env, d, g) {
      assert HandleOk(env, c, g);
    }
    forall g | g in d.wins ensures WinOk(env, d, g, d.wins[g].evidence) {
      assert WinOk(env, c, g, c.wins[g].evidence);
    }
  }

  lemma WriteStep(env: Env, s: State, p: Pid, act: Act)
    requires EnvOk(env) && Inv(env, s) && p in s.core.alive && Ready(env, s, p, act) && act.WriteMore?
    ensures Inv(env, Perform(env, s, p, act))
  {
    hide CoreOk, NoOwner;
    var pc := PcOf(s, p);
    InvPc(env, s, p);
    var file := s.core.files[pc.file].(content := pc.payload[..act.upTo], mtime := act.mtime);
    var d := s.core.(files := s.core.files[pc.file := file]);
    assert pc.payload[..|pc.payload|] == pc.payload;
    WriteKeeps(env, s.core, pc.file, file);
    HolderStep(env, s, p, d, if act.upTo == |pc.payload| then Reading(pc.payload, pc.file) else pc, Some(p));
  }

  /** Nobody relies on the path, so it may be emptied. */
  lemma EmptyingStays(env: Env, c: Core)
    requires CoreOk(env, c) && Alone(env, c)
    ensures CoreOk(env, c.(lock := None)) && Alone(env, c.(lock := None))
  {
    var d := c.(lock := None);
    assert forall g :: Live(d, g) <==> Live(c, g);
    forall g | g in d.handles ensures HandleOk(env, d, g) {
      assert HandleOk(env, c, g);
    }
    forall f | f in d.wins ensures WinOk(env, d, f, d.wins[f].evidence) {
      assert WinOk(env, c, f, c.wins[f].evidence);
    }
  }

  function WithHandle(c: Core, f: FileId, h: Handle): Core {
    c.(handles := c.handles[f := h])
  }

  lemma SnapshotKeeps(env: Env, c: Core, p: Pid, f: FileId)
    requires CoreOk(env, c) && Alone(env, c) && c.lock == Some(f) && f in c.files && f !in c.handles
    requires c.files[f].author == Some(c.files[f].content)
    requires env.payload(c.files[f].content) && env.extract(c.files[f].content) == Some(p)
    ensures CoreOk(env, WithHandle(c, f, HandleFor(c, p)))
  {
    var d := WithHandle(c, f, HandleFor(c, p));
    assert HandleOk(env, d, f);
    forall g | g in d.handles && g != f ensures HandleOk(env, d, g) {
      assert HandleOk(env, c, g) && (Live(d, g) ==> Live(c, g));
    }
    forall g | g in d.wins ensures WinOk(env, d, g, d.wins[g].evidence) {
      assert WinOk(env, c, g, c.wins[g].evidence);
    }
  }

  lemma SnapshotStep(env: Env, s: State, p: Pid, act: Act)
    requires EnvOk(env) && Inv(env, s) && p in s.core.alive && Ready(env, s, p, act)
    requires act.Snapshot? || act.SnapshotFails?
    ensures Inv(env, Perform(env, s, p, act))
  {
    hide CoreOk, NoOwner;
    var f := PcOf(s, p).file;
    InvPc(env, s, p);
    if act.SnapshotFails? {
      EmptyingStays(env, s.core);
      HolderStep(env, s, p, s.core.(lock := None), Idle, None);
    } else {
      SnapshotKeeps(env, s.core, p, f);
      HolderStep(env, s, p, WithHandle(s.core, f, HandleFor(s.core, p)), Idle, None);
    }
  }

  lemma OwnerIsNamed(env: Env, c: Core, f: FileId)
    requires CoreOk(env, c) && !env.aging && Live(c, f)
    ensures c.lock == Some(f) && f in c.files && env.extract(c.files[f].content) == Some(c.handles[f].owner)
  {
    assert HandleOk(env, c, f);
  }

  /** Without aging the match cannot be with a live owner's sentinel: its body would name a process that is
      alive. */
  lemma MatchMeansNoOwner(env: Env, c: Core, e: Evidence)
    requires CoreOk(env, c) && Judged(env, c, e) && LockFits(c, e)
    ensures Alone(env, c)
  {
    if !env.aging {
      forall f ensures !Live(c, f) {
        if Live(c, f) {
          OwnerIsNamed(env, c, f);
        }
      }
    }
  }

  lemma ReclaimStep(env: Env, s: State, p: Pid, act: Act)
    requires EnvOk(env) && Inv(env, s) && p in s.core.alive && Ready(env, s, p, act)
    requires act.Match? || act.Rename? || act.Verify? || act.Restore? || act.RestoreFails? || act.Drop?
    ensures Inv(env, Perform(env, s, p, act))
  {
    hide CoreOk, FileOk;
    var pc := PcOf(s, p);
    var c := s.core;
    assert PcOk(env, c, p, pc);
    match act {
      case Match =>
        if LockFits(c, pc.evidence) {
          MatchMeansNoOwner(env, c, pc.evidence);
          ControlStep(env, s, p, Matched(pc.evidence), Some(p));
        } else {
          ControlStep(env, s, p, Idle, None);
        }
      case Rename =>
        if c.lock.None? {
          ControlStep(env, s, p, Idle, None);
        } else {
          RenameStep(env, s, p, pc);
        }
      case Verify(readable) =>
        VerifyStep(env, s, p, pc, readable);
      case Restore =>
        RestoreKeeps(env, c, pc.file);
        HolderStep(env, s, p, c.(lock := if c.lock.None? then Some(pc.file) else c.lock), Idle, None);
      case RestoreFails =>
        ControlStep(env, s, p, Idle, None);
      case Drop =>
        DropKeeps(env, c, pc.file, Win(p, pc.evidence));
        HolderStep(env, s, p, c.(wins := c.wins[pc.file := Win(p, pc.evidence)]), Idle, None);
    }
  }

  lemma RenameStep(env: Env, s: State, p: Pid, pc: Pc)
    requires Inv(env, s) && p in s.core.alive && PcOf(s, p) == pc && pc.Matched? && s.core.lock.Some?
    ensures Inv(env, Go(s.(core := s.core.(lock := None)), p, Quarantined(pc.evidence, s.core.lock.value)))
  {
    var c := s.core;
    assert PcOk(env, c, p, pc);
    EmptyingStays(env, c);
    assert c.lock.value !in c.wins by {
      assert c.lock.value in c.wins ==> WinOk(env, c, c.lock.value, c.wins[c.lock.value].evidence);
    }
    hide CoreOk;
    assert c.lock.value in c.files by { LockIsAFile(env, c); }
    HolderStep(env, s, p, c.(lock := None), Quarantined(pc.evidence, c.lock.value), Some(p));
  }

  lemma LockIsAFile(env: Env, c: Core)
    requires CoreOk(env, c) && c.lock.Some?
    ensures c.lock.value in c.files
  {
  }

  lemma VerifyStep(env: Env, s: State, p: Pid, pc: Pc, readable: bool)
    requires Inv(env, s) && p in s.core.alive && PcOf(s, p) == pc && pc.Quarantined?
    requires pc.file in s.core.files
    ensures var next := if readable && Fits(s.core.files[pc.file], pc.evidence) then Verified(pc.evidence, pc.file)
                        else Restoring(pc.evidence, pc.file);
            Inv(env, Go(s, p, next))
  {
    var c := s.core;
    assert PcOk(env, c, p, pc);
    assert FileOk(env, c.files[pc.file]);
    hide CoreOk;
    if readable && Fits(c.files[pc.file], pc.evidence) {
      ControlStep(env, s, p, Verified(pc.evidence, pc.file), Some(p));
    } else {
      ControlStep(env, s, p, Restoring(pc.evidence, pc.file), Some(p));
    }
  }

  lemma RestoreKeeps(env: Env, c: Core, f: FileId)
    requires CoreOk(env, c) && Alone(env, c) && Held(c, f)
    ensures CoreOk(env, c.(lock := if c.lock.None? then Some(f) else c.lock))
  {
    var d := c.(lock := if c.lock.None? then Some(f) else c.lock);
    assert forall g :: Live(d, g) <==> Live(c, g);
    forall g | g in d.handles ensures HandleOk(env, d, g) {
      assert HandleOk(env, c, g);
    }
    forall g | g in d.wins ensures WinOk(env, d, g, d.wins[g].evidence) {
      assert WinOk(env, c, g, c.wins[g].evidence);
    }
  }

  lemma DropKeeps(env: Env, c: Core, f: FileId, w: Win)
    requires CoreOk(env, c) && WinOk(env, c, f, w.evidence)
    ensures CoreOk(env, c.(wins := c.wins[f := w]))
  {
    var d := c.(wins := c.wins[f := w]);
    assert forall g :: Live(d, g) <==> Live(c, g);
    forall g | g in d.handles ensures HandleOk(env, d, g) {
      assert HandleOk(env, c, g);
    }
    forall g | g in d.wins ensures WinOk(env, d, g, d.wins[g].evidence) {
      assert g != f ==> WinOk(env, c, g, c.wins[g].evidence);
    }
  }

  /** A complete body is in one file only: the one that was made with it. */
  lemma CompleteBodyIsOneFile(env: Env, c: Core, f: FileId, g: FileId)
    requires EnvOk(env) && CoreOk(env, c) && f in c.files && g in c.files
    requires env.payload(c.files[f].content) && c.files[g].content == c.files[f].content
    ensures f == g && c.files[f].author == Some(c.files[f].content)
  {
    assert FileOk(env, c.files[f]) && FileOk(env, c.files[g]);
  }

  /** Releasing a handle, and with it perhaps its sentinel, takes nothing from anyone else. */
  lemma ReleaseKeeps(env: Env, c: Core, f: FileId)
    requires CoreOk(env, c) && f in c.handles
    ensures c.lock == Some(f) ==> CoreOk(env, Released(c, f).(lock := None))
    ensures c.lock != Some(f) ==> CoreOk(env, Released(c, f))
  {
    var d := Released(c, f).(lock := if c.lock == Some(f) then None else c.lock);
    forall g | g in d.handles ensures HandleOk(env, d, g) {
      assert HandleOk(env, c, g) && HandleOk(env, c, f) && (Live(d, g) ==> Live(c, g) && g != f);
    }
    forall g | g in d.wins ensures WinOk(env, d, g, d.wins[g].evidence) {
      assert WinOk(env, c, g, c.wins[g].evidence);
    }
  }

  /** The comparison holds exactly while the handle's own sentinel stands at the path: never for a handle that was
      released before, and never for a successor's sentinel. */
  lemma CheckIsExact(env: Env, c: Core, f: FileId)
    requires EnvOk(env) && CoreOk(env, c) && f in c.handles
    ensures LockFits(c, Claim(c.handles[f])) <==> c.lock == Some(f)
    ensures c.lock == Some(f) ==> !c.handles[f].released && f in c.files && c.files[f].author.Some?
  {
    assert HandleOk(env, c, f);
    if LockFits(c, Claim(c.handles[f])) {
      CompleteBodyIsOneFile(env, c, f, c.lock.value);
    }
  }

  lemma ReleaseStep(env: Env, s: State, p: Pid, act: Act)
    requires EnvOk(env) && Inv(env, s) && p in s.core.alive && Ready(env, s, p, act)
    requires act.CheckRelease? || act.Unlink?
    ensures Inv(env, Perform(env, s, p, act))
  {
    hide CoreOk;
    var c := s.core;
    var f := PcOf(s, p).file;
    assert PcOk(env, c, p, PcOf(s, p));
    CheckIsExact(env, c, f);
    if act.CheckRelease? && c.lock == Some(f) {
      ControlStep(env, s, p, Unlinking(f), Some(p));
    } else {
      var lock := if act.Unlink? then None else c.lock;
      ReleaseKeeps(env, c, f);
      HolderStep(env, s, p, Released(c, f).(lock := lock), Idle, None);
    }
  }

  /** Two live handles would both claim the one sentinel at the path. */
  lemma SoleOwner(env: Env, c: Core, f: FileId)
    requires CoreOk(env, c) && Live(c, f) && !env.aging
    ensures forall g :: Live(c, g) ==> g == f
  {
    forall g | Live(c, g) ensures g == f {
      assert HandleOk(env, c, f) && HandleOk(env, c, g);
    }
  }

  lemma DyingKeeps(env: Env, c: Core, p: Pid)
    requires CoreOk(env, c)
    ensures CoreOk(env, c.(alive := c.alive - {p}))
  {
    var d := c.(alive := c.alive - {p});
    assert forall g :: Live(d, g) ==> Live(c, g);
    forall g | g in d.handles ensures HandleOk(env, d, g) {
      assert HandleOk(env, c, g);
    }
    forall f | f in d.wins ensures WinOk(env, d, f, d.wins[f].evidence) {
      assert WinOk(env, c, f, c.wins[f].evidence);
    }
  }

  lemma DieStep(env: Env, s: State, p: Pid)
    requires EnvOk(env) && Inv(env, s) && p in s.core.alive
    ensures Inv(env, Perform(env, s, p, Die))
  {
    hide CoreOk, PcOk;
    var d := s.core.(alive := s.core.alive - {p});
    DyingKeeps(env, s.core, p);
    forall q | q in d.alive ensures PcOk(env, d, q, PcOf(s, q)) {
      InvPc(env, s, q);
      DyingKeepsPc(env, s.core, p, q, PcOf(s, q));
    }
  }

  lemma DyingKeepsPc(env: Env, c: Core, p: Pid, q: Pid, pc: Pc)
    requires PcOk(env, c, q, pc)
    ensures PcOk(env, c.(alive := c.alive - {p}), q, pc)
  {
    var d := c.(alive := c.alive - {p});
    assert forall g :: Live(d, g) ==> Live(c, g);
  }

  // ---------------------------------------------- the writer that does not cooperate

  ghost predicate OnlyForeign(env: Env, c: Core, d: Core) {
    && d == c.(lock := d.lock, files := d.files)
    && (forall f | f in c.files ::
          && f in d.files && d.files[f].author == c.files[f].author && d.files[f].ino == c.files[f].ino
          && (c.files[f].author.Some? ==> d.files[f] == c.files[f]))
    && (forall f | f in d.files && f !in c.files :: d.files[f].author.None?)
    && (forall f | f in d.files && d.files[f].author.None? :: !env.payload(d.files[f].content))
    && (c.lock.Some? && c.lock.value in c.files && c.files[c.lock.value].author.Some? ==> d.lock == c.lock)
    && (d.lock.Some? ==> d.lock.value in d.files && (d.lock == c.lock || d.lock.value !in c.files))
  }

  /** A foreign write touches no file of the protocol, so it hurts nobody who takes part. */
  lemma ForeignKeepsPc(env: Env, c: Core, d: Core, q: Pid, pc: Pc)
    requires PcOk(env, c, q, pc)
    requires OnlyForeign(env, c, d)
    ensures PcOk(env, d, q, pc)
  {
    assert forall g :: Live(d, g) <==> Live(c, g);
    if pc.WantAcquire? || pc.Creating? {
      forall f | f in d.files ensures d.files[f].author != Some(pc.payload) {
        assert f in c.files ==> c.files[f].author != Some(pc.payload);
      }
    }
  }

  lemma ForeignCore(env: Env, c: Core, d: Core)
    requires CoreOk(env, c)
    requires OnlyForeign(env, c, d)
    ensures CoreOk(env, d)
  {
    assert forall g :: Live(d, g) <==> Live(c, g);
    forall g | g in d.handles ensures HandleOk(env, d, g) {
      assert HandleOk(env, c, g);
    }
    forall f | f in d.files ensures FileOk(env, d.files[f]) {
      assert f in c.files ==> FileOk(env, c.files[f]);
    }
    forall f | f in d.wins ensures WinOk(env, d, f, d.wins[f].evidence) {
      assert WinOk(env, c, f, c.wins[f].evidence);
    }
  }

  lemma MeddlingIsForeign(env: Env, c: Core, m: Meddling)
    requires CoreOk(env, c) && CanMeddle(env, c, m)
    ensures OnlyForeign(env, c, Meddle(env, c, m))
  {
    assert forall f | f in c.files :: FileOk(env, c.files[f]);
  }

  lemma ForeignStep(env: Env, s: State, m: Meddling)
    requires EnvOk(env) && Inv(env, s) && CanMeddle(env, s.core, m)
    ensures Inv(env, s.(core := Meddle(env, s.core, m)))
  {
    hide CoreOk, OnlyForeign, PcOk;
    var c, d := s.core, Meddle(env, s.core, m);
    MeddlingIsForeign(env, c, m);
    ForeignCore(env, c, d);
    assert d.alive == c.alive;
    forall q | q in d.alive ensures PcOk(env, d, q, PcOf(s, q)) {
      ForeignKeepsPc(env, c, d, q, PcOf(s, q));
    }
  }

  // -------------------------------------------------------- steps outside

  lemma QueueStep(env: Env, s: State, p: Pid, act: Act)
    requires EnvOk(env) && Inv(env, s) && p in s.core.alive && Ready(env, s, p, act)
    requires act.Request? || act.TakeMutex? || act.GiveUp? || act.CreateExists? || act.WriteFails?
    ensures Inv(env, Perform(env, s, p, act))
  {
    hide CoreOk, NoOwner, Alone, WinOk;
    var s' := Perform(env, s, p, act);
    InvPc(env, s, p);
    ControlStep(env, s, p, PcOf(s', p), s'.mutex);
  }

  lemma ProbeStep(env: Env, s: State, p: Pid, act: Act)
    requires EnvOk(env) && Inv(env, s) && p in s.core.alive && Ready(env, s, p, act)
    requires act.Open? || act.Read? || act.Stat?
    ensures Inv(env, Perform(env, s, p, act))
  {
    hide CoreOk, NoOwner, Alone, WinOk;
    var s' := Perform(env, s, p, act);
    InvPc(env, s, p);
    if act.Open? {
      LockIsAFile(env, s.core);
    }
    ControlStep(env, s, p, PcOf(s', p), s'.mutex);
  }

  lemma VerdictKeeps(env: Env, c: Core, v: Verdict)
    requires CoreOk(env, c) && Judged(env, c, v.evidence)
    ensures CoreOk(env, c.(verdicts := c.verdicts + {v}))
  {
    var d := c.(verdicts := c.verdicts + {v});
    assert forall g :: Live(d, g) <==> Live(c, g);
    forall g | g in d.handles ensures HandleOk(env, d, g) {
      assert HandleOk(env, c, g);
    }
    forall f | f in d.wins ensures WinOk(env, d, f, d.wins[f].evidence) {
      assert WinOk(env, c, f, c.wins[f].evidence);
    }
  }

  lemma VerdictKeepsPc(env: Env, c: Core, verdicts: set<Verdict>, q: Pid, pc: Pc)
    requires PcOk(env, c, q, pc)
    ensures PcOk(env, c.(verdicts := verdicts), q, pc)
  {
    assert forall g :: Live(c.(verdicts := verdicts), g) <==> Live(c, g);
  }

  lemma JudgeStep(env: Env, s: State, p: Pid, act: Act)
    requires EnvOk(env) && Inv(env, s) && p in s.core.alive && Ready(env, s, p, act) && act.Judge?
    ensures Inv(env, Perform(env, s, p, act))
  {
    hide CoreOk, PcOk;
    var seen := PcOf(s, p).seen;
    ControlStep(env, s, p, Idle, s.mutex) by { IdleIsOk(env, s.core, p); }
    if act.aged || LooksDead(env, s.core.alive, seen.content) {
      var d := s.core.(verdicts := s.core.verdicts + {Verdict(p, seen)});
      VerdictKeeps(env, s.core, Verdict(p, seen));
      var s' := Go(s, p, Idle).(core := d);
      forall q | q in d.alive ensures PcOk(env, d, q, PcOf(s', q)) {
        InvPc(env, Go(s, p, Idle), q);
        VerdictKeepsPc(env, s.core, d.verdicts, q, PcOf(s', q));
      }
    }
  }

  lemma IdleIsOk(env: Env, c: Core, p: Pid)
    ensures PcOk(env, c, p, Idle)
  {
  }

  lemma AskStep(env: Env, s: State, p: Pid, act: Act)
    requires EnvOk(env) && Inv(env, s) && p in s.core.alive && Ready(env, s, p, act)
    requires act.RequestReclaim? || act.RequestRelease?
    ensures Inv(env, Perform(env, s, p, act))
  {
    hide CoreOk, NoOwner, Alone, WinOk;
    var s' := Perform(env, s, p, act);
    if act.RequestReclaim? {
      VerdictIsJudged(env, s.core, Verdict(p, act.evidence));
    }
    ControlStep(env, s, p, PcOf(s', p), s'.mutex);
  }

  lemma VerdictIsJudged(env: Env, c: Core, v: Verdict)
    requires CoreOk(env, c) && v in c.verdicts
    ensures Judged(env, c, v.evidence)
  {
  }

  lemma PerformKeepsInv(env: Env, s: State, p: Pid, act: Act)
    requires EnvOk(env) && Inv(env, s) && p in s.core.alive && Ready(env, s, p, act)
    ensures Inv(env, Perform(env, s, p, act))
  {
    hide Inv, Ready, Perform;
    match act {
      case Create(_, _, _) => CreateStep(env, s, p, act);
      case WriteMore(_, _) => WriteStep(env, s, p, act);
      case Snapshot => SnapshotStep(env, s, p, act);
      case SnapshotFails => SnapshotStep(env, s, p, act);
      case Match => ReclaimStep(env, s, p, act);
      case Rename => ReclaimStep(env, s, p, act);
      case Verify(_) => ReclaimStep(env, s, p, act);
      case Restore => ReclaimStep(env, s, p, act);
      case RestoreFails => ReclaimStep(env, s, p, act);
      case Drop => ReclaimStep(env, s, p, act);
      case CheckRelease => ReleaseStep(env, s, p, act);
      case Unlink => ReleaseStep(env, s, p, act);
      case Die => DieStep(env, s, p);
      case RequestReclaim(_) => AskStep(env, s, p, act);
      case RequestRelease(_) => AskStep(env, s, p, act);
      case Open => ProbeStep(env, s, p, act);
      case Read => ProbeStep(env, s, p, act);
      case Stat => ProbeStep(env, s, p, act);
      case Judge(_) => JudgeStep(env, s, p, act);
      case _ => QueueStep(env, s, p, act);
    }
  }

  /** The protocol's invariant is kept by every step of everyone. */
  lemma StepKeepsInv(env: Env, s: State, a: Action)
    requires EnvOk(env) && Inv(env, s) && Enabled(env, s, a)
    ensures Inv(env, Next(env, s, a))
  {
    hide Inv, Ready, Perform, CanMeddle, Meddle;
    match a {
      case By(p, act) => PerformKeepsInv(env, s, p, act);
      case Foreign(m) => ForeignStep(env, s, m);
    }
  }

  lemma {:induction false} ReachableInv(env: Env, states: seq<State>, actions: seq<Action>, i: nat)
    requires EnvOk(env) && Execution(env, states, actions) && i < |states|
    ensures Inv(env, states[i])
  {
    hide Inv, Enabled, Next, EnvOk;
    if i == 0 {
      InitialInv(env, states[0]);
    } else {
      ReachableInv(env, states, actions, i - 1);
      assert Leads(env, states[i - 1], actions[i - 1], states[i]);
      StepKeepsInv(env, states[i - 1], actions[i - 1]);
    }
  }

  lemma InitialInv(env: Env, s: State)
    requires Initial(env, s)
    ensures Inv(env, s)
  {
  }

  lemma InvPc(env: Env, s: State, p: Pid)
    requires Inv(env, s) && p in s.core.alive
    ensures PcOk(env, s.core, p, PcOf(s, p))
  {
  }
}
