/**
 * A disk with write caches. A process sees `now`; a power cut leaves, for every
 * path independently, one of the `images` that the unflushed updates allow.
 * Every primitive that src/core/fs-txn.ts uses is one operation on this state.
 */
module Disk {
  import opened Options

  // -------------------------------------------------------------------- names

  datatype Role = Before | After

  /** Paths are absolute. `Tmp(p)` is `${p}.tmp`. */
  datatype Path =
    | InRoot(dir: string, name: string)
    | Outside(name: string)
    | TxnDir(id: string)
    | JournalFile(id: string)
    | Sidecar(id: string, role: Role, index: nat)
    | Tmp(of: Path)

  datatype Dir = RootDir(dir: string) | OutsideDir | Namespace | OfTxn(id: string)

  function DirOf(p: Path): Dir {
    match p
    case InRoot(dir, _) => RootDir(dir)
    case Outside(_) => OutsideDir
    case TxnDir(_) => Namespace
    case JournalFile(id) => OfTxn(id)
    case Sidecar(id, _, _) => OfTxn(id)
    case Tmp(of) => DirOf(of)
  }

  // ----------------------------------------------------------------- contents

  datatype Content = Bytes(text: string) | Directory | JournalText(journal: Journal)

  /** A content hash; two contents with one digest are the same content. */
  datatype Digest = Digest(of: Content)

  datatype ChangeOp = Create | Update | Delete

  datatype Change = Change(path: Path, op: ChangeOp, beforeHash: Option<Digest>, afterHash: Option<Digest>)

  datatype Journal = Journal(
    version: int, kind: string, phase: string, id: string, root: string, changes: seq<Change>, payload: string)

  // --------------------------------------------------------------------- state

  /** `synced`: the bytes of this file are on the medium. */
  datatype File = File(content: Content, synced: bool)

  /** What a power cut can leave at a path; Torn stands for any content at all. */
  datatype Image = Gone | Whole(content: Content) | Torn

  datatype Slot = Slot(now: Option<File>, images: set<Image>)

  type State = map<Path, Slot>

  function At(s: State, p: Path): Slot {
    if p in s then s[p] else Slot(None, {Gone})
  }

  function ImageOf(now: Option<File>): Image {
    match now
    case None => Gone
    case Some(File(content, synced)) => if synced then Whole(content) else Torn
  }

  function Settle(slot: Slot): Slot {
    Slot(slot.now, {ImageOf(slot.now)})
  }

  /** The slot of a path whose content has reached the medium. */
  function Settled(content: Option<Content>): Slot {
    match content
    case None => Slot(None, {Gone})
    case Some(c) => Slot(Some(File(c, true)), {Whole(c)})
  }

  // ---------------------------------------------------------------- primitives

  /** What the file system under the process guarantees. */
  datatype Platform = Platform(
    dirFsync: bool,      // fsync of a directory is available and makes its entries durable
    fsyncKeepsLink: bool // it also makes the directory itself reachable after a power cut
  )

  datatype Op =
    | Mkdir(id: string)
    | Write(path: Path, content: Content)
    | Fsync(path: Path)
    | Rename(from: Path, to: Path)
    | FsyncDir(dir: Dir)
    | Unlink(path: Path)
    | Rmdir(id: string)

  predicate Flushes(pf: Platform, dir: Dir, p: Path) {
    && pf.dirFsync
    && (DirOf(p) == dir || (pf.fsyncKeepsLink && p.TxnDir? && dir == OfTxn(p.id)))
  }

  function Exec(pf: Platform, s: State, op: Op): State {
    match op
    case Mkdir(id) =>
      var slot := At(s, TxnDir(id));
      if slot.now.Some? then s
      else s[TxnDir(id) := Slot(Some(File(Directory, true)), slot.images + {Whole(Directory)})]
    case Write(p, c) => s[p := Slot(Some(File(c, false)), At(s, p).images + {Torn})]
    case Fsync(p) =>
      (match At(s, p).now
       case None => s
       case Some(f) => s[p := Slot(Some(f.(synced := true)), At(s, p).images + {Whole(f.content)})])
    case Rename(from, to) =>
      var source := At(s, from);
      if source.now.None? || from == to then s
      else s[to := Slot(source.now, At(s, to).images + {ImageOf(source.now)})]
            [from := Slot(None, source.images + {Gone})]
    case FsyncDir(dir) => map p | p in s :: if Flushes(pf, dir, p) then Settle(s[p]) else s[p]
    case Unlink(p) => s[p := Slot(None, At(s, p).images + {Gone})]
    case Rmdir(id) => s[TxnDir(id) := Slot(None, At(s, TxnDir(id)).images + {Gone})]
  }

  /** The same operations, one path at a time. */
  function Effect(pf: Platform, s: State, op: Op, q: Path): Slot {
    var slot := At(s, q);
    match op
    case Mkdir(id) =>
      if q == TxnDir(id) && slot.now.None? then Slot(Some(File(Directory, true)), slot.images + {Whole(Directory)})
      else slot
    case Write(p, c) => if q == p then Slot(Some(File(c, false)), slot.images + {Torn}) else slot
    case Fsync(p) =>
      if q == p && slot.now.Some? then
        Slot(Some(slot.now.value.(synced := true)), slot.images + {Whole(slot.now.value.content)})
      else slot
    case Rename(from, to) =>
      if At(s, from).now.None? || from == to then slot
      else if q == from then Slot(None, slot.images + {Gone})
      else if q == to then Slot(At(s, from).now, slot.images + {ImageOf(At(s, from).now)})
      else slot
    case FsyncDir(dir) => if Flushes(pf, dir, q) then Settle(slot) else slot
    case Unlink(p) => if q == p then Slot(None, slot.images + {Gone}) else slot
    case Rmdir(id) => if q == TxnDir(id) then Slot(None, slot.images + {Gone}) else slot
  }

  lemma ExecAt(pf: Platform, s: State, op: Op, q: Path)
    ensures At(Exec(pf, s, op), q) == Effect(pf, s, op, q)
  {
  }

  function Run(pf: Platform, s: State, ops: seq<Op>): State
    decreases |ops|
  {
    if ops == [] then s else Exec(pf, Run(pf, s, ops[..|ops| - 1]), ops[|ops| - 1])
  }

  lemma {:induction false} RunAppend(pf: Platform, s: State, a: seq<Op>, b: seq<Op>)
    ensures Run(pf, s, a + b) == Run(pf, Run(pf, s, a), b)
    decreases |b|
  {
    if b == [] {
      assert a + b == a;
    } else {
      var n := |b| - 1;
      RunAppend(pf, s, a, b[..n]);
      assert (a + b)[..|a + b| - 1] == a + b[..n];
    }
  }

  // --------------------------------------------------------------------- crash

  /** One image per path survives, and everything else is forgotten. */
  predicate Survives(slot: Slot, after: Slot) {
    match after.now
    case None => Gone in slot.images && after == Settled(None)
    case Some(File(c, _)) => (Whole(c) in slot.images || Torn in slot.images) && after == Settled(Some(c))
  }

  function Owner(p: Path): Option<string> {
    match p
    case JournalFile(id) => Some(id)
    case Sidecar(id, _, _) => Some(id)
    case Tmp(of) => Owner(of)
    case _ => None
  }

  lemma OwnerOfDir(p: Path)
    ensures forall id :: DirOf(p) == OfTxn(id) ==> Owner(p) == Some(id)
  {
  }

  /** The directory that a path needs did not survive. */
  predicate Lost(after: State, p: Path) {
    Owner(p).Some? && At(after, TxnDir(Owner(p).value)).now.None?
  }

  ghost predicate Crash(s: State, after: State) {
    forall p :: if Lost(after, p) then At(after, p) == Settled(None) else Survives(At(s, p), At(after, p))
  }

  // ------------------------------------------------------------ durable writes

  /** tmp write, fsync, rename, directory fsync. */
  function DurableWrite(p: Path, c: Content): seq<Op> {
    [Write(Tmp(p), c), Fsync(Tmp(p)), Rename(Tmp(p), p), FsyncDir(DirOf(p))]
  }

  lemma TmpIsAnother(p: Path)
    ensures Tmp(p) != p
  {
    assert p < Tmp(p);
  }

  /** The state after the first `k` primitives of a durable write, at any path but the temporary file. */
  function DuringWrite(pf: Platform, s: State, p: Path, c: Content, k: nat, q: Path): Slot {
    var slot := if q == p && k >= 3 then Slot(Some(File(c, true)), At(s, p).images + {Whole(c)}) else At(s, q);
    if k >= 4 && Flushes(pf, DirOf(p), q) then Settle(slot) else slot
  }

  lemma DurableWriteSteps(pf: Platform, s: State, p: Path, c: Content, k: nat, q: Path)
    requires k <= 4 && q != Tmp(p)
    ensures At(Run(pf, s, DurableWrite(p, c)[..k]), q) == DuringWrite(pf, s, p, c, k, q)
  {
    hide Exec, Run;
    TmpIsAnother(p);
    var ops := DurableWrite(p, c);
    var s1, s2, s3 := Exec(pf, s, ops[0]), Run(pf, s, ops[..2]), Run(pf, s, ops[..3]);
    RunFour(pf, s, ops);
    ExecAt(pf, s, ops[0], q);
    ExecAt(pf, s1, ops[1], q);
    ExecAt(pf, s2, ops[2], q);
    ExecAt(pf, s3, ops[3], q);
    ExecAt(pf, s, ops[0], Tmp(p));
    ExecAt(pf, s1, ops[1], Tmp(p));
  }

  lemma RunFour(pf: Platform, s: State, ops: seq<Op>)
    requires |ops| == 4
    ensures Run(pf, s, ops[..0]) == s
    ensures Run(pf, s, ops[..1]) == Exec(pf, s, ops[0])
    ensures Run(pf, s, ops[..2]) == Exec(pf, Exec(pf, s, ops[0]), ops[1])
    ensures Run(pf, s, ops[..3]) == Exec(pf, Exec(pf, Exec(pf, s, ops[0]), ops[1]), ops[2])
    ensures Run(pf, s, ops[..4]) == Exec(pf, Exec(pf, Exec(pf, Exec(pf, s, ops[0]), ops[1]), ops[2]), ops[3])
  {
    hide Exec;
    forall k: nat | k < 4 ensures Run(pf, s, ops[..k + 1]) == Exec(pf, Run(pf, s, ops[..k]), ops[k]) {
      assert ops[..k + 1][..k] == ops[..k];
    }
    assert Run(pf, s, ops[..0]) == s;
    assert Run(pf, s, ops[..0 + 1]) == Exec(pf, s, ops[0]);
    assert Run(pf, s, ops[..1 + 1]) == Exec(pf, Exec(pf, s, ops[0]), ops[1]);
    assert Run(pf, s, ops[..2 + 1]) == Exec(pf, Exec(pf, Exec(pf, s, ops[0]), ops[1]), ops[2]);
    assert Run(pf, s, ops[..3 + 1]) == Exec(pf, Exec(pf, Exec(pf, Exec(pf, s, ops[0]), ops[1]), ops[2]), ops[3]);
  }

  /** Old or new, never torn: a power cut after any primitive of the write leaves the whole old content
      or the whole new one; the old one while the rename is outstanding, and the new one once the
      directory is flushed. */
  lemma DurableWriteIsAtomic(
    pf: Platform, s: State, p: Path, prior: Option<Content>, c: Content, k: nat, after: State)
    requires k <= 4 && Owner(p).None? && At(s, p) == Settled(prior)
    requires Crash(Run(pf, s, DurableWrite(p, c)[..k]), after)
    ensures At(after, p) == Settled(prior) || At(after, p) == Settled(Some(c))
    ensures k < 3 ==> At(after, p) == Settled(prior)
    ensures k == 4 && pf.dirFsync ==> At(after, p) == Settled(Some(c))
  {
    TmpIsAnother(p);
    DurableWriteSteps(pf, s, p, c, k, p);
    assert !Lost(after, p);
    assert Survives(DuringWrite(pf, s, p, c, k, p), At(after, p));
  }

  // ------------------------------------------------ what directory fsync is for

  /** Without directory fsync no primitive ever takes a power-cut outcome away ... */
  lemma ImagesOnlyGrow(pf: Platform, s: State, op: Op, p: Path)
    requires !pf.dirFsync
    ensures At(s, p).images <= At(Exec(pf, s, op), p).images
  {
  }

  /** ... so whatever was possible before a script is still possible after all of it: nothing it wrote is
      durable, however often it called fsync on files. */
  lemma {:induction false} NothingIsDurable(pf: Platform, s: State, ops: seq<Op>, after: State)
    requires !pf.dirFsync && Crash(s, after)
    ensures Crash(Run(pf, s, ops), after)
    decreases |ops|
  {
    if ops != [] {
      var n := |ops| - 1;
      var mid := Run(pf, s, ops[..n]);
      NothingIsDurable(pf, s, ops[..n], after);
      forall p ensures At(mid, p).images <= At(Run(pf, s, ops), p).images {
        ImagesOnlyGrow(pf, mid, ops[n], p);
      }
    }
  }

  /** A finished durable write is durable exactly when directories can be flushed. */
  lemma FinishedWriteIsDurableIff(pf: Platform, s: State, p: Path, prior: Option<Content>, c: Content)
    requires Owner(p).None? && At(s, p) == Settled(prior) && prior != Some(c) && Crash(s, s)
    ensures pf.dirFsync <==>
            (forall after :: Crash(Run(pf, s, DurableWrite(p, c)), after) ==> At(after, p) == Settled(Some(c)))
  {
    var ops := DurableWrite(p, c);
    assert ops[..4] == ops;
    if pf.dirFsync {
      forall after | Crash(Run(pf, s, ops), after) ensures At(after, p) == Settled(Some(c)) {
        DurableWriteIsAtomic(pf, s, p, prior, c, 4, after);
      }
    } else {
      NothingIsDurable(pf, s, ops, s);
    }
  }

  // -------------------------------------------------------------------- frames

  predicate Writes(op: Op, p: Path) {
    match op
    case Mkdir(id) => p == TxnDir(id)
    case Write(q, _) => p == q
    case Fsync(q) => p == q
    case Rename(from, to) => p == from || p == to
    case FsyncDir(_) => false
    case Unlink(q) => p == q
    case Rmdir(id) => p == TxnDir(id)
  }

  /** A path that an operation does not write keeps its slot, or has it flushed. */
  lemma Untouched(pf: Platform, s: State, op: Op, p: Path)
    requires !Writes(op, p)
    ensures At(Exec(pf, s, op), p) == At(s, p) || At(Exec(pf, s, op), p) == Settle(At(s, p))
  {
  }

  lemma PrefixStep(pf: Platform, s: State, ops: seq<Op>, k: nat)
    requires k < |ops|
    ensures Run(pf, s, ops[..k + 1]) == Exec(pf, Run(pf, s, ops[..k]), ops[k])
  {
    assert ops[..k + 1][..k] == ops[..k];
  }
}
