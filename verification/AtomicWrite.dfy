/**
 * `writeFileAtomic` of src/core/common.ts:166-235: every system call may fail, and a write may be short.
 * Whatever happens, and whenever the power is cut, the target is the whole old or the whole new content.
 */
module AtomicWrite {
  import opened Options
  import opened Disk
  import opened FsTxnEngine

  datatype Errno = EEXIST | ENOENT | EINVAL | ENOTSUP | EIO | NoProgress

  /** The kernel's answer to one system call; `Did(n)` carries the count of a write. */
  datatype Reply = Did(n: int) | Failed(errno: Errno)

  /** A kernel: a file system, and the answers it will give in order. */
  class Kernel {
    const fs: FileSystem
    const replies: nat -> Reply
    var calls: nat

    constructor (fs: FileSystem, replies: nat -> Reply)
      ensures this.fs == fs && this.replies == replies && calls == 0
    {
      this.fs, this.replies, this.calls := fs, replies, 0;
    }

    method Call() returns (r: Reply)
      modifies this
      ensures r == replies(old(calls)) && calls == old(calls) + 1
    {
      r := replies(calls);
      calls := calls + 1;
    }
  }

  // ---------------------------------------------------------- old or new

  /** Before the rename, between rename and flush, and after the flush. */
  predicate OldOrNew(slot: Slot, prior: Option<Content>, next: Content) {
    || slot == Settled(prior)
    || slot == Slot(Some(File(next, true)), Settled(prior).images + {Whole(next)})
    || slot == Settled(Some(next))
  }

  lemma OldOrNewAfterCrash(s: State, target: Path, prior: Option<Content>, next: Content, after: State)
    requires Owner(target).None? && OldOrNew(At(s, target), prior, next) && Crash(s, after)
    ensures At(after, target) == Settled(prior) || At(after, target) == Settled(Some(next))
  {
    assert !Lost(after, target) && Survives(At(s, target), At(after, target));
  }

  /** At every primitive from position `from` on, the target can only be old or new. */
  ghost predicate NeverTorn(fs: FileSystem, from: nat, target: Path, prior: Option<Content>, next: Content)
    reads fs
  {
    forall k | from <= k <= |fs.log| :: OldOrNew(At(Run(fs.pf, fs.start, fs.log[..k]), target), prior, next)
  }

  /** One more primitive, after which the target is still old or new. */
  method Step(fs: FileSystem, op: Op, ghost from: nat, target: Path, ghost prior: Option<Content>, ghost next: Content)
    requires fs.Valid() && from <= |fs.log| && NeverTorn(fs, from, target, prior, next)
    requires OldOrNew(Effect(fs.pf, fs.disk, op, target), prior, next)
    modifies fs
    ensures fs.Valid() && fs.log == old(fs.log) + [op] && fs.disk == Exec(fs.pf, old(fs.disk), op)
    ensures NeverTorn(fs, from, target, prior, next)
    ensures At(fs.disk, target) == Effect(fs.pf, old(fs.disk), op, target)
    ensures At(fs.disk, Tmp(target)) == Effect(fs.pf, old(fs.disk), op, Tmp(target))
  {
    hide Exec, Run, Effect, OldOrNew;
    ghost var was := fs.log;
    fs.Do(op);
    ExecAt(fs.pf, old(fs.disk), op, target);
    ExecAt(fs.pf, old(fs.disk), op, Tmp(target));
    forall k | from <= k <= |fs.log| ensures OldOrNew(At(Run(fs.pf, fs.start, fs.log[..k]), target), prior, next) {
      if k <= |was| {
        assert fs.log[..k] == was[..k];
      } else {
        assert fs.log[..k] == fs.log;
      }
    }
  }

  /** A primitive on the temporary file leaves the target alone. */
  method StepOnTmp(
    fs: FileSystem, op: Op, ghost from: nat, target: Path, ghost prior: Option<Content>, ghost next: Content)
    requires fs.Valid() && from <= |fs.log| && NeverTorn(fs, from, target, prior, next)
    requires At(fs.disk, target) == Settled(prior)
    requires op.Write? || op.Fsync? || op.Unlink?
    requires op.path == Tmp(target)
    modifies fs
    ensures fs.Valid() && |fs.log| == |old(fs.log)| + 1 && NeverTorn(fs, from, target, prior, next)
    ensures At(fs.disk, target) == Settled(prior)
    ensures At(fs.disk, Tmp(target)) == Effect(fs.pf, old(fs.disk), op, Tmp(target))
  {
    hide Exec, Run, NeverTorn;
    TmpIsAnother(target);
    Step(fs, op, from, target, prior, next);
  }

  /** Directories cannot be flushed here; the write still counts as done. */
  predicate NoDirFsync(reply: Reply) {
    reply == Failed(EINVAL) || reply == Failed(ENOTSUP)
  }

  /** One of these calls is why: it failed with this error, or it was a write that made no progress. */
  ghost predicate Explains(replies: nat -> Reply, from: nat, to: nat, error: Errno) {
    exists i :: from <= i < to
      && (replies(i) == Failed(error) || (error == NoProgress && replies(i).Did? && replies(i).n <= 0))
  }

  /** How the write ended; `leftover`: the temporary file could not be removed. */
  datatype Ending = Ending(error: Option<Errno>, renamed: bool, flushed: bool, leftover: bool)

  /** A short write is continued where it stopped, and a write that makes no progress is an error, so the loop
      ends, and on success the file holds exactly the input. */
  method WriteAll(
    kernel: Kernel, target: Path, data: string, ghost from: nat, ghost prior: Option<Content>)
    returns (error: Option<Errno>)
    requires kernel.fs.Valid() && from <= |kernel.fs.log|
    requires At(kernel.fs.disk, Tmp(target)).now == Some(File(Bytes(""), false))
    requires At(kernel.fs.disk, target) == Settled(prior)
    requires NeverTorn(kernel.fs, from, target, prior, Bytes(data))
    modifies kernel, kernel.fs
    ensures kernel.fs.Valid() && from <= |kernel.fs.log|
    ensures At(kernel.fs.disk, target) == Settled(prior)
    ensures NeverTorn(kernel.fs, from, target, prior, Bytes(data))
    ensures At(kernel.fs.disk, Tmp(target)).now.Some? && kernel.calls >= old(kernel.calls)
    ensures error.None? ==> At(kernel.fs.disk, Tmp(target)).now == Some(File(Bytes(data), false))
    ensures error.Some? ==> Explains(kernel.replies, old(kernel.calls), kernel.calls, error.value)
  {
    hide Exec, Run, NeverTorn;
    TmpIsAnother(target);
    var offset := 0;
    while offset < |data|
      invariant 0 <= offset <= |data|
      invariant kernel.fs.Valid() && from <= |kernel.fs.log|
      invariant At(kernel.fs.disk, target) == Settled(prior)
      invariant At(kernel.fs.disk, Tmp(target)).now == Some(File(Bytes(data[..offset]), false))
      invariant NeverTorn(kernel.fs, from, target, prior, Bytes(data))
      invariant kernel.calls >= old(kernel.calls)
      decreases |data| - offset
    {
      var written := kernel.Call();
      if written.Failed? {
        return Some(written.errno);
      }
      if written.n <= 0 {
        return Some(NoProgress);
      }
      // The kernel never reports more than it was given.
      var count := if written.n > |data| - offset then |data| - offset else written.n;
      StepOnTmp(kernel.fs, Write(Tmp(target), Bytes(data[..offset + count])), from, target, prior, Bytes(data));
      offset := offset + count;
    }
    assert data[..|data|] == data;
    error := None;
  }

  /** Change mode, write, flush, close: on success the temporary file holds the input, flushed. */
  method Fill(kernel: Kernel, target: Path, data: string, windows: bool, ghost from: nat, ghost prior: Option<Content>)
    returns (error: Option<Errno>, isOpen: bool)
    requires kernel.fs.Valid() && from <= |kernel.fs.log|
    requires At(kernel.fs.disk, Tmp(target)).now == Some(File(Bytes(""), false))
    requires At(kernel.fs.disk, target) == Settled(prior)
    requires NeverTorn(kernel.fs, from, target, prior, Bytes(data))
    modifies kernel, kernel.fs
    ensures kernel.fs.Valid() && from <= |kernel.fs.log| && kernel.calls >= old(kernel.calls)
    ensures At(kernel.fs.disk, target) == Settled(prior)
    ensures NeverTorn(kernel.fs, from, target, prior, Bytes(data))
    ensures At(kernel.fs.disk, Tmp(target)).now.Some?
    ensures error.None? ==> At(kernel.fs.disk, Tmp(target)).now == Some(File(Bytes(data), true)) && !isOpen
    ensures error.Some? ==> Explains(kernel.replies, old(kernel.calls), kernel.calls, error.value)
  {
    hide Exec, Run, NeverTorn, OldOrNew;
    isOpen := true;
    if !windows {
      var mode := kernel.Call();
      if mode.Failed? {
        return Some(mode.errno), isOpen;
      }
    }
    error := WriteAll(kernel, target, data, from, prior);
    if error.Some? {
      return;
    }
    var reply := kernel.Call();
    if reply.Failed? {
      return Some(reply.errno), isOpen;
    }
    StepOnTmp(kernel.fs, Fsync(Tmp(target)), from, target, prior, Bytes(data));
    reply := kernel.Call();
    if reply.Failed? {
      return Some(reply.errno), isOpen;
    }
    isOpen := false;
  }

  /** Open, fill, rename. */
  method FillAndRename(
    kernel: Kernel, target: Path, data: string, windows: bool, ghost from: nat, ghost prior: Option<Content>)
    returns (error: Option<Errno>, tempOwned: bool, renamed: bool, isOpen: bool)
    requires kernel.fs.Valid() && from <= |kernel.fs.log|
    requires At(kernel.fs.disk, target) == Settled(prior)
    requires NeverTorn(kernel.fs, from, target, prior, Bytes(data))
    modifies kernel, kernel.fs
    ensures kernel.fs.Valid() && from <= |kernel.fs.log|
    ensures NeverTorn(kernel.fs, from, target, prior, Bytes(data))
    ensures renamed <==> error.None?
    ensures !renamed ==> At(kernel.fs.disk, target) == Settled(prior)
    ensures renamed ==>
              && At(kernel.fs.disk, target) == Slot(Some(File(Bytes(data), true)),
                                                   Settled(prior).images + {Whole(Bytes(data))})
              && At(kernel.fs.disk, Tmp(target)).now.None? && !isOpen
    ensures kernel.calls >= old(kernel.calls)
    ensures !tempOwned ==> kernel.fs.disk == old(kernel.fs.disk) && !isOpen
    ensures old(At(kernel.fs.disk, Tmp(target)).now).Some? ==> !tempOwned && error == Some(EEXIST)
    ensures error.Some? && old(At(kernel.fs.disk, Tmp(target)).now).None? ==>
              Explains(kernel.replies, old(kernel.calls), kernel.calls, error.value)
  {
    hide Exec, Run, NeverTorn;
    TmpIsAnother(target);
    var tmp := Tmp(target);
    tempOwned, renamed, isOpen := false, false, false;
    var reply := kernel.Call();
    if At(kernel.fs.disk, tmp).now.Some? {
      return Some(EEXIST), tempOwned, renamed, isOpen;
    }
    if reply.Failed? {
      return Some(reply.errno), tempOwned, renamed, isOpen;
    }
    StepOnTmp(kernel.fs, Write(tmp, Bytes("")), from, target, prior, Bytes(data));
    tempOwned, isOpen := true, true;
    error, isOpen := Fill(kernel, target, data, windows, from, prior);
    if error.Some? {
      return;
    }
    reply := kernel.Call();
    if reply.Failed? {
      return Some(reply.errno), tempOwned, renamed, isOpen;
    }
    Step(kernel.fs, Rename(tmp, target), from, target, prior, Bytes(data));
    renamed := true;
    error := None;
  }

  /**
   * Old or new at every primitive; an error before the rename leaves the old content and, if unlink can,
   * no temporary file; a temporary file of someone else is never touched; a return without error means
   * the new content is in place, and durably so whenever the directory flush went through. Every error is that of
   * a call that failed, or of a write without progress, so when no call fails the write succeeds.
   */
  method WriteFileAtomic(
    kernel: Kernel, target: Path, data: string, windows: bool, ghost prior: Option<Content>)
    returns (ending: Ending)
    requires kernel.fs.Valid() && Owner(target).None? && At(kernel.fs.disk, target) == Settled(prior)
    modifies kernel, kernel.fs
    ensures kernel.fs.Valid()
    ensures NeverTorn(kernel.fs, |old(kernel.fs.log)|, target, prior, Bytes(data))
    ensures !ending.renamed ==> ending.error.Some? && At(kernel.fs.disk, target) == Settled(prior)
    ensures ending.renamed ==>
              && At(kernel.fs.disk, target).now == Some(File(Bytes(data), true))
              && At(kernel.fs.disk, Tmp(target)).now.None?
    ensures ending.error.None? && !ending.flushed && !windows ==>
              exists i :: old(kernel.calls) <= i < kernel.calls
                && (kernel.replies(i) == Failed(EINVAL) || kernel.replies(i) == Failed(ENOTSUP))
    ensures !ending.renamed && !ending.leftover && old(At(kernel.fs.disk, Tmp(target)).now).None? ==>
              At(kernel.fs.disk, Tmp(target)).now.None?
    ensures ending.flushed && kernel.fs.pf.dirFsync ==> At(kernel.fs.disk, target) == Settled(Some(Bytes(data)))
    ensures old(At(kernel.fs.disk, Tmp(target)).now).Some? ==>
              kernel.fs.disk == old(kernel.fs.disk) && ending.error == Some(EEXIST)
    ensures ending.error.Some? && old(At(kernel.fs.disk, Tmp(target)).now).None? ==>
              Explains(kernel.replies, old(kernel.calls), kernel.calls, ending.error.value)
    ensures ending.error.None? ==> ending.renamed
    ensures ending.leftover ==> exists i :: old(kernel.calls) <= i < kernel.calls && kernel.replies(i).Failed?
  {
    hide Exec, Run, NeverTorn;
    TmpIsAnother(target);
    assert NeverTorn(kernel.fs, |kernel.fs.log|, target, prior, Bytes(data)) by {
      StartsWhole(kernel.fs, target, prior, Bytes(data));
    }
    ghost var from := |kernel.fs.log|;
    var error, tempOwned, renamed, isOpen := FillAndRename(kernel, target, data, windows, from, prior);
    var leftover := false;
    if isOpen {
      var _ := kernel.Call();
    }
    if tempOwned && !renamed {
      var reply := kernel.Call();
      if reply.Did? {
        StepOnTmp(kernel.fs, Unlink(Tmp(target)), from, target, prior, Bytes(data));
      } else {
        leftover := true;
      }
    }
    if error.Some? {
      return Ending(error, renamed, false, leftover);
    }
    if windows {
      return Ending(None, true, false, false);
    }
    var dirFd := kernel.Call();
    if dirFd.Failed? {
      return Ending(if NoDirFsync(dirFd) then None else Some(dirFd.errno), true, false, false);
    }
    var flushed := kernel.Call();
    if flushed.Did? {
      Step(kernel.fs, FsyncDir(DirOf(target)), from, target, prior, Bytes(data));
    } else if !NoDirFsync(flushed) {
      return Ending(Some(flushed.errno), true, false, false);
    }
    ending := Ending(None, true, flushed.Did?, false);
  }

  lemma StartsWhole(fs: FileSystem, target: Path, prior: Option<Content>, next: Content)
    requires fs.Valid() && At(fs.disk, target) == Settled(prior)
    ensures NeverTorn(fs, |fs.log|, target, prior, next)
  {
    assert fs.log[..|fs.log|] == fs.log;
  }
}
