/**
 * The transaction engine step by step: a file system object that performs one primitive at a time, the
 * kind registry, and the entry points of src/core/fs-txn.ts as methods over them. Each is shown to
 * perform exactly the scripts that the crash theorems are about.
 */
module FsTxnEngine {
  import opened Options
  import opened Disk
  import opened FsTxn
  import opened FsTxnFences

  const TXN_SWEEP_GRACE_MS: int := 300_000

  /** `log` is every primitive performed since `start`, so its prefixes are the crash points. */
  class FileSystem {
    const pf: Platform
    var disk: State
    ghost const start: State
    ghost var log: seq<Op>

    ghost predicate Valid()
      reads this
    {
      disk == Run(pf, start, log)
    }

    constructor (pf: Platform, disk: State)
      ensures Valid() && this.pf == pf && this.disk == disk && start == disk && log == []
    {
      this.pf, this.disk := pf, disk;
      this.start, this.log := disk, [];
    }

    method Do(op: Op)
      requires Valid()
      modifies this
      ensures Valid() && log == old(log) + [op] && disk == Exec(pf, old(disk), op)
    {
      disk := Exec(pf, disk, op);
      log := log + [op];
      assert log[..|log| - 1] == old(log);
    }

    /** A handler's script, one primitive at a time. */
    method Perform(ops: seq<Op>)
      requires Valid()
      modifies this
      ensures Valid() && log == old(log) + ops && disk == Run(pf, old(disk), ops)
    {
      var i := 0;
      while i < |ops|
        invariant i <= |ops| && Valid()
        invariant log == old(log) + ops[..i] && disk == Run(pf, old(disk), ops[..i])
      {
        Do(ops[i]);
        PrefixStep(pf, old(disk), ops, i);
        assert ops[..i + 1] == ops[..i] + [ops[i]];
        i := i + 1;
      }
      assert ops[..|ops|] == ops;
    }

    method WriteTxnFileDurably(p: Path, content: Content)
      requires Valid()
      modifies this
      ensures Valid() && log == old(log) + DurableWrite(p, content)
      ensures disk == Run(pf, old(disk), DurableWrite(p, content))
    {
      var tempPath := Tmp(p);
      RunFour(pf, disk, DurableWrite(p, content));
      hide Exec, Run;
      Do(Write(tempPath, content));
      Do(Fsync(tempPath));
      Do(Rename(tempPath, p));
      Do(FsyncDir(DirOf(p)));
      assert DurableWrite(p, content)[..4] == DurableWrite(p, content);
    }

    /** A recursive removal that may fail on the way. */
    method RemoveAll(id: string, removal: Removal) returns (removed: bool)
      requires Valid()
      modifies this
      ensures removed == removal.whole
      ensures Valid() && log == old(log) + RemoveTree(id, removal)
      ensures disk == Run(pf, old(disk), RemoveTree(id, removal))
    {
      Perform(RemoveTree(id, removal));
      removed := removal.whole;
    }
  }

  // ------------------------------------------------------------- transactions

  const UPPER := "ABCDEFGHIJKLMNOPQRSTUVWXYZ"
  const LOWER := "abcdefghijklmnopqrstuvwxyz"
  const REST := "0123456789._-"

  /** The name of an entry of the directory it is joined to, on every platform. */
  predicate NamesAnEntry(id: string) {
    id != "" && id != "." && id != ".." && forall c | c in id :: c in UPPER || c in LOWER || c in REST
  }

  lemma UpperIsSpelled(c: char)
    ensures 'A' <= c <= 'Z' <==> c in UPPER
  {
    assert forall k | 0 <= k < 26 :: UPPER[k] as int == 'A' as int + k;
    assert 'A' <= c <= 'Z' ==> UPPER[c as int - 'A' as int] == c;
  }

  lemma LowerIsSpelled(c: char)
    ensures 'a' <= c <= 'z' <==> c in LOWER
  {
    assert forall k | 0 <= k < 26 :: LOWER[k] as int == 'a' as int + k;
    assert 'a' <= c <= 'z' ==> LOWER[c as int - 'a' as int] == c;
  }

  lemma RestIsSpelled(c: char)
    ensures '0' <= c <= '9' || c in "._-" <==> c in REST
  {
    assert REST[10..] == "._-" && REST == REST[..10] + REST[10..];
    assert forall k | 0 <= k < 10 :: REST[k] as int == '0' as int + k;
    assert '0' <= c <= '9' ==> REST[c as int - '0' as int] == c;
  }

  lemma PlainChar(c: char)
    ensures 'a' <= c <= 'z' || 'A' <= c <= 'Z' || '0' <= c <= '9' || c in "._-"
       <==> c in UPPER || c in LOWER || c in REST
  {
    hide UPPER, LOWER, REST;
    UpperIsSpelled(c);
    LowerIsSpelled(c);
    RestIsSpelled(c);
  }

  lemma PlainIsSpelled(id: string)
    ensures PlainSegment(id) <==> NamesAnEntry(id)
  {
    hide UPPER, LOWER, REST;
    forall c | c in id
      ensures 'a' <= c <= 'z' || 'A' <= c <= 'Z' || '0' <= c <= '9' || c in "._-"
        <==> c in UPPER || c in LOWER || c in REST
    {
      PlainChar(c);
    }
  }

  class Txn {
    var journal: Journal

    constructor (journal: Journal)
      ensures this.journal == journal
    {
      this.journal := journal;
    }
  }

  /** What a scan is told by the operating system: the entries of the namespace in readdir order, how the removal of
      each goes, and the age of each in milliseconds. */
  datatype Listing = Listing(ids: seq<string>, removal: string -> Removal, age: string -> int)

  predicate Stale(listing: Listing, id: string) {
    listing.age(id) >= TXN_SWEEP_GRACE_MS
  }

  /** A whole scan: every primitive, the journals recovered, and the refusal that stopped it, if any. */
  datatype Outcome = Outcome(ops: seq<Op>, recovered: seq<Journal>, error: Option<TxnError>)

  /** The first `n` entries; a refused journal stops the scan, and the entries before it stay recovered. */
  function ScanPrefix(kinds: Registry, scan: Scan, pf: Platform, s: State, listing: Listing, n: nat): (o: Outcome)
    requires n <= |listing.ids|
  {
    if n == 0 then Outcome([], [], None)
    else
      var o := ScanPrefix(kinds, scan, pf, s, listing, n - 1);
      if o.error.Some? then o
      else
        var id := listing.ids[n - 1];
        match Recover(kinds, scan, Run(pf, s, o.ops), id, Stale(listing, id), listing.removal(id))
        case Err(e) => o.(error := Some(e))
        case Ok(visit) =>
          Outcome(o.ops + visit.ops,
                  if visit.recovered.Some? then o.recovered + [visit.recovered.value] else o.recovered,
                  None)
  }

  /** What the scan does with its n-th entry, given what it did to the ones before. */
  function VisitAt(kinds: Registry, scan: Scan, pf: Platform, s: State, listing: Listing, n: nat)
    : Result<Visit, TxnError>
    requires n < |listing.ids|
  {
    var id := listing.ids[n];
    Recover(kinds, scan, Run(pf, s, ScanPrefix(kinds, scan, pf, s, listing, n).ops), id, Stale(listing, id),
            listing.removal(id))
  }

  lemma ScanStep(kinds: Registry, scan: Scan, pf: Platform, s: State, listing: Listing, n: nat)
    requires n <= |listing.ids|
    ensures n == 0 ==> ScanPrefix(kinds, scan, pf, s, listing, n) == Outcome([], [], None)
    ensures n > 0 ==>
              var o := ScanPrefix(kinds, scan, pf, s, listing, n);
              var p := ScanPrefix(kinds, scan, pf, s, listing, n - 1);
              var visit := VisitAt(kinds, scan, pf, s, listing, n - 1);
              if p.error.Some? then o == p
              else if visit.Err? then o == p.(error := Some(visit.error))
              else
                && o.ops == p.ops + visit.value.ops && o.error.None?
                && o.recovered == (if visit.value.recovered.None? then p.recovered
                                   else p.recovered + [visit.value.recovered.value])
  {
    hide Recover, Exec, Run;
  }

  lemma {:induction false} ErrorsStop(
    kinds: Registry, scan: Scan, pf: Platform, s: State, listing: Listing, n: nat, m: nat)
    requires n <= m <= |listing.ids| && ScanPrefix(kinds, scan, pf, s, listing, n).error.Some?
    ensures ScanPrefix(kinds, scan, pf, s, listing, m) == ScanPrefix(kinds, scan, pf, s, listing, n)
    decreases m
  {
    hide Recover, Exec, Run;
    if n < m {
      ErrorsStop(kinds, scan, pf, s, listing, n, m - 1);
    }
  }

  /** The disk as the scan finds it at its n-th entry. */
  function DiskAt(kinds: Registry, scan: Scan, pf: Platform, s: State, listing: Listing, n: nat): State
    requires n <= |listing.ids|
  {
    Run(pf, s, ScanPrefix(kinds, scan, pf, s, listing, n).ops)
  }

  /** One of the first `m` entries holds a journal that must be refused. */
  ghost predicate SomeRefused(kinds: Registry, scan: Scan, pf: Platform, s: State, listing: Listing, m: nat)
    requires m <= |listing.ids|
  {
    exists n :: 0 <= n < m && MustRefuse(kinds, scan, DiskAt(kinds, scan, pf, s, listing, n), listing.ids[n])
  }

  /** Journals of this root with changes below it only. */
  predicate AllBelow(root: string, journals: seq<Journal>) {
    forall j | j in journals :: j.root == root && forall i | 0 <= i < |j.changes| :: Below(j.changes[i].path, root)
  }

  /** The scan fails exactly when some entry must be refused, and then every primitive it performed belongs to an
      entry before that one. */
  lemma {:induction false} ScanRefusesIff(
    kinds: Registry, scan: Scan, pf: Platform, s: State, listing: Listing, m: nat)
    requires m <= |listing.ids|
    ensures ScanPrefix(kinds, scan, pf, s, listing, m).error.Some? <==> SomeRefused(kinds, scan, pf, s, listing, m)
    ensures forall n | 0 <= n < m && MustRefuse(kinds, scan, DiskAt(kinds, scan, pf, s, listing, n), listing.ids[n]) ::
              ScanPrefix(kinds, scan, pf, s, listing, m).ops == ScanPrefix(kinds, scan, pf, s, listing, n).ops
    decreases m
  {
    hide Recover, Exec, Run, ScanPrefix, MustRefuse;
    ScanStep(kinds, scan, pf, s, listing, m);
    if m > 0 {
      ScanRefusesIff(kinds, scan, pf, s, listing, m - 1);
      var id := listing.ids[m - 1];
      var here := DiskAt(kinds, scan, pf, s, listing, m - 1);
      var p := ScanPrefix(kinds, scan, pf, s, listing, m - 1);
      EntryDecision(kinds, scan, here, id, Stale(listing, id), listing.removal(id));
      assert VisitAt(kinds, scan, pf, s, listing, m - 1).Err? <==> MustRefuse(kinds, scan, here, id);
    }
  }

  /** The journals that a scan recovers are those that it must resume, in listing order. */
  lemma {:induction false} ScanResumesExactly(
    kinds: Registry, scan: Scan, pf: Platform, s: State, listing: Listing, m: nat) returns (places: seq<nat>)
    requires m <= |listing.ids| && ScanPrefix(kinds, scan, pf, s, listing, m).error.None?
    ensures var found := ScanPrefix(kinds, scan, pf, s, listing, m).recovered;
            && |places| == |found|
            && (forall k | 0 <= k < |places| ::
                  && places[k] < m
                  && MustResume(kinds, scan, DiskAt(kinds, scan, pf, s, listing, places[k]), listing.ids[places[k]])
                  && found[k]
                       == Found(DiskAt(kinds, scan, pf, s, listing, places[k]), listing.ids[places[k]]).value.journal)
            && (forall k, l | 0 <= k < l < |places| :: places[k] < places[l])
            && (forall n: nat
                  | n < m && MustResume(kinds, scan, DiskAt(kinds, scan, pf, s, listing, n), listing.ids[n]) ::
                  n in places)
    decreases m
  {
    hide Recover, Exec, Run, ScanPrefix;
    ScanStep(kinds, scan, pf, s, listing, m);
    places := [];
    if m > 0 {
      places := ScanResumesExactly(kinds, scan, pf, s, listing, m - 1);
      var id := listing.ids[m - 1];
      var here := DiskAt(kinds, scan, pf, s, listing, m - 1);
      EntryDecision(kinds, scan, here, id, Stale(listing, id), listing.removal(id));
      hide MustResume, Found;
      if MustResume(kinds, scan, here, id) {
        places := places + [m - 1];
      }
    }
  }

  /** Only journals of this root, with changes below it, are ever recovered. */
  lemma ScanStaysBelow(kinds: Registry, scan: Scan, pf: Platform, s: State, listing: Listing, m: nat)
    requires m <= |listing.ids|
    ensures ScanPrefix(kinds, scan, pf, s, listing, m).error.None? ==>
              AllBelow(scan.root, ScanPrefix(kinds, scan, pf, s, listing, m).recovered)
  {
    hide Recover, Exec, Run, ScanPrefix;
    if ScanPrefix(kinds, scan, pf, s, listing, m).error.None? {
      var places := ScanResumesExactly(kinds, scan, pf, s, listing, m);
      var found := ScanPrefix(kinds, scan, pf, s, listing, m).recovered;
      forall j | j in found
        ensures j.root == scan.root && forall i | 0 <= i < |j.changes| :: Below(j.changes[i].path, scan.root)
      {
        var k :| 0 <= k < |found| && found[k] == j;
        assert places[k] < m;
      }
    }
  }

  lemma NoOps(pf: Platform, s: State)
    ensures Run(pf, s, []) == s
  {
  }

  class Engine {
    const fs: FileSystem
    var kinds: Registry

    constructor (fs: FileSystem)
      ensures this.fs == fs && kinds == map[]
    {
      this.fs := fs;
      kinds := map[];
    }

    method RegisterTxnKind(kind: string, handler: Handler)
      modifies this
      ensures kinds == old(kinds)[kind := handler]
    {
      kinds := kinds[kind := handler];
    }

    /** Unknown kinds and phases are refused before anything is written; memory follows the disk. */
    method AdvanceTxn(txn: Txn, phase: string) returns (error: Option<TxnError>)
      requires fs.Valid()
      modifies fs, txn
      ensures fs.Valid()
      ensures error == (if txn.journal.kind !in kinds then Some(UnknownKind(txn.journal.kind))
                        else if phase !in kinds[txn.journal.kind].phases then Some(UnknownPhase(phase))
                        else None)
      ensures error.Some? ==> fs.log == old(fs.log) && txn.journal == old(txn.journal)
      ensures error.None? ==>
                && fs.log == old(fs.log) + Advance(old(txn.journal), phase)
                && fs.disk == Run(fs.pf, old(fs.disk), Advance(old(txn.journal), phase))
                && txn.journal == old(txn.journal).(phase := phase)
    {
      if txn.journal.kind !in kinds {
        return Some(UnknownKind(txn.journal.kind));
      }
      if phase !in kinds[txn.journal.kind].phases {
        return Some(UnknownPhase(phase));
      }
      var next := txn.journal.(phase := phase);
      fs.WriteTxnFileDurably(JournalFile(next.id), JournalText(next));
      txn.journal := next;
      error := None;
    }

    /** Refuses unregistered kinds and ids that are not plain path segments; otherwise makes the directory
        and durably writes the journal at the first phase of its kind. */
    method BeginTxn(
      kind: string, root: string, changes: seq<Change>, payload: string, transactionId: Option<string>,
      minted: string)
      returns (result: Result<Txn, TxnError>)
      requires fs.Valid() && PlainSegment(minted)
      requires kind in kinds ==> kinds[kind].phases != []
      modifies fs
      ensures fs.Valid()
      ensures kind !in kinds ==> result == Err(UnknownKind(kind)) && fs.log == old(fs.log)
      ensures kind in kinds && transactionId.Some? && !PlainSegment(transactionId.value) ==>
                result == Err(InvalidId(transactionId.value)) && fs.log == old(fs.log)
      // Nothing that could name another directory, and everything else.
      ensures kind in kinds && transactionId.Some? ==> (result.Ok? <==> NamesAnEntry(transactionId.value))
      ensures kind in kinds && (transactionId.None? || PlainSegment(transactionId.value)) ==>
                && result.Ok? && fresh(result.value)
                && result.value.journal == Journal(
                     1, kind, kinds[kind].phases[0],
                     if transactionId.Some? then transactionId.value else minted, root, changes, payload)
                && fs.log == old(fs.log) + Begin(result.value.journal)
                && fs.disk == Run(fs.pf, old(fs.disk), Begin(result.value.journal))
    {
      if kind !in kinds {
        return Err(UnknownKind(kind));
      }
      var id := if transactionId.Some? then transactionId.value else minted;
      PlainIsSpelled(id);
      if !PlainSegment(id) {
        return Err(InvalidId(id));
      }
      fs.Do(Mkdir(id));
      var journal := Journal(1, kind, kinds[kind].phases[0], id, root, changes, payload);
      RunAppend(fs.pf, old(fs.disk), [Mkdir(id)], WriteJournal(journal));
      assert [Mkdir(id)][..0] == [];
      fs.WriteTxnFileDurably(JournalFile(id), JournalText(journal));
      var txn := new Txn(journal);
      result := Ok(txn);
    }

    /** True exactly when the directory is old enough and its removal goes through; a younger one is not touched,
        and a removal that fails is swallowed. */
    method SweepJournallessTxnDir(id: string, age: int, removal: Removal) returns (removed: bool)
      requires fs.Valid()
      modifies fs
      ensures fs.Valid() && removed == (age >= 5 * 60 * 1000 && removal.whole)
      ensures fs.log == old(fs.log) + Sweep(id, age >= TXN_SWEEP_GRACE_MS, removal)
      ensures fs.disk == Run(fs.pf, old(fs.disk), Sweep(id, age >= TXN_SWEEP_GRACE_MS, removal))
    {
      if age < TXN_SWEEP_GRACE_MS {
        return false;
      }
      removed := fs.RemoveAll(id, removal);
    }

    /** One entry of the scan. */
    method RecoverEntry(scan: Scan, id: string, age: int, removal: Removal)
      returns (result: Result<Option<Journal>, TxnError>)
      requires fs.Valid()
      modifies fs
      ensures fs.Valid()
      ensures match Recover(kinds, scan, old(fs.disk), id, age >= TXN_SWEEP_GRACE_MS, removal)
              case Err(e) => result == Err(e) && fs.log == old(fs.log) && fs.disk == old(fs.disk)
              case Ok(visit) =>
                && result == Ok(visit.recovered)
                && fs.log == old(fs.log) + visit.ops
                && fs.disk == Run(fs.pf, old(fs.disk), visit.ops)
      ensures result.Err? <==> MustRefuse(kinds, scan, old(fs.disk), id)
      ensures result.Ok? && result.value.Some? ==> MustResume(kinds, scan, old(fs.disk), id)
    {
      EntryRefusedIff(kinds, scan, fs.disk, id, age >= TXN_SWEEP_GRACE_MS, removal);
      hide Exec, Run, Fence, RemoveTree, ReadJournal, Resume, MustRefuse, MustResume;
      if At(fs.disk, TxnDir(id)).now.None? {
        return Ok(None);
      }
      if At(fs.disk, JournalFile(id)).now.None? {
        var _ := SweepJournallessTxnDir(id, age, removal);
        return Ok(None);
      }
      var read := ReadJournal(At(fs.disk, JournalFile(id)).now.value.content, id);
      if read.Err? {
        return Err(read.error);
      }
      var journal := read.value;
      if journal.kind !in kinds {
        var _ := SweepJournallessTxnDir(id, age, removal);
        return Ok(None);
      }
      if !scan.wanted(journal) {
        return Ok(None);
      }
      var handler := kinds[journal.kind];
      var fence := Fence(handler, journal, id, scan.root);
      if fence.Some? {
        return Err(fence.value);
      }
      ResumeTxn(handler, journal, id, removal);
      result := Ok(Some(journal));
    }

    /** Back, forward, or nothing at the terminal phase; then the clean-up. */
    method ResumeTxn(handler: Handler, journal: Journal, id: string, removal: Removal)
      requires fs.Valid()
      modifies fs
      ensures fs.Valid()
      ensures var ops := Resume(handler, old(fs.disk), journal) + RemoveTree(id, removal);
              fs.log == old(fs.log) + ops && fs.disk == Run(fs.pf, old(fs.disk), ops)
    {
      hide Exec, RemoveTree, Committed, Terminal;
      ghost var resume := Resume(handler, fs.disk, journal);
      if !Committed(handler, journal.phase) {
        fs.Perform(handler.rollback(fs.disk, journal));
      } else if !Terminal(handler, journal.phase) {
        fs.Perform(handler.finalize(fs.disk, journal));
      }
      assert fs.log == old(fs.log) + resume;
      RunAppend(fs.pf, old(fs.disk), resume, RemoveTree(id, removal));
      var _ := fs.RemoveAll(id, removal);
    }

    /** The recovery scan: entry after entry in listing order, stopping at the first journal it refuses. */
    method RecoverTxnsForRoot(scan: Scan, listing: Listing) returns (outcome: Result<seq<Journal>, TxnError>)
      requires fs.Valid()
      modifies fs
      ensures fs.Valid()
      ensures var o := ScanPrefix(kinds, scan, fs.pf, old(fs.disk), listing, |listing.ids|);
              && fs.log == old(fs.log) + o.ops
              && fs.disk == Run(fs.pf, old(fs.disk), o.ops)
              && outcome == if o.error.Some? then Err(o.error.value) else Ok(o.recovered)
      ensures outcome.Err? <==> SomeRefused(kinds, scan, fs.pf, old(fs.disk), listing, |listing.ids|)
      ensures outcome.Ok? ==> AllBelow(scan.root, outcome.value)
    {
      hide Exec, Recover, Run, ScanPrefix, SomeRefused, AllBelow, MustRefuse, MustResume;
      ScanRefusesIff(kinds, scan, fs.pf, fs.disk, listing, |listing.ids|);
      ScanStaysBelow(kinds, scan, fs.pf, fs.disk, listing, |listing.ids|);
      var recovered: seq<Journal> := [];
      ghost var s := fs.disk;
      ghost var pf := fs.pf;
      ScanStep(kinds, scan, pf, s, listing, 0);
      assert s == Run(pf, s, []) by { NoOps(pf, s); }
      var i := 0;
      while i < |listing.ids|
        invariant i <= |listing.ids| && fs.Valid()
        invariant ScanPrefix(kinds, scan, pf, s, listing, i).error.None?
        invariant recovered == ScanPrefix(kinds, scan, pf, s, listing, i).recovered
        invariant fs.log == old(fs.log) + ScanPrefix(kinds, scan, pf, s, listing, i).ops
        invariant fs.disk == Run(pf, s, ScanPrefix(kinds, scan, pf, s, listing, i).ops)
      {
        var id := listing.ids[i];
        ghost var o := ScanPrefix(kinds, scan, pf, s, listing, i);
        ghost var here := fs.disk;
        var visit := RecoverEntry(scan, id, listing.age(id), listing.removal(id));
        ghost var o' := ScanPrefix(kinds, scan, pf, s, listing, i + 1);
        ScanStep(kinds, scan, pf, s, listing, i + 1);
        if visit.Err? {
          assert o'.error == Some(visit.error);
          ErrorsStop(kinds, scan, pf, s, listing, i + 1, |listing.ids|);
          return Err(visit.error);
        }
        ghost var ops := Recover(kinds, scan, here, id, Stale(listing, id), listing.removal(id)).value.ops;
        assert o'.ops == o.ops + ops;
        RunAppend(pf, s, o.ops, ops);
        if visit.value.Some? {
          recovered := recovered + [visit.value.value];
        }
        i := i + 1;
      }
      outcome := Ok(recovered);
    }

    // ------------------------------------------------------------- listings

    /** Every matching journal in order, or the first unreadable one. */
    method ListTxnJournals(ids: seq<string>, wanted: Journal -> bool)
      returns (result: Result<seq<Journal>, TxnError>)
      ensures result == Strict(fs.disk, ids, wanted, |ids|)
    {
      var matches: seq<Journal> := [];
      var i := 0;
      while i < |ids|
        invariant i <= |ids| && Strict(fs.disk, ids, wanted, i) == Ok(matches)
      {
        var slot := At(fs.disk, JournalFile(ids[i]));
        if slot.now.Some? {
          var read := ReadJournal(slot.now.value.content, ids[i]);
          if read.Err? {
            StrictStops(fs.disk, ids, wanted, i + 1, |ids|);
            return Err(read.error);
          }
          if wanted(read.value) {
            matches := matches + [read.value];
          }
        }
        i := i + 1;
      }
      result := Ok(matches);
    }

    /** Every matching journal in order, and how many could not be read. */
    method ListTxnJournalsTolerant(ids: seq<string>, wanted: Journal -> bool)
      returns (matches: seq<Journal>, unreadable: seq<string>)
      ensures (matches, unreadable) == Tolerant(fs.disk, ids, wanted, |ids|)
    {
      matches, unreadable := [], [];
      var i := 0;
      while i < |ids|
        invariant i <= |ids| && (matches, unreadable) == Tolerant(fs.disk, ids, wanted, i)
      {
        var slot := At(fs.disk, JournalFile(ids[i]));
        if slot.now.Some? {
          var read := ReadJournal(slot.now.value.content, ids[i]);
          if read.Err? {
            unreadable := unreadable + [ids[i]];
          } else if wanted(read.value) {
            matches := matches + [read.value];
          }
        }
        i := i + 1;
      }
    }
  }

  function Strict(s: State, ids: seq<string>, wanted: Journal -> bool, n: nat): Result<seq<Journal>, TxnError>
    requires n <= |ids|
  {
    if n == 0 then Ok([])
    else
      match Strict(s, ids, wanted, n - 1)
      case Err(e) => Err(e)
      case Ok(found) =>
        var slot := At(s, JournalFile(ids[n - 1]));
        if slot.now.None? then Ok(found)
        else
          match ReadJournal(slot.now.value.content, ids[n - 1])
          case Err(e) => Err(e)
          case Ok(j) => Ok(if wanted(j) then found + [j] else found)
  }

  lemma {:induction false} StrictStops(s: State, ids: seq<string>, wanted: Journal -> bool, n: nat, m: nat)
    requires n <= m <= |ids| && Strict(s, ids, wanted, n).Err?
    ensures Strict(s, ids, wanted, m) == Strict(s, ids, wanted, n)
    decreases m
  {
    if n < m {
      StrictStops(s, ids, wanted, n, m - 1);
    }
  }

  function Tolerant(s: State, ids: seq<string>, wanted: Journal -> bool, n: nat): (seq<Journal>, seq<string>)
    requires n <= |ids|
  {
    if n == 0 then ([], [])
    else
      var (found, bad) := Tolerant(s, ids, wanted, n - 1);
      var slot := At(s, JournalFile(ids[n - 1]));
      if slot.now.None? then (found, bad)
      else
        match ReadJournal(slot.now.value.content, ids[n - 1])
        case Err(_) => (found, bad + [ids[n - 1]])
        case Ok(j) => (if wanted(j) then found + [j] else found, bad)
  }

  /** A listing is complete and in order: the journals that are there, can be read and are asked for. */
  lemma {:induction false} ListsExactly(s: State, ids: seq<string>, wanted: Journal -> bool, n: nat)
    returns (places: seq<nat>)
    requires n <= |ids|
    ensures var found := Tolerant(s, ids, wanted, n).0;
            && |places| == |found|
            && (forall k | 0 <= k < |places| :: places[k] < n && Listed(s, ids[places[k]], wanted, found[k]))
            && (forall k, l | 0 <= k < l < |places| :: places[k] < places[l])
            && (forall i: nat, j: Journal | i < n && Listed(s, ids[i], wanted, j) :: i in places)
  {
    places := [];
    if n > 0 {
      places := ListsExactly(s, ids, wanted, n - 1);
      var slot := At(s, JournalFile(ids[n - 1]));
      if slot.now.Some? && Readable(slot.now.value.content) && wanted(slot.now.value.content.journal) {
        places := places + [n - 1];
      }
    }
  }

  /** And as unreadable it counts exactly those that are there and cannot be read. */
  lemma {:induction false} CountsExactly(s: State, ids: seq<string>, wanted: Journal -> bool, n: nat)
    returns (places: seq<nat>)
    requires n <= |ids|
    ensures var unreadable := Tolerant(s, ids, wanted, n).1;
            && |places| == |unreadable|
            && (forall k | 0 <= k < |places| ::
                  places[k] < n && unreadable[k] == ids[places[k]] && Damaged(s, ids[places[k]]))
            && (forall k, l | 0 <= k < l < |places| :: places[k] < places[l])
            && (forall i: nat | i < n && Damaged(s, ids[i]) :: i in places)
  {
    places := [];
    if n > 0 {
      places := CountsExactly(s, ids, wanted, n - 1);
      if Damaged(s, ids[n - 1]) {
        places := places + [n - 1];
      }
    }
  }

  /** There is a readable journal in this entry, and the caller asks for it. */
  predicate Listed(s: State, id: string, wanted: Journal -> bool, j: Journal) {
    && At(s, JournalFile(id)).now.Some?
    && Readable(At(s, JournalFile(id)).now.value.content)
    && At(s, JournalFile(id)).now.value.content.journal == j && wanted(j)
  }

  predicate Damaged(s: State, id: string) {
    At(s, JournalFile(id)).now.Some? && !Readable(At(s, JournalFile(id)).now.value.content)
  }

  /** The reporting scan never hides a journal: the strict scan fails exactly when the tolerant one counts
      something unreadable, and otherwise the two agree. */
  lemma {:induction false} TolerantAgreesWithStrict(s: State, ids: seq<string>, wanted: Journal -> bool, n: nat)
    requires n <= |ids|
    ensures Strict(s, ids, wanted, n).Ok? <==> Tolerant(s, ids, wanted, n).1 == []
    ensures Strict(s, ids, wanted, n).Ok? ==> Strict(s, ids, wanted, n).value == Tolerant(s, ids, wanted, n).0
  {
    if n > 0 {
      TolerantAgreesWithStrict(s, ids, wanted, n - 1);
    }
  }
}
