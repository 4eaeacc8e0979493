/**
 * The transaction engine of src/core/fs-txn.ts as scripts of disk primitives: what each entry point
 * does to the disk it finds.
 */
module FsTxn {
  import opened Options
  import opened Disk

  // ------------------------------------------------------------------ handlers

  /** A registered kind: its phase vocabulary and the scripts its callbacks perform. */
  datatype Handler = Handler(
    phases: seq<string>,
    commitPhase: string,
    validate: Journal -> bool,
    rollback: (State, Journal) -> seq<Op>,
    finalize: (State, Journal) -> seq<Op>)

  type Registry = map<string, Handler>

  datatype TxnError =
    | UnknownKind(kind: string)
    | UnknownPhase(phase: string)
    | InvalidId(id: string)
    | Unreadable(id: string)
    | Unsafe(id: string)
    | BoundElsewhere(id: string)
    | OutsideRoot(id: string)
    | Refused(id: string)

  /** `indexOf`: the first position, or -1. */
  function IndexOf(phases: seq<string>, phase: string): (i: int)
    ensures i == -1 <==> phase !in phases
    ensures i >= 0 ==> i < |phases| && phases[i] == phase && phase !in phases[..i]
  {
    if phases == [] then -1
    else if phases[0] == phase then 0
    else
      var i := IndexOf(phases[1..], phase);
      assert i >= 0 ==> phases[..i + 1] == [phases[0]] + phases[1..][..i];
      if i < 0 then -1 else i + 1
  }

  predicate Committed(h: Handler, phase: string) {
    IndexOf(h.phases, phase) >= IndexOf(h.phases, h.commitPhase)
  }

  predicate Terminal(h: Handler, phase: string) {
    h.phases != [] && phase == h.phases[|h.phases| - 1]
  }

  // -------------------------------------------------------------------- fences

  /** A path segment: letters, digits, `.`, `_`, `-`, and neither `.` nor `..`. */
  predicate PlainSegment(id: string) {
    && id != "" && id != "." && id != ".."
    && forall c | c in id :: 'a' <= c <= 'z' || 'A' <= c <= 'Z' || '0' <= c <= '9' || c in "._-"
  }

  /** Strictly below the root; like the source this also refuses names that merely begin with `..`. */
  predicate WithinRoot(p: Path, root: string) {
    p.InRoot? && p.dir == root && p.name != "" && !(".." <= p.name)
  }

  function Fence(h: Handler, j: Journal, id: string, root: string): Option<TxnError> {
    if j.root != root then Some(BoundElsewhere(id))
    else if j.phase !in h.phases then Some(UnknownPhase(j.phase))
    else if exists i | 0 <= i < |j.changes| :: !WithinRoot(j.changes[i].path, root) then Some(OutsideRoot(id))
    else if !h.validate(j) then Some(Refused(id))
    else None
  }

  // ------------------------------------------------------------------- scripts

  function WriteJournal(j: Journal): seq<Op> {
    DurableWrite(JournalFile(j.id), JournalText(j))
  }

  function Begin(j: Journal): seq<Op> {
    [Mkdir(j.id)] + WriteJournal(j)
  }

  function Advance(j: Journal, phase: string): seq<Op> {
    WriteJournal(j.(phase := phase))
  }

  /** How far a recursive removal gets: these entries, in this order, and then the directory, unless it fails on
      the way. A failure is swallowed. */
  datatype Removal = Removal(entries: seq<Path>, whole: bool)

  /** Nothing but the directory was there. */
  const BARE: Removal := Removal([], true)

  function RemoveTree(id: string, removal: Removal): seq<Op> {
    seq(|removal.entries|, i requires 0 <= i < |removal.entries| => Unlink(removal.entries[i]))
    + if removal.whole then [Rmdir(id)] else []
  }

  /** The one recovery decision: back before the commit phase, forward from it, nothing at the end. */
  function Resume(h: Handler, s: State, j: Journal): seq<Op> {
    if !Committed(h, j.phase) then h.rollback(s, j)
    else if !Terminal(h, j.phase) then h.finalize(s, j)
    else []
  }

  function ReadJournal(c: Content, id: string): Result<Journal, TxnError> {
    match c
    case JournalText(j) => if j.version != 1 then Err(Unsafe(id)) else Ok(j)
    case _ => Err(Unreadable(id))
  }

  /** What one directory entry gets during a recovery scan: a script, and the journal it recovers. */
  datatype Visit = Visit(ops: seq<Op>, recovered: Option<Journal>)

  datatype Scan = Scan(root: string, wanted: Journal -> bool)

  function Sweep(id: string, stale: bool, removal: Removal): seq<Op> {
    if stale then RemoveTree(id, removal) else []
  }

  function Recover(kinds: Registry, scan: Scan, s: State, id: string, stale: bool, removal: Removal)
    : Result<Visit, TxnError>
  {
    if At(s, TxnDir(id)).now.None? then Ok(Visit([], None))
    else if At(s, JournalFile(id)).now.None? then Ok(Visit(Sweep(id, stale, removal), None))
    else
      match ReadJournal(At(s, JournalFile(id)).now.value.content, id)
      case Err(e) => Err(e)
      case Ok(j) =>
        if j.kind !in kinds then Ok(Visit(Sweep(id, stale, removal), None))
        else if !scan.wanted(j) then Ok(Visit([], None))
        else
          match Fence(kinds[j.kind], j, id, scan.root)
          case Some(e) => Err(e)
          case None => Ok(Visit(Resume(kinds[j.kind], s, j) + RemoveTree(id, removal), Some(j)))
  }
}
