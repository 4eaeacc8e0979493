# akm core: a model of its durability, locking, validation and scheduling kernel

A Dafny 4.11 project that models the parts of akm where a mistake is hardest to see, and proves what callers
rely on. `dafny verify dfyconfig.toml` checks all of it.

- **Transactions** (`Disk`, `FsTxn`, `FsTxnSafety`, `FsTxnRuns`, `FsTxnWindow`, `FsTxnTheorems`, `FsTxnBatch`,
  `FsTxnBatchTheorems`, `FsTxnSlips`, `FsTxnFences`, `FsTxnEngine`, `FsTxnScan`, `AtomicWrite`). The disk has a
  volatile view and, for every path independently, the set of outcomes a power cut may leave. Each primitive (mkdir,
  write, fsync, rename, directory fsync, unlink, rmdir) is one step, a power cut or a kill may follow any of them, and
  recoveries may be interrupted too. A kind's handler is any pair of scripts that meets a contract; one concrete kind,
  which applies a list of journaled file changes, is shown to meet it. The entry points are methods of an object that
  logs each primitive, and their logs are exactly the scripts of the theorems.
- **Locks** (`FileLock`, `FileLockTheorems`, `FileLockMethods`, `MaintenanceBarrier`, `MaintenanceBarrierCalls`,
  `MaintenanceBarrierAsync`). Sentinel files as interleaved steps of any number of processes: torn creation, probes
  outside the mutex, reclaim by quarantine, death anywhere, reuse of inodes and times, an age bound past which live
  holders count as stale, and a writer that ignores the protocol. A process keeps every handle and every stale
  verdict it was ever given, and its contexts may release or reclaim by any of them, late and repeatedly. The entry
  points are methods between whose primitives everyone else may run. On top of it, the re-entrant barrier over
  processes and their asynchronous contexts; its wrappers are methods whose steps are actions of that machine.
- **Schema validation** (`JsonValues`, `JsonSchema`, `JsonSchemaMeaning`, `JsonSchemaDefinition`,
  `JsonSchemaStrict`, `JsonSchemaStandard`, `JsonSchemaPermissive`, `JsonSchemaTheorems`, `JsonSchemaSizes`,
  `JsonSchemaValidator`, `JsonSchemaChecker`, `Sinks`). The error list as a function, a permissive meaning of every
  schema however malformed, the strict meaning of JSON Schema 2020-12 (Core sections 10.2.1 and 10.3, Validation
  section 6), both with their keywords spelled out, and the imperative walks that push onto shared lists.
- **Schedulers** (`KeyedChains`, `WorkerPool`). Keyed promise chains and a bounded worker pool over
  run-to-completion turns.
- **Companions** (`StringLiterals`, `EmbeddedJson`, `EmbeddedJsonComplete`, `JsonControls`, `EditDistance`,
  `BundleIds`, `ExtraParams`, `JsonComments`, `JsonCommentGrammar`).
  Finding JSON in prose, did-you-mean distance, unique ids, the config lift, and JSONC comments.

Foreign code appears as parameters: `JSON.parse`, content hashes (collision-free), short hashes (any function, with
collisions), path slugs, key normalisation, ages, directory order, process ids and the answers of the kernel.

## Where the code and its documentation differ

The model follows the code.

- `src/core/json-schema.ts:38-40` speaks of a shared node-visit budget and of never failing open. There is no
  budget (`EvalCtx`, lines 443-453); work is bounded anyway (`ValidateJsonSchemaSubset`). And under `not` the
  validator can fail open (`NegationFailsOpen`); it cannot for definitions without issues (`CheckedSchemaIsExact`),
  nor, however deep the rest, when nothing below a `not` or a `oneOf` reaches past the bound (`FailsClosed`).
- `src/core/extra-params.ts:152-155` says an engine with a conflict is left untouched. Its other keys are lifted
  (`ConflictDoesNotStopTheLift`); when an engine is left untouched is `UntouchedIff`.
- `src/core/fs-txn.ts:20-26` promises all or nothing after a crash anywhere. A process killed between the rename of a
  phase and its directory flush breaks that when recovery then removes sidecars under the unflushed journal and the
  power goes: at once if the commit phase is the last one, and otherwise after one more such kill per remaining
  phase. `SlipsToleratedIff` counts exactly how many are survived, `SlipsMixFiles` builds the failing runs.
- `src/core/fs-txn.ts:180-182` treats directory fsync as best effort. What is lost without it, and what else the
  file system must guarantee, is stated exactly by `FinishedWriteIsDurableIff` and `BegunIsFoundIff`.

## Model

| member | source | states |
|---|---|---|
| Disk.DurableWriteIsAtomic | src/core/fs-txn.ts:187-193 | a power cut after any primitive of a durable write leaves the whole old or the whole new content: the old one before the rename, the new one after the directory flush |
| Disk.NothingIsDurable | src/core/fs-txn.ts:170-184 | without directory fsync every outcome possible before a script is still possible after it, whatever it flushed |
| Disk.FinishedWriteIsDurableIff | src/core/fs-txn.ts:170-193 | a finished durable write survives every power cut if and only if directories can be flushed |
| FsTxn.IndexOf | src/core/fs-txn.ts:371-374 | the first position of a phase, or -1 exactly when it is unknown |
| FsTxnSafety.CrashKeepsSafe | src/core/fs-txn.ts:397-433 | a power cut in a safe state, recovering or not, leaves a safe state of the same direction |
| FsTxnSafety.ForeignKeepsSafe | src/core/fs-txn.ts:405-431 | whatever other transactions of the namespace do, directory flushes included, this one stays safe at every primitive |
| FsTxnSafety.CleanupKeepsSafe | src/core/fs-txn.ts:284-300 | removing a final transaction's directory in any order, or failing on the way, is safe at every primitive and leaves the files final |
| FsTxnSafety.JournallessIsFinal | src/core/fs-txn.ts:321-330 | in a safe state a directory without a journal belongs to a batch whose files are all final |
| FsTxnSafety.ResumeSettles | src/core/fs-txn.ts:420-428 | the recovery decision (back, forward, or nothing at the terminal phase) is safe at every primitive and ends with the files final |
| FsTxnSafety.RecoverSettles | src/core/fs-txn.ts:405-431 | one entry of a scan is never refused for a transaction of a known kind, is safe throughout, and ends final, resumed, swept or left |
| FsTxnRuns.BeginIsSafe | src/core/fs-txn.ts:246-281 | begin is safe at every primitive, and afterwards journal and directory are secured if and only if directories can be flushed and flushing one secures its entry |
| FsTxnRuns.CommitWindow | src/core/fs-txn.ts:231-239 | a power cut between the commit rename and its flush shows the old phase or the new one, and either is recoverable in its direction |
| FsTxnRuns.AfterCommitFlush | src/core/fs-txn.ts:231-239 | once the commit write has returned only committed journals can ever be found |
| FsTxnRuns.ForwardIsSafe | src/core/fs-txn.ts:231-300 | begin, apply, commit, finalize, cleanup: undoable at every primitive before the commit rename, redoable at every primitive after the commit flush, both in between, and complete at the end |
| FsTxnRuns.CrashDecides | src/core/fs-txn.ts:231-239 | a power cut in a state that is open in both directions leaves one that is safe in one of them |
| FsTxnRuns.AttemptsStaySafe | src/core/fs-txn.ts:397-433 | any number of recoveries, each interrupted after any primitive by a power cut or a kill, keep the direction |
| FsTxnWindow.UndecidedPass | src/core/fs-txn.ts:405-431 | a complete scan after a kill between a journal rename and its flush ends with the files final, and keeps both directions open until the journal is flushed |
| FsTxnWindow.AttemptsStayRecoverable | src/core/fs-txn.ts:397-433 | after such a kill any interrupted recoveries leave the transaction recoverable, as long as fewer of them are killed in such a window again than there are phases to go |
| FsTxnTheorems.CrashAtomicity | src/core/fs-txn.ts:376-433 | a run stopped by a power cut or a kill after any primitive, any chain of interrupted recoveries, then one complete recovery: all files before or all after, decided by the journal on disk; never rolled back once the commit write returned; for a kill between the commit rename and its flush under the condition named by Tolerates |
| FsTxnTheorems.KilledAtLastPhase | src/core/fs-txn.ts:420-430 | when the commit phase is the last, a kill in the commit window is made good by a recovery that is not interrupted |
| FsTxnTheorems.SweepLosesNothing | src/core/fs-txn.ts:302-330 | in every reachable state a directory without a journal is final, and removing it, even partly, keeps the files final |
| FsTxnTheorems.BegunIsFoundIff | src/core/fs-txn.ts:246-281 | after begin the journal is found after every power cut if and only if directories can be flushed and flushing a new directory secures the entry that leads to it |
| FsTxnBatch.PublishSteps | src/core/fs-txn.ts:187-193 | publishing or deleting one file durably passes through the old slot, both contents, the new slot, and touches no other path |
| FsTxnBatch.RollbackSteps | src/core/fs-txn.ts:100-101 | restoring the files one by one keeps the batch undoable at every primitive and restores each in turn, started from any interrupted rollback |
| FsTxnBatch.FinalizeSettles | src/core/fs-txn.ts:102-107 | resuming from any committed phase of any vocabulary advances to the terminal one, safely at every primitive |
| FsTxnBatch.BatchFlushesFirst | src/core/fs-txn.ts:231-239 | out of a kill in a journal window finalize flushes the journal before anything else, with both directions open until then |
| FsTxnBatch.BatchMeetsContract | src/core/fs-txn.ts:87-108 | the kind that applies journaled file changes meets the handler contract |
| FsTxnBatch.ApplyPrepares | src/core/fs-txn.ts:241-245 | staging the old contents and publishing the new ones is undoable at every primitive and ends ready to commit |
| FsTxnBatchTheorems.BatchIsAtomic | src/core/fs-txn.ts:54-64 | all or nothing for every list of file changes and every phase vocabulary, stopped by a power cut or a kill anywhere, with no assumption about a handler left |
| FsTxnSlips.SlipsToleratedIff | src/core/fs-txn.ts:420-431 | a kill in the commit window and up to n more kills in later journal windows leave every batch all or nothing if and only if more than n phases follow the commit phase |
| FsTxnSlips.SlipsMixFiles | src/core/fs-txn.ts:420-431 | otherwise a run exists, for every vocabulary, that ends with one file new and the other old |
| FsTxnBatchTheorems.OneFileMeetsAssumptions | src/core/fs-txn.ts:246-281 | the assumptions of BatchIsAtomic are met by the update of any one file under the root, from a fresh id on |
| FsTxnEngine.FileSystem.WriteTxnFileDurably | src/core/fs-txn.ts:187-193 | performs exactly the durable write: temporary file, fsync, rename, directory fsync |
| FsTxnEngine.Engine.AdvanceTxn | src/core/fs-txn.ts:231-239 | unknown kinds and phases are refused with nothing written; otherwise the phase is durable before memory follows |
| FsTxnEngine.Engine.BeginTxn | src/core/fs-txn.ts:246-281 | refuses unregistered kinds, accepts exactly the ids spelled in letters, digits, dot, underscore and dash that are not one or two dots, and then performs begin and returns the journal at the first phase |
| FsTxnEngine.Engine.SweepJournallessTxnDir | src/core/fs-txn.ts:321-330 | tries to remove the directory exactly when it is past the grace period; true exactly when that went through |
| FsTxnEngine.Engine.RecoverEntry | src/core/fs-txn.ts:405-431 | one entry: sweep, refuse, skip, or resume and clean up, with unknown kinds swept before the filter is asked |
| FsTxnEngine.Engine.RecoverTxnsForRoot | src/core/fs-txn.ts:397-433 | the whole scan in listing order, stopping at the first refused journal with the earlier ones recovered; it fails exactly when some entry must be refused, and recovers only journals of this root with changes below it |
| FsTxnFences.EntryDecision | src/core/fs-txn.ts:360-428 | what one entry gets, by the journal found there: refused exactly when it is damaged, or known and wanted but bound to another root, at an unknown phase, outside the root or refused by its kind; else rolled back before the commit phase, finalized from it, cleaned up at the end, swept when abandoned and old, or left |
| FsTxnFences.RefusalNamesTheFence | src/core/fs-txn.ts:340-374 | a refusal names the first fence that the journal fails |
| FsTxnEngine.ScanRefusesIff | src/core/fs-txn.ts:397-433 | a scan fails exactly when an entry, as it finds it, must be refused, and then every primitive it performed belongs to an entry before |
| FsTxnEngine.ScanResumesExactly | src/core/fs-txn.ts:397-433 | the journals recovered are those of the entries that must be resumed, each once and in listing order |
| FsTxnEngine.ErrorsStop | src/core/fs-txn.ts:405-431 | nothing after a refused journal is visited |
| FsTxnEngine.Engine.ListTxnJournals | src/core/fs-txn.ts:440-459 | every matching journal in order, or the first unreadable one |
| FsTxnEngine.Engine.ListTxnJournalsTolerant | src/core/fs-txn.ts:483-509 | every matching journal in order and all unreadable ones |
| FsTxnEngine.ListsExactly | src/core/fs-txn.ts:440-509 | a listing has exactly the journals that are there, can be read and are asked for, in order |
| FsTxnEngine.CountsExactly | src/core/fs-txn.ts:483-509 | as unreadable it counts exactly the journals that are there and cannot be read |
| FsTxnEngine.TolerantAgreesWithStrict | src/core/fs-txn.ts:440-509 | the strict listing fails exactly when the tolerant one counts something unreadable, and otherwise they agree |
| FsTxnScan.ScanSettles | src/core/fs-txn.ts:397-433 | what RecoverTxnsForRoot performs over a whole namespace, past clean-ups that fail, is safe for a transaction at every primitive and final once its entry was visited |
| AtomicWrite.OldOrNewAfterCrash | src/core/common.ts:166-235 | what a power cut leaves of a target that is only ever old or new |
| AtomicWrite.WriteAll | src/core/common.ts:180-185 | short writes are continued, no progress is an error, so the loop ends and success means exactly the input was written |
| AtomicWrite.FillAndRename | src/core/common.ts:176-191 | the temporary file is created exclusively, filled, flushed and closed before the rename; any failure leaves the target as it was |
| AtomicWrite.WriteFileAtomic | src/core/common.ts:166-235 | for all answers of the kernel: old or new at every primitive, no foreign temporary file touched, errors before the rename change nothing, durable when the directory flush went through, and every error is that of a call that failed, so without one the write succeeds |
| FileLock.StepKeepsInv | src/core/file-lock.ts:115-317 | every step of every process, and of a writer outside the protocol, keeps the lock invariant; a process may hold any number of handles and verdicts, and use any of them at any time and repeatedly |
| FileLockTheorems.MutualExclusion | src/core/file-lock.ts:144-163 | over all interleavings without an age bound, late and repeated releases included, a handle that a live process has not released has its exact sentinel at the path, and there is at most one, within one process too |
| FileLockTheorems.AcquisitionsAreDistinct | src/core/file-lock.ts:144-163 | each acquisition of an interleaving returns a handle for a file that no handle was ever for |
| FileLockTheorems.ReleaseSparesSuccessor | src/core/file-lock.ts:296-317 | over all interleavings, age bound or not, a release of any handle of its process changes the path only by removing the sentinel that handle was returned for, at its first release, and never a successor's, of the same process or another |
| FileLockTheorems.RepeatedReleaseChangesNothing | src/core/file-lock.ts:296-317 | once a handle is released its sentinel is off the path for good, and every further release of it changes nothing |
| FileLock.CheckIsExact | src/core/file-lock.ts:311-315 | body and identity match exactly while the handle's own sentinel stands at the path, so never for a released handle |
| FileLock.MatchMeansNoOwner | src/core/file-lock.ts:247-255 | without an age bound a sentinel that matches stale evidence is no live owner's |
| FileLockTheorems.ReclaimRemovesOnlyWhatWasProbed | src/core/file-lock.ts:238-294 | over all interleavings a reclaim removes only a sentinel whose body and identity are the probed ones, so a probe of a half-written body never removes the finished one |
| FileLockTheorems.ReclaimHasOneWinner | src/core/file-lock.ts:238-294 | no two removals of an interleaving acted on one complete body; two on the same incomplete evidence removed different files that shared one inode |
| FileLockTheorems.RemovedStaysRemoved | src/core/file-lock.ts:284-291 | from its removal on, a sentinel never returns to the path and is in nobody's quarantine |
| FileLockTheorems.FalseReclaimLeavesNoGap | src/core/file-lock.ts:268-282 | from the rename to the link: the file given back is the one that was taken, and the path is occupied by it or by a sentinel created since, which it did not replace |
| FileLock.SoleOwner | src/core/file-lock.ts:66-77 | two live handles would both claim the one sentinel at the path |
| FileLockMethods.Machine.WithLockOperationMutex | src/core/file-lock.ts:115-142 | up to five attempts; success means the operation is inside the mutex, failure leaves everything as it was |
| FileLockMethods.Machine.TryAcquireLockSync | src/core/file-lock.ts:144-185 | under interference and whatever handles the process has already: a returned handle is new, has its exact sentinel at the path and, without an age bound, is the only live one; the answer that one exists means something stands at the path, and a failure that the mutex is taken or a call was refused |
| FileLockMethods.Machine.TryAcquireLockRaw | src/core/file-lock.ts:144-163 | under the mutex: exclusive creation, the body in pieces, and the snapshot that becomes the handle |
| FileLockMethods.Machine.WriteBody | src/core/file-lock.ts:144-150 | the body arrives in any number of pieces and may stop after any of them |
| FileLockMethods.Machine.ReadLockSnapshot | src/core/file-lock.ts:79-97 | the file at the path at one moment, its content at a later one, its identity at a still later one |
| FileLockMethods.Machine.ProbeLock | src/core/file-lock.ts:203-230 | absent with nothing at the path, held by a process alive at the verdict, or stale: unparseable, of a process that is dead, or past the age bound |
| FileLockMethods.Machine.ReclaimStaleLock | src/core/file-lock.ts:238-294 | won: this call alone removed one file nobody had removed before, on the evidence given; otherwise it removed none: lost when nothing at the path fits the evidence, given back when the file taken does not, which leaves the path occupied, and threw on a taken mutex or a refused link |
| FileLockMethods.Machine.ReleaseLock | src/core/file-lock.ts:302-317 | any handle, released before or not: its own sentinel goes if it stands at the path, which without an age bound it does at the first release; a release repeated changes nothing; without the mutex all handles are as they were |
| FileLockMethods.OthersKeep | src/core/file-lock.ts:108-114 | what a process may rely on while any number of steps of others run, in particular under the mutex |
| MaintenanceBarrier.StepKeepsInv | src/core/maintenance-barrier.ts:60-124 | every step of every context of every process keeps the flag, the stack and, without ageing, the sentinel in agreement |
| MaintenanceBarrier.ActiveMeansHeld | src/core/maintenance-barrier.ts:60-71 | while no holder outlives the age bound, a context with an active flag belongs to the one process that holds the barrier |
| MaintenanceBarrier.SynchronousBodiesRunUnderTheBarrier | src/core/maintenance-barrier.ts:60-84 | from start to return a synchronous body runs under the barrier, acquired, nested or in a leftover context |
| MaintenanceBarrier.LeftoverContextReacquires | src/core/maintenance-barrier.ts:60-71 | from the moment a call clears its flag, a context that still carries it gets into a body only by a new acquisition, whose sentinel never existed before; also when holders outlive the age bound |
| MaintenanceBarrier.LateReleaseSparesSuccessor | src/core/maintenance-barrier.ts:62-70 | once a call's sentinel was taken away, by age or otherwise, its release leaves whatever stands there in peace |
| MaintenanceBarrier.OnlyItsCallReleases | src/core/maintenance-barrier.ts:60-84 | a sentinel disappears only by a reclaim or by the release of the very call that acquired it, flag already cleared |
| MaintenanceBarrier.TrustRestsOnTheAgeBound | src/core/maintenance-barrier.ts:16-29 | the flag can be trusted in every execution if and only if no holder outlives the age bound |
| MaintenanceBarrier.UnawaitedBodyOutlivesBarrier | src/core/maintenance-barrier.ts:96-106 | example: an asynchronous nested body that nobody awaits is still running after the barrier is released |
| MaintenanceBarrierAsync.RestStays | src/core/maintenance-barrier.ts:86-106 | any number of actions of everything but one task, the other tasks of its process included, leave that task and its acquisitions as they were |
| MaintenanceBarrierAsync.RunOwn | src/core/maintenance-barrier.ts:96-106 | across all awaits of a body under its own acquisition every piece of work is done once and sees the same sentinel, up to where the body throws, and nothing is acquired or released |
| MaintenanceBarrierAsync.AcquireAsync | src/core/maintenance-barrier.ts:86-94 | tries until the deadline with everything else running in between; a success is a new hold with its sentinel at the path, a failure means that the barrier was found taken at every try |
| MaintenanceBarrierAsync.WithMaintenanceStartBarrierAsync | src/core/maintenance-barrier.ts:96-106 | the body is run, once and to its end or its throw, unless the barrier was found taken at every try; nested in its own call: no acquisition; not under a flag: acquired first, released last on every way out, all work in between under it |
| MaintenanceBarrierCalls.OthersKeep | src/core/maintenance-barrier.ts:36-48 | any number of actions of other processes leave this process's tasks, flags and holds as they were |
| MaintenanceBarrierCalls.Process.TryAcquireMaintenanceBarrier | src/core/maintenance-barrier.ts:36-48 | two attempts; a success is a new hold with its sentinel at the path; otherwise nothing was taken and the barrier was found taken, by a live holder or one that lost it since, or a reclaim was lost |
| MaintenanceBarrierCalls.Process.RunBody | src/core/maintenance-barrier.ts:60-84 | all work of a body under an active flag is done, up to where it throws, while the sentinel is its own; nested calls acquire and release nothing, and exactly the body's continuations are left behind |
| MaintenanceBarrierCalls.Process.RunAndRelease | src/core/maintenance-barrier.ts:64-70 | whether the body returns or throws, the flag is cleared, then the sentinel released, and the context is as before the call |
| MaintenanceBarrierCalls.Process.WithMaintenanceStartBarrier | src/core/maintenance-barrier.ts:60-124 | the synchronous wrappers: the body is run, once and to its end or its throw, unless the barrier was found taken at every try; nested: no acquisition; else acquired first and released last on every way out, with the flag cleared and nothing held |
| MaintenanceBarrierCalls.Process.RunLeftover | src/core/maintenance-barrier.ts:60-71 | a continuation that outlived its call acquires anew, and then is run to its end, or found the barrier taken at every try and runs nothing |
| JsonSchemaMeaning.VerdictIsAccepts | src/core/json-schema.ts:509-640 | for every schema, well formed or not, the error list is empty exactly when the permissive meaning holds |
| JsonSchemaMeaning.CombinatorVerdict | src/core/json-schema.ts:476-507 | the combinators add no error exactly when allOf, anyOf, oneOf and not hold of the branch verdicts |
| JsonSchemaMeaning.ChoiceVerdict | src/core/json-schema.ts:482-501 | collecting matched branches reports nothing exactly when some branch, for oneOf exactly one, accepts |
| JsonSchemaMeaning.CountTrue | src/core/json-schema.ts:486-500 | the matched numbers are empty, one, or several exactly as the verdicts hold nowhere, once, or more often |
| JsonSchemaMeaning.OwnVerdict | src/core/json-schema.ts:550-640 | the per-type checks report nothing exactly when bounds, items, required, properties and closedness hold |
| JsonSchemaMeaning.PropertyVerdict | src/core/json-schema.ts:615-625 | declared properties are checked exactly where the value has them as own keys |
| JsonSchemaMeaning.ExtraVerdict | src/core/json-schema.ts:632-638 | additionalProperties: false reports nothing exactly when every own key is declared |
| JsonSchemaDefinition.NoIssuesIffWellFormed | src/core/json-schema.ts:219-412 | the definition walk reports no issue exactly for well-formed definitions within the depth bound |
| JsonSchemaStrict.Agreement | src/core/json-schema.ts:476-640 | on well-formed definitions the permissive and the strict meaning agree; beyond the depth bound, with nothing cut short below not and oneOf, acceptance implies validity |
| JsonSchemaStrict.CombinatorsAgree | src/core/json-schema.ts:476-507 | the combinators agree with sections 10.2.1 and 10.3 of JSON Schema Core 2020-12 |
| JsonSchemaStrict.AssertionsAgree | src/core/json-schema.ts:516-638 | the assertions agree with section 6 of JSON Schema Validation 2020-12, lengths counted in UTF-16 code units |
| JsonSchemaStandard.StrictIsTheStandard | src/core/json-schema.ts:476-640 | the strict meaning satisfies, at every schema and instance, the meaning of each keyword of 2020-12 by its name, written out |
| JsonSchemaStandard.WellFormedIsSpelled | src/core/json-schema.ts:219-412 | the definitions without issues are, keyword by name, those of the supported shape within the depth bound |
| JsonSchemaStandard.BeyondIsReported | src/core/json-schema.ts:112-152 | a keyword is reported as unsupported exactly when it is one that constrains in JSON Schema and is not evaluated |
| JsonSchemaStandard.LengthIsUtf16 | src/core/json-schema.ts:550-558 | the length compared is the number of code units of the UTF-16 encoding |
| JsonSchemaStandard.IssuesSpelled | src/core/json-schema.ts:219-412 | what is reported of a node nested too deep, and which malformed arguments count as unsupported rather than malformed |
| JsonSchemaPermissive.AcceptsIsSpelled | src/core/json-schema.ts:476-640 | what a schema object accepts, however malformed, keyword by name: a keyword of the wrong shape constrains nothing |
| JsonSchemaPermissive.ErrorsPointHome | src/core/json-schema.ts:509-640 | the path of every error leads to a part of the value, and what the error says of type, bound, length, matches or members is so of that part |
| JsonSchemaTheorems.CheckedSchemaIsExact | src/core/json-schema.ts:189-193 | a definition without issues is evaluated exactly on every value, and never with a depth error |
| JsonSchemaTheorems.NeverTooDeep | src/core/json-schema.ts:511-514 | below a well-formed definition no depth error is ever reported |
| JsonSchemaTheorems.FailsClosed | src/core/json-schema.ts:37-42 | however deep the definition, an accepted value is valid as long as nothing below a not or a oneOf reaches past the depth bound |
| JsonSchemaTheorems.CheckedIsShallow | src/core/json-schema.ts:219-412 | that condition covers every definition without issues |
| JsonSchemaTheorems.NegationFailsOpen | src/core/json-schema.ts:503-514 | a family of definitions that accept nothing is accepted exactly once the depth bound falls inside the not, which is when the condition of FailsClosed fails and when the definition walk reports them |
| JsonSchemaTheorems.LengthChecksAgree | src/core/json-schema.ts:550-558 | length checks agree with counting characters, for every bound, exactly when no character needs a surrogate pair |
| JsonSchemaValidator.ValidateJsonSchemaSubset | src/core/json-schema.ts:68-76 | returns the specified errors with at most size(schema) times size(value) node visits |
| JsonSchemaValidator.ValidateNode | src/core/json-schema.ts:509-640 | pushes the specified errors of one node onto the shared list, within its share of the visits |
| JsonSchemaValidator.ValidateCombinators | src/core/json-schema.ts:476-507 | pushes the combinator errors, branches evaluated into scratch lists |
| JsonSchemaValidator.BranchErrors | src/core/json-schema.ts:456-460 | the errors of a branch one level deeper, without touching the caller's list |
| JsonSchemaChecker.CheckJsonSchemaDefinition | src/core/json-schema.ts:189-193 | returns the specified issues of a definition with at most size(schema) node visits |
| JsonSchemaChecker.CheckDefinitionNode | src/core/json-schema.ts:219-412 | pushes the issues of one node and its subschemas in the order of the walk, within its share of the visits |
| KeyedChains.Chains.SerializeByKey | src/core/concurrent.ts:17-36 | chains a call to the current tail and makes it the map entry |
| KeyedChains.Chains.OnSettled | src/core/concurrent.ts:30-34 | the clean-up deletes the entry only while it is still this task's |
| KeyedChains.OneAtATimeInOrder | src/core/concurrent.ts:17-36 | while a task of a key runs, all earlier ones have settled, well or badly, and all later ones are queued |
| KeyedChains.MapHoldsNewestTail | src/core/concurrent.ts:29-34 | while anything of a key is queued or running the map holds its newest task; once all are cleaned up the key is gone |
| KeyedChains.CleanUpSparesLaterTail | src/core/concurrent.ts:30-34 | the clean-up of a task never removes a later task's tail |
| KeyedChains.NeverWedged | src/core/concurrent.ts:24-28 | the earliest unsettled task of a key is running or can start, whatever failed before it |
| WorkerPool.Pool.RunWorker | src/core/concurrent.ts:64-68 | up to the next await: leave the loop, or claim the next index |
| WorkerPool.Pool.ResumeWorker | src/core/concurrent.ts:69-73 | stores the value in its own slot, or swallows the failure |
| WorkerPool.ClaimsAndSlots | src/core/concurrent.ts:55-79 | in every interleaving claims are the prefix, each once and in order, at most min(concurrency, n) are in flight, and a slot holds only its own item's result |
| WorkerPool.PoolIsMin | src/core/concurrent.ts:76 | there are min(concurrency, n) workers, none for a negative concurrency |
| WorkerPool.NothingClaimedAfterAbort | src/core/concurrent.ts:41-47 | once the signal has fired no further item is claimed in any interleaving, and what is in flight goes on |
| WorkerPool.CompleteWhenAllReturned | src/core/concurrent.ts:55-79 | when all workers returned every item was run unless aborted or concurrency was below one, and slots hold exactly the outcomes of the claimed prefix |
| WorkerPool.WorkShrinks | src/core/concurrent.ts:62-78 | every move of a worker shrinks a natural measure, so every interleaving ends |
| EmbeddedJson.FindsPrinted | src/core/parse.ts:148-177 | started on a printed object or array the balanced scan stops exactly at its last character, whatever follows |
| EmbeddedJson.FindBalancedEnd | src/core/parse.ts:153-177 | the inner loop finds the bracket that closes the opener, outside strings and escapes |
| EmbeddedJson.ParseEmbeddedJsonResponse | src/core/parse.ts:132-201 | the scan with its jumps past accepted structures and its retries after rejected ones |
| EmbeddedJson.ScannerRoundTrip | src/core/parse.ts:141-200 | prose woven with printed values yields the first object, else the first array; in array mode the first top-level array, never one nested in an object |
| EmbeddedJsonComplete.FindEndIsBalanced | src/core/parse.ts:148-177 | the inner loop stops at an index exactly if the piece up to it is balanced by the grammar of brackets and string literals |
| EmbeddedJsonComplete.ResultIsFirstOutermost | src/core/parse.ts:132-201 | for every text and parser: among the balanced pieces that parse and lie in no other, the first array where one is asked for, else the first that is not an array or failing that the first; nothing exactly when there is none |
| EmbeddedJsonComplete.OutermostIsUnique | src/core/parse.ts:141-200 | the outermost pieces of a text are determined |
| EmbeddedJson.FoundIsParsed | src/core/parse.ts:181-200 | every result is the parse of a piece of the text, an array in array mode |
| JsonControls.EscapeJsonStringControls | src/core/parse.ts:51-89 | the loop computes the escaped text |
| JsonControls.EscapeIsIdempotent | src/core/parse.ts:46-89 | escaping twice is escaping once and keeps the parity of quotes |
| JsonControls.PrintIsRepaired | src/core/parse.ts:46-89 | JSON printed with raw line breaks and tabs in its strings is repaired to exact JSON |
| JsonControls.SloppyRoundTrip | src/core/parse.ts:132-201 | escaper and scanner together find sloppily printed values in prose exactly |
| EditDistance.EditDistance | src/cli/unknown-flags.ts:154-165 | the two-row loop computes the recursive Levenshtein distance |
| EditDistance.ZeroIsEquality | src/cli/unknown-flags.ts:153-165 | distance zero only on equality |
| EditDistance.Symmetric | src/cli/unknown-flags.ts:153-165 | the distance is symmetric |
| EditDistance.Triangle | src/cli/unknown-flags.ts:153-165 | the triangle inequality |
| EditDistance.NoShorterPath | src/cli/unknown-flags.ts:153-165 | no sequence of single insertions, deletions and substitutions is shorter than the distance |
| EditDistance.PathExists | src/cli/unknown-flags.ts:153-165 | a sequence of exactly that many single edits exists |
| EditDistance.ClosestMatch | src/cli/unknown-flags.ts:173-184 | a suggestion exactly when some candidate is within the threshold, and then the earliest of least distance |
| BundleIds.EnsureUniqueId | src/core/bundle-id.ts:46-53 | the preferred name, else suffixed, else with the first free number, which exists for every finite used set |
| BundleIds.SearchIsBounded | src/core/bundle-id.ts:50-52 | at most as many numbers are tried as names are used |
| BundleIds.DeriveBundleId | src/core/bundle-id.ts:22-28 | returns an unused id and adds it to the caller's set |
| BundleIds.DeriveBundleIds | src/core/bundle-id.ts:31-44 | the ordered batch, explicit ids reserved first |
| BundleIds.IdIsFirstFree | src/core/bundle-id.ts:30-53 | each id of a batch is the configured id or the slug, with the hash behind a dash if that is taken, with the first free number from 2 if that is taken too |
| BundleIds.IdsAreDistinct | src/core/bundle-id.ts:31-44 | the ids of a batch are pairwise distinct for every slug and hash function |
| BundleIds.ExplicitIdsAreKeptIff | src/core/bundle-id.ts:30-44 | every explicit id is kept exactly, wherever it stands, if and only if the explicit ids are pairwise distinct |
| ExtraParams.ValidateExtraParams | src/core/extra-params.ts:89-129 | returns the issues of the depth-first visit |
| ExtraParams.ProtectedIff | src/core/extra-params.ts:112-120 | a protected-key issue is reported exactly for the top-level keys that normalise to a protected name |
| ExtraParams.ProtectedIffSpelled | src/core/extra-params.ts:7-32 | the same with the protected names written out |
| ExtraParams.CredentialIff | src/core/extra-params.ts:97-126 | a secret is reported wherever it is nested, with the path that leads to it, and nothing else is |
| ExtraParams.FieldsAre | src/core/extra-params.ts:43-60 | the four keys that move and the fields they move to |
| ExtraParams.LiftLegacyEngine | src/core/extra-params.ts:188-229 | one engine's pass over its extras, on copies |
| ExtraParams.LiftLegacyEngineExtraParams | src/core/extra-params.ts:177-236 | the pass over all engines, returning the same config when nothing changed |
| ExtraParams.PassExtends | src/core/extra-params.ts:197-217 | no field that was set is overwritten |
| ExtraParams.LiftEngineLosesNothing | src/core/extra-params.ts:188-229 | every set field is unchanged, and every extra is still there or is now the value of its field |
| ExtraParams.LeftoversAreConflicts | src/core/extra-params.ts:197-217 | the liftable keys that remain are exactly those reported as conflicts |
| ExtraParams.LiftEngineTwice | src/core/extra-params.ts:188-229 | a second pass over an engine lifts nothing and reports the same conflicts |
| ExtraParams.LiftIsPerEngine | src/core/extra-params.ts:177-236 | the lift of a config is the pass over each engine in order, with their notes and conflicts, and touches nothing else |
| ExtraParams.NothingToLift | src/core/extra-params.ts:177-195 | engines that are no object, and extras that are none, are left as they are |
| ExtraParams.LiftIsIdempotent | src/core/extra-params.ts:177-236 | a second pass over the config lifts nothing, changes nothing and reports the same conflicts |
| ExtraParams.CleanLiftValidates | src/core/extra-params.ts:89-129 | after a lift without conflicts validation reports none of the four liftable keys |
| ExtraParams.UntouchedIff | src/core/extra-params.ts:150-155 | an engine, with conflicts or without, is left untouched if and only if each of its extras that has a first-class field finds it already set to a different value |
| ExtraParams.ConflictDoesNotStopTheLift | src/core/extra-params.ts:150-155 | an input that fails that condition: an engine with a conflict has its other key lifted |
| JsonComments.StripJsonComments | src/core/common.ts:104-142 | the loop computes the stripped text |
| JsonCommentGrammar.ReadingIsValid | src/core/common.ts:104-142 | every text can be read by a grammar of code, string literals and comments |
| JsonCommentGrammar.ReadingIsUnique | src/core/common.ts:104-142 | and in one way only |
| JsonCommentGrammar.KeptIsValid | src/core/common.ts:104-142 | leaving the comments out joins nothing to a comment: what is kept is read part by part as before |
| JsonCommentGrammar.StripRemovesExactlyComments | src/core/common.ts:98-142 | the output is the text without its comments and has none, text is unchanged exactly when it has none, and stripping twice is stripping once |
| JsonCommentGrammar.LiteralsAreKept | src/core/common.ts:109-127 | the string literals of input and output are the same, escapes and comment look-alikes included |

## Left out

- FsTxnTheorems.CrashAtomicity: after a kill between the commit rename and its flush a general handler is asked to
  flush the journal first and to be killed in such windows fewer times than phases remain; the count is proved exact
  for the kind of `FsTxnBatch`, where `SlipsToleratedIff` is an equivalence.
- FsTxnTheorems.CrashAtomicity: the kind's commit phase is not its first phase, handlers write no path of another transaction,
  and one writer at a time works on a root; nothing in the engine enforces these.
- FsTxnEngine.Engine.RecoverTxnsForRoot: asynchronous handlers are scripts determined by the disk they start from,
  directory order and ages are inputs, roots are already canonical spellings, and all namespaces are one list.
- FsTxnEngine.Engine.AdvanceTxn: moving forward only is the caller's duty, as in the code; the phase is only
  required to be in the vocabulary.
- Removal of an empty namespace directory, file modes, and the test hook of src/core/fs-txn.ts.
- AtomicWrite.WriteFileAtomic: which failure is rethrown when closing or unlinking fails as well, and file modes.
- FileLockTheorems.MutualExclusion: `staleAfterMs` unset, since an age bound lets a live owner be replaced; and every
  body is made once by a process that it names, as createLockPayload does; a bare process id as body is not unique.
- FileLock.StepKeepsInv: the snapshot taken under the mutex is one step; SQLite is a mutex that death releases,
  process ids are not reused, unreadable and inaccessible sentinels are failures without effect; the shortcut of a
  release that finds neither a sentinel nor the mutex file is not taken, as the mutex file outlives acquisitions.
- MaintenanceBarrierCalls.Process.WithMaintenanceStartBarrier: deadlines are a number of polls; acquiring and setting
  the flag are one step; no holder outlives the age bound; the registration of activities under their own lock files
  is an acquisition like any other.
- MaintenanceBarrierAsync.WithMaintenanceStartBarrierAsync: in a context lent by another task the body is run in order
  (`LentTrace`), but not every piece of it under one hold, since the lender may return meanwhile
  (`UnawaitedBodyOutlivesBarrier`).
- JsonSchemaValidator.ValidateJsonSchemaSubset: message wording, redaction and the truncation of branch summaries;
  strings are sequences of Unicode scalar values, so a lone surrogate is no value of the model.
- ExtraParams.ValidateExtraParams: cyclic and shared objects, and the `seen` set that guards against them.
- ExtraParams.LiftLegacyEngineExtraParams: integer-like engine names, which JavaScript reorders.
- JsonControls.EscapeJsonStringControls: removal of think blocks and code fences before it.
- EditDistance.ClosestMatch: the scans that collect flags and subcommands, and the fractional thresholds.
- Lock, lease and transaction liveness under contention, SQLite, configuration loading, transports, rendering and
  everything else of the repository.
