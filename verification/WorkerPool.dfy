/**
 * `concurrentMap` of src/core/concurrent.ts:55-79: workers share `nextIndex` and the result array, and any of
 * them may be the next to move.
 */
module WorkerPool {
  import opened Options
  import opened Sets

  datatype Worker = AtLoop | Awaiting(item: nat) | Returned

  /** `claims` is the order in which items were claimed; `finished` the items whose call came back. */
  datatype State<R> = State(
    nextIndex: nat,
    results: seq<Option<R>>,
    workers: seq<Worker>,
    aborted: bool,
    claims: seq<nat>,
    finished: set<nat>)

  /** `outcome(i)` is what `fn(items[i], i)` resolves to, or None when it throws. */
  datatype Job<!R> = Job(items: nat, concurrency: int, outcome: nat -> Option<R>)

  function PoolSize<R>(job: Job<R>): nat {
    var n := if job.concurrency < job.items then job.concurrency else job.items;
    if n < 0 then 0 else n
  }

  function Start<R>(job: Job<R>): State<R> {
    State(0, seq(job.items, _ => None), seq(PoolSize(job), _ => AtLoop), false, [], {})
  }

  datatype Move = Poll(worker: nat) | Resolve(worker: nat) | Abort

  predicate Enabled<R>(s: State<R>, move: Move) {
    match move
    case Poll(w) => w < |s.workers| && s.workers[w].AtLoop?
    case Resolve(w) => w < |s.workers| && s.workers[w].Awaiting? && s.workers[w].item < |s.results|
    case Abort => !s.aborted
  }

  function Next<R>(job: Job<R>, s: State<R>, move: Move): State<R>
    requires Enabled(s, move)
  {
    match move
    case Poll(w) =>
      if s.nextIndex >= job.items || s.aborted then s.(workers := s.workers[w := Returned])
      else s.(nextIndex := s.nextIndex + 1, workers := s.workers[w := Awaiting(s.nextIndex)],
              claims := s.claims + [s.nextIndex])
    case Resolve(w) =>
      var i := s.workers[w].item;
      s.(results := if job.outcome(i).Some? then s.results[i := job.outcome(i)] else s.results,
         workers := s.workers[w := AtLoop], finished := s.finished + {i})
    case Abort => s.(aborted := true)
  }

  /** The shared variables of one call. */
  class Pool<!R(0)> {
    const job: Job<R>
    const results: array<Option<R>>
    var nextIndex: nat
    var workers: seq<Worker>
    var aborted: bool
    ghost var claims: seq<nat>
    ghost var finished: set<nat>

    ghost function Now(): State<R>
      reads this, results
    {
      State(nextIndex, results[..], workers, aborted, claims, finished)
    }

    constructor (job: Job<R>)
      ensures this.job == job && Now() == Start(job) && fresh(results)
    {
      this.job := job;
      var slots := new Option<R>[job.items](_ => None);
      results := slots;
      nextIndex := 0;
      workers := seq(PoolSize(job), _ => AtLoop);
      aborted, claims, finished := false, [], {};
      new;
      assert results[..] == seq(job.items, _ => None);
    }

    /** Up to the next await: leave the loop, or claim the next item. */
    method RunWorker(w: nat)
      requires Enabled(Now(), Poll(w))
      modifies this
      ensures Now() == Next(job, old(Now()), Poll(w))
    {
      if nextIndex < job.items {
        if aborted {
          workers := workers[w := Returned];
          return;
        }
        var i := nextIndex;
        nextIndex := nextIndex + 1;
        claims := claims + [i];
        workers := workers[w := Awaiting(i)];
      } else {
        workers := workers[w := Returned];
      }
    }

    /** The awaited call came back: store its value, or swallow its failure. */
    method ResumeWorker(w: nat)
      requires Enabled(Now(), Resolve(w))
      modifies this, results
      ensures Now() == Next(job, old(Now()), Resolve(w))
    {
      var i := workers[w].item;
      finished := finished + {i};
      var value := job.outcome(i);
      if value.Some? {
        results[i] := value;
      }
      workers := workers[w := AtLoop];
    }
  }

  // ---------------------------------------------------------------- invariant

  predicate InFlight<R>(s: State<R>, i: nat) {
    exists w :: 0 <= w < |s.workers| && s.workers[w] == Awaiting(i)
  }

  ghost predicate Inv<R>(job: Job<R>, s: State<R>) {
    && s.nextIndex <= job.items && |s.results| == job.items && |s.workers| == PoolSize(job)
    // The claimed items are the prefix, each once and in order.
    && s.claims == seq(s.nextIndex, i => i)
    // Each claimed item is in the hands of one worker, or finished.
    && (forall i | 0 <= i < s.nextIndex :: InFlight(s, i) <==> i !in s.finished)
    && (forall i | i in s.finished :: i < s.nextIndex)
    && (forall w | 0 <= w < |s.workers| && s.workers[w].Awaiting? :: s.workers[w].item < s.nextIndex)
    && (forall v, w | 0 <= v < w < |s.workers| && s.workers[v].Awaiting? && s.workers[w].Awaiting? ::
          s.workers[v].item != s.workers[w].item)
    // A slot holds nothing before its own item has come back, and then exactly that item's outcome.
    && (forall i | 0 <= i < job.items :: s.results[i] == if i in s.finished then job.outcome(i) else None)
    // A worker leaves only when the items are all claimed or the signal has fired.
    && (forall w | 0 <= w < |s.workers| && s.workers[w].Returned? :: s.nextIndex == job.items || s.aborted)
  }

  lemma PollStep<R>(job: Job<R>, s: State<R>, w: nat)
    requires Inv(job, s) && Enabled(s, Poll(w))
    ensures Inv(job, Next(job, s, Poll(w)))
  {
    var s' := Next(job, s, Poll(w));
    forall i | 0 <= i < s'.nextIndex ensures InFlight(s', i) <==> i !in s'.finished {
      if i < s.nextIndex && InFlight(s, i) {
        var v :| 0 <= v < |s.workers| && s.workers[v] == Awaiting(i);
        assert s'.workers[v] == Awaiting(i);
      }
      if i < s.nextIndex && InFlight(s', i) {
        var v :| 0 <= v < |s'.workers| && s'.workers[v] == Awaiting(i);
        assert s.workers[v] == Awaiting(i);
      }
      if i == s.nextIndex {
        assert s'.workers[w] == Awaiting(i);
      }
    }
  }

  lemma ResolveStep<R>(job: Job<R>, s: State<R>, w: nat)
    requires Inv(job, s) && Enabled(s, Resolve(w))
    ensures Inv(job, Next(job, s, Resolve(w)))
  {
    var s' := Next(job, s, Resolve(w));
    forall i | 0 <= i < s'.nextIndex ensures InFlight(s', i) <==> i !in s'.finished {
      if InFlight(s', i) {
        var v :| 0 <= v < |s'.workers| && s'.workers[v] == Awaiting(i);
        assert s.workers[v] == Awaiting(i) && v != w;
        assert InFlight(s, i) && i != s.workers[w].item;
      }
      if i !in s'.finished {
        assert InFlight(s, i);
        var v :| 0 <= v < |s.workers| && s.workers[v] == Awaiting(i);
        assert s'.workers[v] == Awaiting(i);
      }
    }
  }

  ghost predicate Leads<R>(job: Job<R>, s: State<R>, move: Move, s': State<R>) {
    Enabled(s, move) && s' == Next(job, s, move)
  }

  ghost predicate Execution<R>(job: Job<R>, states: seq<State<R>>, moves: seq<Move>) {
    && |states| == |moves| + 1
    && states[0] == Start(job)
    && forall i | 0 <= i < |moves| :: Leads(job, states[i], moves[i], states[i + 1])
  }

  lemma {:induction false} ReachableInv<R>(job: Job<R>, states: seq<State<R>>, moves: seq<Move>, i: nat)
    requires Execution(job, states, moves) && i < |states|
    ensures Inv(job, states[i])
  {
    if i > 0 {
      ReachableInv(job, states, moves, i - 1);
      assert Leads(job, states[i - 1], moves[i - 1], states[i]);
      match moves[i - 1] {
        case Poll(w) => PollStep(job, states[i - 1], w);
        case Resolve(w) => ResolveStep(job, states[i - 1], w);
        case Abort => assert forall k :: InFlight(states[i], k) <==> InFlight(states[i - 1], k);
      }
    }
  }

  // ------------------------------------------------------------ main theorems

  function Flying(workers: seq<Worker>): set<nat> {
    set w | 0 <= w < |workers| && workers[w].Awaiting? :: workers[w].item
  }

  lemma {:induction false} FlyingIsFew(workers: seq<Worker>)
    ensures |Flying(workers)| <= |workers|
  {
    if workers != [] {
      var n := |workers| - 1;
      FlyingIsFew(workers[..n]);
      var last := if workers[n].Awaiting? then {workers[n].item} else {};
      assert Flying(workers) <= Flying(workers[..n]) + last by {
        forall i | i in Flying(workers) ensures i in Flying(workers[..n]) + last {
          var w :| 0 <= w < |workers| && workers[w].Awaiting? && workers[w].item == i;
          assert w < n ==> workers[..n][w] == workers[w];
        }
      }
      var all := Flying(workers[..n]) + last;
      assert |Flying(workers)| <= |all| by { SubsetIsSmaller(Flying(workers), all); }
    }
  }

  /** In every interleaving: items are claimed as the prefix, each exactly once and in order; at most
      min(concurrency, n) are in flight; and a slot only ever holds its own item's result. */
  lemma ClaimsAndSlots<R>(job: Job<R>, states: seq<State<R>>, moves: seq<Move>, i: nat)
    requires Execution(job, states, moves) && i < |states|
    ensures states[i].nextIndex <= job.items && states[i].claims == seq(states[i].nextIndex, k => k)
    ensures |Flying(states[i].workers)| <= |states[i].workers| == PoolSize(job)
    ensures |states[i].results| == job.items
    ensures forall k | 0 <= k < job.items ::
              states[i].results[k] == if k in states[i].finished then job.outcome(k) else None
  {
    ReachableInv(job, states, moves, i);
    FlyingIsFew(states[i].workers);
  }

  /** The pool has min(concurrency, n) workers. */
  lemma PoolIsMin<R>(job: Job<R>)
    ensures PoolSize(job) <= job.items
    ensures job.concurrency >= 0 ==> PoolSize(job) <= job.concurrency
    ensures PoolSize(job) == job.items || PoolSize(job) == if job.concurrency < 0 then 0 else job.concurrency
  {
  }

  /** Once the signal has fired no further item is claimed, in any interleaving; what is in flight goes on. */
  lemma {:induction false} NothingClaimedAfterAbort<R>(
    job: Job<R>, states: seq<State<R>>, moves: seq<Move>, i: nat, j: nat)
    requires Execution(job, states, moves) && i <= j < |states| && states[i].aborted
    ensures states[j].aborted && states[j].claims == states[i].claims && states[j].nextIndex == states[i].nextIndex
    ensures states[i].finished <= states[j].finished
    decreases j
  {
    if i < j {
      NothingClaimedAfterAbort(job, states, moves, i, j - 1);
      assert Leads(job, states[j - 1], moves[j - 1], states[j]);
    }
  }

  /** When every worker has returned, without abort and with room for at least one worker, every item has been
      run and every slot holds its outcome; after an abort, exactly the claimed prefix has. */
  lemma CompleteWhenAllReturned<R>(job: Job<R>, states: seq<State<R>>, moves: seq<Move>, i: nat)
    requires Execution(job, states, moves) && i < |states|
    requires forall w | 0 <= w < |states[i].workers| :: states[i].workers[w].Returned?
    ensures forall k | 0 <= k < job.items ::
              |states[i].results| == job.items
              && states[i].results[k] == if k < states[i].nextIndex then job.outcome(k) else None
    ensures job.concurrency >= 1 && !states[i].aborted ==> states[i].nextIndex == job.items
    ensures job.concurrency < 1 ==> states[i].nextIndex == 0
  {
    ReachableInv(job, states, moves, i);
    var s := states[i];
    forall k | 0 <= k < job.items ensures k in s.finished <==> k < s.nextIndex {
      assert k < s.nextIndex ==> !InFlight(s, k);
    }
    if job.concurrency >= 1 && job.items > 0 {
      assert s.workers[0].Returned?;
    }
    if job.concurrency < 1 {
      NoWorkersNoClaims(job, states, moves, i);
    }
  }

  lemma {:induction false} NoWorkersNoClaims<R>(job: Job<R>, states: seq<State<R>>, moves: seq<Move>, i: nat)
    requires Execution(job, states, moves) && i < |states| && PoolSize(job) == 0
    ensures states[i].nextIndex == 0
  {
    ReachableInv(job, states, moves, i);
    if i > 0 {
      NoWorkersNoClaims(job, states, moves, i - 1);
      ReachableInv(job, states, moves, i - 1);
      assert Leads(job, states[i - 1], moves[i - 1], states[i]);
    }
  }

  function Count(workers: seq<Worker>): nat {
    if workers == [] then 0
    else
      Count(workers[..|workers| - 1])
      + (match workers[|workers| - 1] case Returned => 0 case AtLoop => 1 case Awaiting(_) => 2)
  }

  /** What is left to do: it shrinks with every move of a worker. */
  function Remaining<R>(job: Job<R>, s: State<R>): int {
    2 * (job.items - s.nextIndex) + Count(s.workers)
  }

  lemma {:induction false} CountUpdate(workers: seq<Worker>, w: nat, next: Worker)
    requires w < |workers|
    ensures Count(workers[w := next]) - Count([next]) == Count(workers) - Count([workers[w]])
    decreases |workers|
  {
    var n := |workers| - 1;
    assert [next][..0] == [] && [workers[w]][..0] == [];
    if w == n {
      assert workers[w := next][..n] == workers[..n];
    } else {
      assert workers[w := next][..n] == workers[..n][w := next];
      CountUpdate(workers[..n], w, next);
    }
  }

  /** Every interleaving ends: a worker's move always brings it nearer. */
  lemma WorkShrinks<R>(job: Job<R>, states: seq<State<R>>, moves: seq<Move>, i: nat)
    requires Execution(job, states, moves) && i < |moves|
    ensures Remaining(job, states[i]) >= 0
    ensures moves[i] != Abort ==> Remaining(job, states[i + 1]) < Remaining(job, states[i])
    ensures moves[i] == Abort ==> Remaining(job, states[i + 1]) == Remaining(job, states[i])
  {
    ReachableInv(job, states, moves, i);
    assert Leads(job, states[i], moves[i], states[i + 1]);
    var s := states[i];
    assert forall v: Worker :: [v][..0] == [];
    match moves[i] {
      case Poll(w) => CountUpdate(s.workers, w, states[i + 1].workers[w]);
      case Resolve(w) => CountUpdate(s.workers, w, AtLoop);
      case Abort =>
    }
  }
}
