/**
 * `serializeByKey` of src/core/concurrent.ts:17-36 over run-to-completion turns: enqueue, start, settle and
 * the clean-up callback, in any interleaving that the promises allow.
 */
module KeyedChains {
  import opened Options

  datatype Status = Queued | Running | Settled(ok: bool)

  /** `tail` is the promise this task was chained to: the map entry at its enqueue, or a resolved one. */
  datatype Task = Task(key: string, tail: Option<nat>, status: Status, cleaned: bool)

  /** Tasks are numbered in enqueue order; a number also names the `settled` promise made with it. */
  datatype State = State(chains: map<string, nat>, tasks: seq<Task>)

  datatype Turn =
    | Enqueue(key: string)
    | Start(task: nat)
    | Settle(task: nat, ok: bool)
    | CleanUp(task: nat)

  predicate Enabled(s: State, turn: Turn) {
    match turn
    case Enqueue(_) => true
    case Start(n) =>
      && n < |s.tasks| && s.tasks[n].status.Queued?
      && (s.tasks[n].tail.Some? ==> s.tasks[n].tail.value < |s.tasks| && s.tasks[s.tasks[n].tail.value].status.Settled?)
    case Settle(n, _) => n < |s.tasks| && s.tasks[n].status.Running?
    case CleanUp(n) => n < |s.tasks| && s.tasks[n].status.Settled? && !s.tasks[n].cleaned
  }

  function Next(s: State, turn: Turn): State
    requires Enabled(s, turn)
  {
    match turn
    case Enqueue(key) =>
      var tail := if key in s.chains then Some(s.chains[key]) else None;
      State(s.chains[key := |s.tasks|], s.tasks + [Task(key, tail, Queued, false)])
    case Start(n) => s.(tasks := s.tasks[n := s.tasks[n].(status := Running)])
    case Settle(n, ok) => s.(tasks := s.tasks[n := s.tasks[n].(status := Settled(ok))])
    case CleanUp(n) =>
      var key := s.tasks[n].key;
      State(if key in s.chains && s.chains[key] == n then s.chains - {key} else s.chains,
            s.tasks[n := s.tasks[n].(cleaned := true)])
  }

  /** The caller's map and the calls chained through it; one method per turn. */
  class Chains {
    var chains: map<string, nat>
    var tasks: seq<Task>

    function Now(): State
      reads this
    {
      State(chains, tasks)
    }

    constructor ()
      ensures Now() == State(map[], [])
    {
      chains, tasks := map[], [];
    }

    method SerializeByKey(key: string) returns (run: nat)
      modifies this
      ensures Now() == Next(old(Now()), Enqueue(key)) && run == |old(tasks)|
    {
      var tail: Option<nat> := None;
      if key in chains {
        tail := Some(chains[key]);
      }
      run := |tasks|;
      tasks := tasks + [Task(key, tail, Queued, false)];
      chains := chains[key := run];
    }

    method OnTailSettled(task: nat)
      requires Enabled(Now(), Start(task))
      modifies this
      ensures Now() == Next(old(Now()), Start(task))
    {
      tasks := tasks[task := tasks[task].(status := Running)];
    }

    method OnRunSettled(task: nat, ok: bool)
      requires Enabled(Now(), Settle(task, ok))
      modifies this
      ensures Now() == Next(old(Now()), Settle(task, ok))
    {
      tasks := tasks[task := tasks[task].(status := Settled(ok))];
    }

    method OnSettled(task: nat)
      requires Enabled(Now(), CleanUp(task))
      modifies this
      ensures Now() == Next(old(Now()), CleanUp(task))
    {
      var key := tasks[task].key;
      if key in chains && chains[key] == task {
        chains := chains - {key};
      }
      tasks := tasks[task := tasks[task].(cleaned := true)];
    }
  }

  // ---------------------------------------------------------------- invariant

  /** No task of this key was enqueued after `n`. */
  predicate Newest(s: State, n: nat)
    requires n < |s.tasks|
  {
    forall m | n < m < |s.tasks| :: s.tasks[m].key != s.tasks[n].key
  }

  /** Tasks of the key before `n` have settled, or the newest of them is what `n` waits for. */
  predicate TailOk(s: State, n: nat)
    requires n < |s.tasks|
  {
    var t := s.tasks[n];
    match t.tail
    case None => forall m | 0 <= m < n && s.tasks[m].key == t.key :: s.tasks[m].status.Settled?
    case Some(p) => p < n && s.tasks[p].key == t.key && forall m | p < m < n :: s.tasks[m].key != t.key
  }

  /** A task past the queue has every earlier task of its key behind it. */
  predicate OrderOk(s: State, n: nat)
    requires n < |s.tasks|
  {
    !s.tasks[n].status.Queued? ==>
      forall m | 0 <= m < n && s.tasks[m].key == s.tasks[n].key :: s.tasks[m].status.Settled?
  }

  /** The newest task of a key is the map entry until its clean-up has run, and only until then. */
  predicate EntryOk(s: State, n: nat)
    requires n < |s.tasks|
  {
    && (s.tasks[n].cleaned ==> s.tasks[n].status.Settled?)
    && (Newest(s, n) ==> ((s.tasks[n].key in s.chains) <==> !s.tasks[n].cleaned))
  }

  ghost predicate Inv(s: State) {
    && (forall n | 0 <= n < |s.tasks| :: TailOk(s, n) && OrderOk(s, n) && EntryOk(s, n))
    && (forall key | key in s.chains ::
          s.chains[key] < |s.tasks| && s.tasks[s.chains[key]].key == key && Newest(s, s.chains[key]))
  }

  /** The newest task of a key that has any. */
  lemma {:induction false} NewestExists(s: State, n: nat) returns (m: nat)
    requires n < |s.tasks|
    ensures n <= m < |s.tasks| && s.tasks[m].key == s.tasks[n].key && Newest(s, m)
    decreases |s.tasks| - n
  {
    if Newest(s, n) {
      m := n;
    } else {
      var k :| n < k < |s.tasks| && s.tasks[k].key == s.tasks[n].key;
      m := NewestExists(s, k);
    }
  }

  /** Whether a task is the newest of its key depends on the keys alone. */
  lemma NewestKeys(s: State, s': State, m: nat)
    requires m < |s.tasks| <= |s'.tasks|
    requires forall k | 0 <= k < |s.tasks| :: s'.tasks[k].key == s.tasks[k].key
    ensures Newest(s', m) <==>
            Newest(s, m) && forall k | |s.tasks| <= k < |s'.tasks| :: s'.tasks[k].key != s.tasks[m].key
  {
    if Newest(s', m) {
      forall k | m < k < |s.tasks| ensures s.tasks[k].key != s.tasks[m].key {
        assert s'.tasks[k].key != s'.tasks[m].key;
      }
    }
  }

  lemma EnqueueStep(s: State, key: string)
    requires Inv(s)
    ensures Inv(Next(s, Enqueue(key)))
  {
    var s' := Next(s, Enqueue(key));
    var n := |s.tasks|;
    forall m | 0 <= m < |s'.tasks| ensures TailOk(s', m) && OrderOk(s', m) && EntryOk(s', m) {
      if m < n {
        assert TailOk(s, m) && OrderOk(s, m) && EntryOk(s, m);
        NewestKeys(s, s', m);
        assert s'.tasks[n].key == key;
      } else if key !in s.chains {
        forall k | 0 <= k < n && s.tasks[k].key == key ensures s.tasks[k].status.Settled? {
          EmptyKeyIsSettled(s, key, k);
        }
      }
    }
  }

  /** Once a key's entry is gone, everything under it has settled. */
  lemma EmptyKeyIsSettled(s: State, key: string, k: nat)
    requires Inv(s) && key !in s.chains && k < |s.tasks| && s.tasks[k].key == key
    ensures s.tasks[k].status.Settled?
  {
    var m := NewestExists(s, k);
    assert EntryOk(s, m) && OrderOk(s, m);
  }

  lemma TaskStep(s: State, turn: Turn)
    requires Inv(s) && Enabled(s, turn) && (turn.Start? || turn.Settle?)
    ensures Inv(Next(s, turn))
  {
    var s' := Next(s, turn);
    forall m | 0 <= m < |s'.tasks| ensures TailOk(s', m) && OrderOk(s', m) && EntryOk(s', m) {
      assert TailOk(s, m) && OrderOk(s, m) && EntryOk(s, m);
      NewestKeys(s, s', m);
      if turn.Start? && m == turn.task && s.tasks[m].tail.Some? {
        assert OrderOk(s, s.tasks[m].tail.value);
      }
    }
    forall m | 0 <= m < |s.tasks| && Newest(s, m) ensures Newest(s', m) {
      NewestKeys(s, s', m);
    }
  }

  lemma CleanUpStep(s: State, n: nat)
    requires Inv(s) && Enabled(s, CleanUp(n))
    ensures Inv(Next(s, CleanUp(n)))
  {
    var s' := Next(s, CleanUp(n));
    forall m | 0 <= m < |s'.tasks| ensures TailOk(s', m) && OrderOk(s', m) && EntryOk(s', m) {
      assert TailOk(s, m) && OrderOk(s, m) && EntryOk(s, m);
      NewestKeys(s, s', m);
    }
    forall m | 0 <= m < |s.tasks| && Newest(s, m) ensures Newest(s', m) {
      NewestKeys(s, s', m);
    }
  }

  /** A run: any turns in any order that the promises allow. */
  ghost predicate Execution(states: seq<State>, turns: seq<Turn>) {
    && |states| == |turns| + 1
    && states[0] == State(map[], [])
    && forall i | 0 <= i < |turns| :: Leads(states[i], turns[i], states[i + 1])
  }

  ghost predicate Leads(s: State, turn: Turn, s': State) {
    Enabled(s, turn) && s' == Next(s, turn)
  }

  lemma {:induction false} ReachableInv(states: seq<State>, turns: seq<Turn>, i: nat)
    requires Execution(states, turns) && i < |states|
    ensures Inv(states[i])
  {
    hide Inv, Enabled, Next;
    if i > 0 {
      ReachableInv(states, turns, i - 1);
      assert Leads(states[i - 1], turns[i - 1], states[i]);
      assert Enabled(states[i - 1], turns[i - 1]);
      match turns[i - 1] {
        case Enqueue(key) => EnqueueStep(states[i - 1], key);
        case Start(_) => TaskStep(states[i - 1], turns[i - 1]);
        case Settle(_, _) => TaskStep(states[i - 1], turns[i - 1]);
        case CleanUp(n) => CleanUpStep(states[i - 1], n);
      }
    } else {
      assert Inv(State(map[], [])) by { EmptyInv(); }
    }
  }

  lemma EmptyInv()
    ensures Inv(State(map[], []))
  {
  }

  // ------------------------------------------------------------ main theorems

  /** One at a time and first come first served: when a task of a key has started, every earlier task of that
      key has settled, well or badly, and every later one is still queued. */
  lemma OneAtATimeInOrder(states: seq<State>, turns: seq<Turn>, i: nat, n: nat, m: nat)
    requires Execution(states, turns) && i < |states|
    requires n < |states[i].tasks| && m < |states[i].tasks| && n != m
    requires states[i].tasks[n].key == states[i].tasks[m].key && states[i].tasks[n].status.Running?
    ensures m < n ==> states[i].tasks[m].status.Settled?
    ensures m > n ==> states[i].tasks[m].status.Queued?
  {
    hide Enabled, Next;
    ReachableInv(states, turns, i);
    assert OrderOk(states[i], n) && OrderOk(states[i], m);
  }

  /** While anything of a key is queued or running, and until its last clean-up, the map holds the newest
      task of the key; after that the key is gone. */
  lemma MapHoldsNewestTail(states: seq<State>, turns: seq<Turn>, i: nat, key: string)
    requires Execution(states, turns) && i < |states|
    ensures var s := states[i];
            && (key in s.chains ==>
                  && s.chains[key] < |s.tasks| && s.tasks[s.chains[key]].key == key && Newest(s, s.chains[key]))
            && ((exists n :: 0 <= n < |s.tasks| && s.tasks[n].key == key && !s.tasks[n].status.Settled?) ==>
                  key in s.chains)
            && ((forall n :: 0 <= n < |s.tasks| && s.tasks[n].key == key ==> s.tasks[n].cleaned) ==>
                  key !in s.chains)
  {
    hide Enabled, Next;
    ReachableInv(states, turns, i);
    var s := states[i];
    if key !in s.chains {
      forall n | 0 <= n < |s.tasks| && s.tasks[n].key == key ensures s.tasks[n].status.Settled? {
        EmptyKeyIsSettled(s, key, n);
      }
    } else {
      assert EntryOk(s, s.chains[key]);
    }
  }

  /** The clean-up callback of a task never removes the tail of a later one. */
  lemma CleanUpSparesLaterTail(states: seq<State>, turns: seq<Turn>, i: nat, n: nat, later: nat)
    requires Execution(states, turns) && i < |turns| && turns[i] == CleanUp(n)
    requires n < later < |states[i].tasks| && states[i].tasks[later].key == states[i].tasks[n].key
    ensures states[i + 1].chains == states[i].chains
  {
    ReachableInv(states, turns, i);
    assert Leads(states[i], turns[i], states[i + 1]);
  }

  /** Failures never wedge a key: as long as one of its tasks has not settled, the earliest such task is
      running or can start now. */
  lemma NeverWedged(states: seq<State>, turns: seq<Turn>, i: nat, n: nat)
    requires Execution(states, turns) && i < |states|
    requires var s := states[i];
             && n < |s.tasks| && !s.tasks[n].status.Settled?
             && forall m | 0 <= m < n && s.tasks[m].key == s.tasks[n].key :: s.tasks[m].status.Settled?
    ensures Enabled(states[i], Start(n)) || states[i].tasks[n].status.Running?
  {
    hide Next;
    ReachableInv(states, turns, i);
    assert TailOk(states[i], n);
  }
}
