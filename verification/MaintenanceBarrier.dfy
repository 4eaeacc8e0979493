/**
 * The re-entrant maintenance barrier of src/core/maintenance-barrier.ts over all processes and all their
 * asynchronous contexts. The sentinel is the lock that module FileLock proves exclusive; here an acquisition
 * is one step, and the question is what the `active` flag and the inherited context may be trusted for.
 */
module MaintenanceBarrier {
  import opened Options

  type Pid = nat
  type TaskId = nat
  type HoldId = nat

  // -------------------------------------------------------------------- state

  /** One `ownership` object: its flag, and where the call that made it stands. The id doubles as the unique
      payload of its sentinel. */
  datatype Hold = Hold(pid: Pid, active: bool, task: TaskId, depth: nat)

  /** A body that is running: under its own acquisition, past its flag but not yet released, or nested under
      the acquisition that the context carries. */
  datatype Frame =
    | Holder(hold: HoldId, sync: bool, saved: Option<HoldId>)
    | Releasing(hold: HoldId, sync: bool, saved: Option<HoldId>)
    | Inner(hold: HoldId, sync: bool)

  /** An asynchronous context: its AsyncLocalStorage value and the barrier calls it is inside of. */
  datatype Task = Task(pid: Pid, store: Option<HoldId>, stack: seq<Frame>)

  datatype State = State(
    alive: set<Pid>,
    sentinel: Option<HoldId>,
    holds: map<HoldId, Hold>,
    tasks: map<TaskId, Task>,
    running: map<Pid, TaskId>)

  predicate Active(s: State, store: Option<HoldId>) {
    store.Some? && store.value in s.holds && s.holds[store.value].active
  }

  /** This task has the thread of its process, which is alive. */
  predicate Runs(s: State, t: TaskId) {
    && t in s.tasks && s.tasks[t].pid in s.alive
    && s.tasks[t].pid in s.running && s.running[s.tasks[t].pid] == t
  }

  function Top(s: State, t: TaskId): Option<Frame>
    requires t in s.tasks
  {
    var stack := s.tasks[t].stack;
    if stack == [] then None else Some(stack[|stack| - 1])
  }

  // -------------------------------------------------------------------- steps

  datatype Action =
    | StartTask(t: TaskId, pid: Pid)
    | TakeTurn(t: TaskId)
    | EndTurn(t: TaskId)
    | Enter(t: TaskId, sync: bool)
    | EnterAcquiring(t: TaskId, sync: bool, hold: HoldId)
    | Spawn(t: TaskId, child: TaskId, inner: bool)
    | LeaveInner(t: TaskId)
    | Deactivate(t: TaskId)
    | Release(t: TaskId)
    | ReclaimDead
    | ReclaimAged
    | Die(pid: Pid)

  /** `aging`: a holder may outlive the five minutes after which its sentinel is taken from it. */
  predicate Enabled(s: State, a: Action, aging: bool) {
    match a
    case StartTask(t, pid) => pid in s.alive && t !in s.tasks
    case TakeTurn(t) => t in s.tasks && s.tasks[t].pid in s.alive && s.tasks[t].pid !in s.running
    case EndTurn(t) => Runs(s, t) && forall i | 0 <= i < |s.tasks[t].stack| :: !s.tasks[t].stack[i].sync
    case Enter(t, _) => Runs(s, t) && NotLeaving(s, t) && Active(s, s.tasks[t].store)
    case EnterAcquiring(t, _, h) =>
      Runs(s, t) && NotLeaving(s, t) && !Active(s, s.tasks[t].store) && s.sentinel.None? && h !in s.holds
    case Spawn(t, child, inner) =>
      Runs(s, t) && child !in s.tasks && (inner ==> Active(s, s.tasks[t].store))
    case LeaveInner(t) => Runs(s, t) && Top(s, t).Some? && Top(s, t).value.Inner?
    case Deactivate(t) =>
      Runs(s, t) && Top(s, t).Some? && Top(s, t).value.Holder? && Top(s, t).value.hold in s.holds
    case Release(t) => Runs(s, t) && Top(s, t).Some? && Top(s, t).value.Releasing?
    case ReclaimDead =>
      s.sentinel.Some? && s.sentinel.value in s.holds && s.holds[s.sentinel.value].pid !in s.alive
    case ReclaimAged => aging && s.sentinel.Some?
    case Die(pid) => pid in s.alive
  }

  /** Not between clearing its flag and releasing: `finally` runs no body. */
  predicate NotLeaving(s: State, t: TaskId)
    requires t in s.tasks
  {
    Top(s, t).Some? ==> !Top(s, t).value.Releasing?
  }

  function Push(s: State, t: TaskId, frame: Frame, store: Option<HoldId>): State
    requires t in s.tasks
  {
    s.(tasks := s.tasks[t := Task(s.tasks[t].pid, store, s.tasks[t].stack + [frame])])
  }

  function Pop(s: State, t: TaskId, store: Option<HoldId>): State
    requires t in s.tasks && s.tasks[t].stack != []
  {
    s.(tasks := s.tasks[t := Task(s.tasks[t].pid, store, s.tasks[t].stack[..|s.tasks[t].stack| - 1])])
  }

  function Next(s: State, a: Action, aging: bool): State
    requires Enabled(s, a, aging)
  {
    match a
    case StartTask(t, pid) => s.(tasks := s.tasks[t := Task(pid, None, [])])
    case TakeTurn(t) => s.(running := s.running[s.tasks[t].pid := t])
    case EndTurn(t) => s.(running := s.running - {s.tasks[t].pid})
    case Enter(t, sync) => Push(s, t, Inner(s.tasks[t].store.value, sync), s.tasks[t].store)
    case EnterAcquiring(t, sync, h) =>
      Push(s, t, Holder(h, sync, s.tasks[t].store), Some(h))
      .(sentinel := Some(h), holds := s.holds[h := Hold(s.tasks[t].pid, true, t, |s.tasks[t].stack|)])
    case Spawn(t, child, inner) =>
      s.(tasks := s.tasks[child := Task(s.tasks[t].pid, s.tasks[t].store,
                                        if inner then [Inner(s.tasks[t].store.value, false)] else [])])
    case LeaveInner(t) => Pop(s, t, s.tasks[t].store)
    case Deactivate(t) =>
      var f := Top(s, t).value;
      var stack := s.tasks[t].stack;
      s.(holds := s.holds[f.hold := s.holds[f.hold].(active := false)],
         tasks := s.tasks[t := s.tasks[t].(stack := stack[|stack| - 1 := Releasing(f.hold, f.sync, f.saved)])])
    case Release(t) =>
      var f := Top(s, t).value;
      Pop(s, t, f.saved).(sentinel := if s.sentinel == Some(f.hold) then None else s.sentinel)
    case ReclaimDead => s.(sentinel := None)
    case ReclaimAged => s.(sentinel := None)
    case Die(pid) => s.(alive := s.alive - {pid})
  }

  ghost predicate Leads(s: State, a: Action, aging: bool, s': State) {
    Enabled(s, a, aging) && s' == Next(s, a, aging)
  }

  ghost predicate Execution(aging: bool, states: seq<State>, actions: seq<Action>) {
    && |states| == |actions| + 1
    && states[0].sentinel.None? && states[0].holds == map[] && states[0].tasks == map[] && states[0].running == map[]
    && forall i | 0 <= i < |actions| :: Leads(states[i], actions[i], aging, states[i + 1])
  }

  // ---------------------------------------------------------------- invariant

  /** The frame agrees with the hold it names; a synchronous one has the thread. */
  predicate FrameOk(s: State, t: TaskId, i: nat)
    requires t in s.tasks && i < |s.tasks[t].stack|
  {
    var f := s.tasks[t].stack[i];
    && f.hold in s.holds && s.holds[f.hold].pid == s.tasks[t].pid
    && (f.sync ==> Runs(s, t))
    && match f
       case Holder(h, _, saved) =>
         s.holds[h].active && s.holds[h].task == t && s.holds[h].depth == i && StoreOk(s, s.tasks[t].pid, saved)
       case Releasing(h, _, saved) =>
         && !s.holds[h].active && s.holds[h].task == t && i == |s.tasks[t].stack| - 1
         && StoreOk(s, s.tasks[t].pid, saved)
       case Inner(h, sync) =>
         sync ==> s.holds[h].active && (s.holds[h].task == t ==> s.holds[h].depth < i)
  }

  predicate StoreOk(s: State, pid: Pid, store: Option<HoldId>) {
    store.Some? ==> store.value in s.holds && s.holds[store.value].pid == pid
  }

  ghost predicate TaskOk(s: State, t: TaskId)
    requires t in s.tasks
  {
    && StoreOk(s, s.tasks[t].pid, s.tasks[t].store)
    && forall i | 0 <= i < |s.tasks[t].stack| :: FrameOk(s, t, i)
  }

  /** An active flag: the sentinel is this hold's unless it aged away, and the call that will clear the flag is
      still on its stack. */
  predicate HoldOk(s: State, h: HoldId, aging: bool)
    requires h in s.holds
  {
    var hold := s.holds[h];
    hold.active && hold.pid in s.alive ==>
      && (!aging ==> s.sentinel == Some(h))
      && hold.task in s.tasks && s.tasks[hold.task].pid == hold.pid
      && hold.depth < |s.tasks[hold.task].stack|
      && s.tasks[hold.task].stack[hold.depth].Holder? && s.tasks[hold.task].stack[hold.depth].hold == h
  }

  ghost predicate Inv(s: State, aging: bool) {
    && (s.sentinel.Some? ==> s.sentinel.value in s.holds)
    && (forall h | h in s.holds :: HoldOk(s, h, aging))
    && (forall t | t in s.tasks && s.tasks[t].pid in s.alive :: TaskOk(s, t))
    && (forall p | p in s.running && p in s.alive :: s.running[p] in s.tasks && s.tasks[s.running[p]].pid == p)
  }

  // ------------------------------------------------------------- preservation

  lemma StartStep(s: State, a: Action, aging: bool)
    requires Inv(s, aging) && Enabled(s, a, aging) && (a.StartTask? || a.Spawn?)
    ensures Inv(Next(s, a, aging), aging)
  {
    var s' := Next(s, a, aging);
    var child := if a.StartTask? then a.t else a.child;
    forall u | u in s'.tasks && s'.tasks[u].pid in s'.alive ensures TaskOk(s', u) {
      if u != child {
        assert TaskOk(s, u);
        forall i | 0 <= i < |s'.tasks[u].stack| ensures FrameOk(s', u, i) {
          assert FrameOk(s, u, i);
        }
      } else if a.Spawn? {
        assert TaskOk(s, a.t);
      }
    }
    forall h | h in s'.holds ensures HoldOk(s', h, aging) {
      assert HoldOk(s, h, aging);
    }
  }

  lemma TurnStep(s: State, a: Action, aging: bool)
    requires Inv(s, aging) && Enabled(s, a, aging) && (a.TakeTurn? || a.EndTurn?)
    ensures Inv(Next(s, a, aging), aging)
  {
    var s' := Next(s, a, aging);
    forall u | u in s'.tasks && s'.tasks[u].pid in s'.alive ensures TaskOk(s', u) {
      assert TaskOk(s, u);
      forall i | 0 <= i < |s'.tasks[u].stack| ensures FrameOk(s', u, i) {
        assert FrameOk(s, u, i);
      }
    }
    forall h | h in s'.holds ensures HoldOk(s', h, aging) {
      assert HoldOk(s, h, aging);
    }
  }

  lemma EnterStep(s: State, a: Action, aging: bool)
    requires Inv(s, aging) && Enabled(s, a, aging) && a.Enter?
    ensures Inv(Next(s, a, aging), aging)
  {
    var s' := Next(s, a, aging);
    var t := a.t;
    var n := |s.tasks[t].stack|;
    assert TaskOk(s, t) && HoldOk(s, s.tasks[t].store.value, aging);
    forall u | u in s'.tasks && s'.tasks[u].pid in s'.alive ensures TaskOk(s', u) {
      assert TaskOk(s, u);
      forall i | 0 <= i < |s'.tasks[u].stack| ensures FrameOk(s', u, i) {
        if u != t || i < n {
          assert FrameOk(s, u, i);
        }
        if u == t && i == n - 1 {
          assert Top(s, t) == Some(s.tasks[t].stack[i]);
        }
      }
    }
    forall h | h in s'.holds ensures HoldOk(s', h, aging) {
      assert HoldOk(s, h, aging);
    }
  }

  lemma AcquireStep(s: State, a: Action, aging: bool)
    requires Inv(s, aging) && Enabled(s, a, aging) && a.EnterAcquiring?
    ensures Inv(Next(s, a, aging), aging)
  {
    var s' := Next(s, a, aging);
    var t := a.t;
    var n := |s.tasks[t].stack|;
    assert TaskOk(s, t);
    forall u | u in s'.tasks && s'.tasks[u].pid in s'.alive ensures TaskOk(s', u) {
      assert TaskOk(s, u);
      forall i | 0 <= i < |s'.tasks[u].stack| ensures FrameOk(s', u, i) {
        if u != t || i < n {
          assert FrameOk(s, u, i);
        }
        if u == t && i == n - 1 {
          assert Top(s, t) == Some(s.tasks[t].stack[i]);
        }
      }
    }
    forall h | h in s'.holds ensures HoldOk(s', h, aging) {
      assert h in s.holds ==> HoldOk(s, h, aging);
    }
  }

  lemma LeaveInnerStep(s: State, a: Action, aging: bool)
    requires Inv(s, aging) && Enabled(s, a, aging) && a.LeaveInner?
    ensures Inv(Next(s, a, aging), aging)
  {
    var s' := Next(s, a, aging);
    var t := a.t;
    assert TaskOk(s, t);
    forall u | u in s'.tasks && s'.tasks[u].pid in s'.alive ensures TaskOk(s', u) {
      assert TaskOk(s, u);
      forall i | 0 <= i < |s'.tasks[u].stack| ensures FrameOk(s', u, i) {
        assert FrameOk(s, u, i);
      }
    }
    forall h | h in s'.holds ensures HoldOk(s', h, aging) {
      assert HoldOk(s, h, aging);
    }
  }

  /** Clearing the flag: no synchronous body anywhere is still under it. */
  lemma DeactivateStep(s: State, a: Action, aging: bool)
    requires Inv(s, aging) && Enabled(s, a, aging) && a.Deactivate?
    ensures Inv(Next(s, a, aging), aging)
  {
    var s' := Next(s, a, aging);
    var t := a.t;
    var n := |s.tasks[t].stack|;
    var h := Top(s, t).value.hold;
    assert TaskOk(s, t) && FrameOk(s, t, n - 1);
    forall u | u in s'.tasks && s'.tasks[u].pid in s'.alive ensures TaskOk(s', u) {
      assert TaskOk(s, u);
      forall i | 0 <= i < |s'.tasks[u].stack| ensures FrameOk(s', u, i) {
        assert FrameOk(s, u, i);
        assert s.holds[h].task == t && s.holds[h].depth == n - 1;
      }
    }
    forall g | g in s'.holds ensures HoldOk(s', g, aging) {
      assert HoldOk(s, g, aging);
    }
  }

  lemma ReleaseStep(s: State, a: Action, aging: bool)
    requires Inv(s, aging) && Enabled(s, a, aging) && a.Release?
    ensures Inv(Next(s, a, aging), aging)
  {
    var s' := Next(s, a, aging);
    var t := a.t;
    var n := |s.tasks[t].stack|;
    assert TaskOk(s, t) && FrameOk(s, t, n - 1);
    forall u | u in s'.tasks && s'.tasks[u].pid in s'.alive ensures TaskOk(s', u) {
      assert TaskOk(s, u);
      forall i | 0 <= i < |s'.tasks[u].stack| ensures FrameOk(s', u, i) {
        assert FrameOk(s, u, i);
      }
    }
    forall g | g in s'.holds ensures HoldOk(s', g, aging) {
      assert HoldOk(s, g, aging);
    }
  }

  lemma OutsideStep(s: State, a: Action, aging: bool)
    requires Inv(s, aging) && Enabled(s, a, aging) && (a.ReclaimDead? || a.ReclaimAged? || a.Die?)
    ensures Inv(Next(s, a, aging), aging)
  {
    var s' := Next(s, a, aging);
    forall u | u in s'.tasks && s'.tasks[u].pid in s'.alive ensures TaskOk(s', u) {
      assert TaskOk(s, u);
      forall i | 0 <= i < |s'.tasks[u].stack| ensures FrameOk(s', u, i) {
        assert FrameOk(s, u, i);
      }
    }
    forall g | g in s'.holds ensures HoldOk(s', g, aging) {
      assert HoldOk(s, g, aging);
    }
  }

  lemma StepKeepsInv(s: State, a: Action, aging: bool)
    requires Inv(s, aging) && Enabled(s, a, aging)
    ensures Inv(Next(s, a, aging), aging)
  {
    hide Inv, Next;
    match a {
      case StartTask(_, _) => StartStep(s, a, aging);
      case Spawn(_, _, _) => StartStep(s, a, aging);
      case TakeTurn(_) => TurnStep(s, a, aging);
      case EndTurn(_) => TurnStep(s, a, aging);
      case Enter(_, _) => EnterStep(s, a, aging);
      case EnterAcquiring(_, _, _) => AcquireStep(s, a, aging);
      case LeaveInner(_) => LeaveInnerStep(s, a, aging);
      case Deactivate(_) => DeactivateStep(s, a, aging);
      case Release(_) => ReleaseStep(s, a, aging);
      case ReclaimDead => OutsideStep(s, a, aging);
      case Die(_) => OutsideStep(s, a, aging);
      case ReclaimAged => OutsideStep(s, a, aging);
    }
  }

  lemma {:induction false} ReachableInv(aging: bool, states: seq<State>, actions: seq<Action>, i: nat)
    requires Execution(aging, states, actions) && i < |states|
    ensures Inv(states[i], aging)
  {
    hide Enabled, Next;
    if i > 0 {
      ReachableInv(aging, states, actions, i - 1);
      assert Leads(states[i - 1], actions[i - 1], aging, states[i]);
      StepKeepsInv(states[i - 1], actions[i - 1], aging);
    }
  }

  // ------------------------------------------------------------ main theorems

  /** An active flag can be trusted: while no holder outlives the age bound, a live process whose context
      carries an active flag owns the barrier, and so there is at most one. */
  lemma ActiveMeansHeld(states: seq<State>, actions: seq<Action>, i: nat, t: TaskId)
    requires Execution(false, states, actions) && i < |states|
    requires var s := states[i]; t in s.tasks && s.tasks[t].pid in s.alive && Active(s, s.tasks[t].store)
    ensures var s := states[i];
            s.sentinel == s.tasks[t].store && s.holds[s.sentinel.value].pid == s.tasks[t].pid
    ensures var s := states[i];
            forall u | u in s.tasks && s.tasks[u].pid in s.alive && Active(s, s.tasks[u].store) ::
              s.tasks[u].store == s.tasks[t].store && s.tasks[u].pid == s.tasks[t].pid
  {
    hide Execution, Runs;
    ReachableInv(false, states, actions, i);
    var s := states[i];
    forall u | u in s.tasks && s.tasks[u].pid in s.alive && Active(s, s.tasks[u].store)
      ensures s.sentinel == s.tasks[u].store && s.holds[s.sentinel.value].pid == s.tasks[u].pid
    {
      assert TaskOk(s, u) && HoldOk(s, s.tasks[u].store.value, false);
    }
  }

  /** No synchronous body ever runs bare: at every moment between its start and its return its process owns
      the barrier, whether the body acquired it, was nested in a call that did, or ran in a context left over
      from a call that has since returned. */
  lemma SynchronousBodiesRunUnderTheBarrier(
    states: seq<State>, actions: seq<Action>, i: nat, t: TaskId, k: nat)
    requires Execution(false, states, actions) && i < |states|
    requires var s := states[i];
             && t in s.tasks && s.tasks[t].pid in s.alive && k < |s.tasks[t].stack|
             && (s.tasks[t].stack[k].Holder? || (s.tasks[t].stack[k].Inner? && s.tasks[t].stack[k].sync))
    ensures var s := states[i]; var h := s.tasks[t].stack[k].hold;
            && s.sentinel == Some(h) && h in s.holds && s.holds[h].active && s.holds[h].pid == s.tasks[t].pid
  {
    hide Execution, Runs;
    ReachableInv(false, states, actions, i);
    var s := states[i];
    assert TaskOk(s, t) && FrameOk(s, t, k);
    assert HoldOk(s, s.tasks[t].stack[k].hold, false);
  }

  // --------------------------------------------- what a call leaves behind

  /** Holds stay known and a cleared flag stays cleared, so no acquisition is ever made twice. */
  lemma {:induction false} HoldsStay(aging: bool, states: seq<State>, actions: seq<Action>, i: nat, j: nat, h: HoldId)
    requires Execution(aging, states, actions) && i <= j < |states| && h in states[i].holds
    ensures h in states[j].holds
    ensures !states[i].holds[h].active ==> !states[j].holds[h].active
    decreases j
  {
    hide Execution, Enabled, Next;
    if i < j {
      HoldsStay(aging, states, actions, i, j - 1, h);
      Length(aging, states, actions);
      Leading(aging, states, actions, j - 1);
      HoldStays(aging, states[j - 1], actions[j - 1], h);
    }
  }

  lemma HoldStays(aging: bool, s: State, a: Action, h: HoldId)
    requires Enabled(s, a, aging) && h in s.holds
    ensures h in Next(s, a, aging).holds
    ensures !s.holds[h].active ==> !Next(s, a, aging).holds[h].active
  {
  }

  lemma Length(aging: bool, states: seq<State>, actions: seq<Action>)
    requires Execution(aging, states, actions)
    ensures |states| == |actions| + 1
  {
  }

  lemma Leading(aging: bool, states: seq<State>, actions: seq<Action>, i: nat)
    requires Execution(aging, states, actions) && i < |actions|
    ensures |states| == |actions| + 1 && Enabled(states[i], actions[i], aging)
    ensures states[i + 1] == Next(states[i], actions[i], aging)
  {
    assert Leads(states[i], actions[i], aging, states[i + 1]);
  }

  /** The action starts a body in this task, or in a child that it lends its context. */
  predicate StartsBody(a: Action, t: TaskId) {
    || (a.Enter? && a.t == t)
    || (a.EnterAcquiring? && a.t == t)
    || (a.Spawn? && a.t == t && a.inner)
  }

  /** From the moment a call clears its flag on the way out: whatever runs later in a context that still carries
      it gets into a body only by a new acquisition, with a sentinel that never existed before, and with a
      flag of its own. Also when holders outlive the age bound. */
  lemma LeftoverContextReacquires(
    aging: bool, states: seq<State>, actions: seq<Action>, i: nat, t: TaskId, j: nat, u: TaskId)
    requires Execution(aging, states, actions) && i < j < |actions|
    requires actions[i] == Deactivate(t) && Enabled(states[i], actions[i], aging)
    requires StartsBody(actions[j], u) && Enabled(states[j], actions[j], aging)
    requires states[j].tasks[u].store == Some(Top(states[i], t).value.hold)
    ensures actions[j].EnterAcquiring? && states[j].sentinel.None?
    ensures forall k | 0 <= k <= j :: actions[j].hold !in states[k].holds && states[k].sentinel != Some(actions[j].hold)
    ensures states[j + 1].sentinel == Some(actions[j].hold) && states[j + 1].tasks[u].store == Some(actions[j].hold)
    ensures Active(states[j + 1], states[j + 1].tasks[u].store)
  {
    hide Execution;
    Leading(aging, states, actions, i);
    var h := Top(states[i], t).value.hold;
    Leading(aging, states, actions, j);
    HoldsStay(aging, states, actions, i + 1, j, h);
    forall k | 0 <= k <= j
      ensures actions[j].hold !in states[k].holds && states[k].sentinel != Some(actions[j].hold)
    {
      ReachableInv(aging, states, actions, k);
      if actions[j].hold in states[k].holds {
        HoldsStay(aging, states, actions, k, j, actions[j].hold);
      }
    }
  }

  /** A sentinel that is gone never comes back. */
  lemma {:induction false} GoneStaysGone(
    aging: bool, states: seq<State>, actions: seq<Action>, i: nat, j: nat, h: HoldId)
    requires Execution(aging, states, actions) && i <= j < |states|
    requires h in states[i].holds && states[i].sentinel != Some(h)
    ensures h in states[j].holds && states[j].sentinel != Some(h)
    decreases j
  {
    hide Execution, Enabled, Next;
    if i < j {
      GoneStaysGone(aging, states, actions, i, j - 1, h);
      Length(aging, states, actions);
      Leading(aging, states, actions, j - 1);
      GoneStaysAway(aging, states[j - 1], actions[j - 1], h);
    }
  }

  lemma GoneStaysAway(aging: bool, s: State, a: Action, h: HoldId)
    requires Enabled(s, a, aging) && h in s.holds && s.sentinel != Some(h)
    ensures h in Next(s, a, aging).holds && Next(s, a, aging).sentinel != Some(h)
  {
  }

  /** A late release: once its sentinel was taken away at step `i`, by age or otherwise, the release of that call
      leaves whatever stands there in peace. */
  lemma LateReleaseSparesSuccessor(
    aging: bool, states: seq<State>, actions: seq<Action>, i: nat, j: nat, t: TaskId)
    requires Execution(aging, states, actions) && i < j < |actions|
    requires actions[j] == Release(t) && Enabled(states[j], actions[j], aging)
    requires var h := Top(states[j], t).value.hold; states[i].sentinel == Some(h) && states[i + 1].sentinel != Some(h)
    ensures states[j + 1].sentinel == states[j].sentinel
  {
    hide Execution;
    Length(aging, states, actions);
    var h := Top(states[j], t).value.hold;
    ReachableInv(aging, states, actions, i);
    Leading(aging, states, actions, i);
    Leading(aging, states, actions, j);
    HoldStays(aging, states[i], actions[i], h);
    GoneStaysGone(aging, states, actions, i + 1, j, h);
  }

  /** The other way about: a sentinel disappears only by a reclaim or by the release of the very call that
      acquired it, whichever calls and contexts of whichever processes run in between. */
  lemma OnlyItsCallReleases(aging: bool, states: seq<State>, actions: seq<Action>, i: nat, h: HoldId)
    requires Execution(aging, states, actions) && i < |actions|
    requires states[i].sentinel == Some(h) && states[i + 1].sentinel != Some(h)
    ensures h in states[i].holds
    ensures actions[i].ReclaimDead? || actions[i].ReclaimAged?
         || (actions[i] == Release(states[i].holds[h].task) && !states[i].holds[h].active)
  {
    hide Execution;
    Length(aging, states, actions);
    ReachableInv(aging, states, actions, i);
    Leading(aging, states, actions, i);
    if actions[i].Release? {
      var t := actions[i].t;
      assert TaskOk(states[i], t) && FrameOk(states[i], t, |states[i].tasks[t].stack| - 1);
    }
  }

  // ----------------------------------------------- what the results rest on

  /** At every moment, a live context with an active flag belongs to the process that holds the barrier. */
  ghost predicate Trustworthy(states: seq<State>) {
    forall i: nat, t: TaskId | i < |states| && t in states[i].tasks ::
      states[i].tasks[t].pid in states[i].alive && Active(states[i], states[i].tasks[t].store) ==>
        states[i].sentinel == states[i].tasks[t].store
  }

  /** The flag can be trusted in every execution exactly when no holder outlives the age bound. */
  lemma TrustRestsOnTheAgeBound(aging: bool)
    ensures !aging <==> (forall states: seq<State>, actions: seq<Action> | Execution(aging, states, actions) ::
                           Trustworthy(states))
  {
    if !aging {
      forall states: seq<State>, actions: seq<Action> | Execution(aging, states, actions) ensures Trustworthy(states) {
        hide Execution, Active;
        forall i: nat, t: TaskId | i < |states| && t in states[i].tasks
                      && states[i].tasks[t].pid in states[i].alive && Active(states[i], states[i].tasks[t].store)
          ensures states[i].sentinel == states[i].tasks[t].store
        {
          ActiveMeansHeld(states, actions, i, t);
        }
      }
    } else {
      var states, actions := AgedAway();
    }
  }

  /** Example: a task acquires, outlives the bound, and loses the sentinel with its flag still set. */
  lemma AgedAway() returns (states: seq<State>, actions: seq<Action>)
    ensures Execution(true, states, actions) && !Trustworthy(states)
  {
    var s0 := State({1}, None, map[], map[], map[]);
    var s1 := s0.(tasks := map[1 := Task(1, None, [])]);
    var s2 := s1.(running := map[1 := 1]);
    var s3 := State({1}, Some(1), map[1 := Hold(1, true, 1, 0)],
                    map[1 := Task(1, Some(1), [Holder(1, true, None)])], map[1 := 1]);
    states := [s0, s1, s2, s3, s3.(sentinel := None)];
    actions := [StartTask(1, 1), TakeTurn(1), EnterAcquiring(1, true, 1), ReclaimAged];
    assert 1 in states[4].tasks;
    assert [] + [Holder(1, true, None)] == [Holder(1, true, None)];
  }

  /** Example: an asynchronous body that a holder starts and does not wait for is let in on the holder's flag, and
      is still running when the holder has given the barrier up. */
  lemma UnawaitedBodyOutlivesBarrier(s: State, t: TaskId, child: TaskId)
    requires Inv(s, false) && Enabled(s, Spawn(t, child, true), false)
    requires Top(s, t).Some? && Top(s, t).value.Holder? && s.tasks[t].store == Some(Top(s, t).value.hold)
    ensures var s1 := Next(s, Spawn(t, child, true), false);
            && Enabled(s1, Deactivate(t), false)
            && var s2 := Next(s1, Deactivate(t), false);
               && Enabled(s2, Release(t), false)
               && var s3 := Next(s2, Release(t), false);
                  && s3.sentinel != Some(Top(s, t).value.hold)
                  && s3.tasks[child].stack == [Inner(Top(s, t).value.hold, false)]
                  && !Active(s3, s3.tasks[child].store)
  {
    assert TaskOk(s, t);
    assert FrameOk(s, t, |s.tasks[t].stack| - 1);
  }
}
