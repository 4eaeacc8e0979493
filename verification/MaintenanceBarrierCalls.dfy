/**
 * The wrappers of src/core/maintenance-barrier.ts as they run in one task of one process, on the machine of
 * module MaintenanceBarrier: each step of a wrapper is an action of that machine, and between any two of them
 * the other processes take any number of actions of theirs. No holder outlives the age bound.
 */
module MaintenanceBarrierCalls {
  import opened Options
  import opened MaintenanceBarrier

  /** What a caller may pass to be run. `Later` leaves a continuation behind that keeps the current context. */
  datatype Body =
    | Work
    | Throw
    | Then(first: Body, second: Body)
    | Nested(body: Body)
    | Later(body: Body)

  /** How often a body gets to work, up to where it throws. */
  function Works(body: Body): nat {
    match body
    case Work => 1
    case Throw => 0
    case Then(first, second) => Works(first) + if Throws(first) then 0 else Works(second)
    case Nested(inner) => Works(inner)
    case Later(_) => 0
  }

  predicate Throws(body: Body) {
    match body
    case Work => false
    case Throw => true
    case Then(first, second) => Throws(first) || Throws(second)
    case Nested(inner) => Throws(inner)
    case Later(_) => false
  }

  /** The continuations that a body leaves behind, in order. */
  function Laters(body: Body): seq<Body> {
    match body
    case Work => []
    case Throw => []
    case Then(first, second) => Laters(first) + if Throws(first) then [] else Laters(second)
    case Nested(inner) => Laters(inner)
    case Later(rest) => [rest]
  }

  /** A continuation waiting for its turn: a task of its own. */
  datatype Leftover = Leftover(task: TaskId, body: Body)

  function BodiesOf(later: seq<Leftover>): seq<Body> {
    seq(|later|, i requires 0 <= i < |later| => later[i].body)
  }

  /** What happened, with the sentinel at that moment. */
  datatype Event = Acquired(hold: HoldId) | Worked(sentinel: Option<HoldId>) | Released(hold: HoldId)

  datatype Outcome = Ran | Threw | Busy

  lemma BodiesAppend(a: seq<Leftover>, b: seq<Leftover>)
    ensures BodiesOf(a + b) == BodiesOf(a) + BodiesOf(b)
  {
  }

  // ------------------------------------------------------- the other processes

  /** The task that acts, if the action is one of a task. */
  function Actor(a: Action): Option<TaskId> {
    match a
    case TakeTurn(t) => Some(t)
    case EndTurn(t) => Some(t)
    case Enter(t, _) => Some(t)
    case EnterAcquiring(t, _, _) => Some(t)
    case Spawn(t, _, _) => Some(t)
    case LeaveInner(t) => Some(t)
    case Deactivate(t) => Some(t)
    case Release(t) => Some(t)
    case _ => None
  }

  /** Whatever is not done by, or to, this process. */
  predicate ByOthers(s: State, a: Action, me: Pid) {
    && (Actor(a).Some? && Actor(a).value in s.tasks ==> s.tasks[Actor(a).value].pid != me)
    && (a.StartTask? || a.Die? ==> a.pid != me)
  }

  /** Any number of actions of others lead from the first state to the last. */
  ghost predicate OthersMove(states: seq<State>, actions: seq<Action>, me: Pid) {
    && |states| == |actions| + 1
    && forall i | 0 <= i < |actions| ::
         Leads(states[i], actions[i], false, states[i + 1]) && ByOthers(states[i], actions[i], me)
  }

  ghost predicate Others(s: State, s': State, me: Pid) {
    exists states, actions :: OthersMove(states, actions, me) && states[0] == s && states[|states| - 1] == s'
  }

  lemma OthersTrans(s: State, s': State, s'': State, me: Pid)
    requires Others(s, s', me) && Others(s', s'', me)
    ensures Others(s, s'', me)
  {
    var states, actions :| OthersMove(states, actions, me) && states[0] == s && states[|states| - 1] == s';
    var states', actions' :| OthersMove(states', actions', me) && states'[0] == s' && states'[|states'| - 1] == s'';
    var all := states + states'[1..];
    var acts := actions + actions';
    forall i | 0 <= i < |acts|
      ensures Leads(all[i], acts[i], false, all[i + 1]) && ByOthers(all[i], acts[i], me)
    {
      if i >= |actions| {
        assert all[i + 1] == states'[i + 1 - |actions|];
        assert i > |actions| ==> all[i] == states'[i - |actions|];
        assert Leads(states'[i - |actions|], actions'[i - |actions|], false, states'[i + 1 - |actions|]);
      } else {
        assert Leads(states[i], actions[i], false, states[i + 1]);
      }
    }
    assert OthersMove(all, acts, me);
    assert all[|all| - 1] == s'';
  }

  lemma OthersNone(s: State, me: Pid)
    ensures Others(s, s, me)
  {
    assert OthersMove([s], [], me);
  }

  lemma OthersReclaim(s: State, me: Pid)
    requires Enabled(s, ReclaimDead, false)
    ensures Others(s, Next(s, ReclaimDead, false), me)
  {
    var s' := Next(s, ReclaimDead, false);
    assert Leads(s, ReclaimDead, false, s');
    assert OthersMove([s, s'], [ReclaimDead], me);
  }

  /** The barrier was found taken on the way: and its holder was alive then, or the sentinel has gone since. */
  ghost predicate FoundTaken(s: State, s': State, me: Pid) {
    exists mid: State, h: HoldId ::
      && Others(s, mid, me) && Others(mid, s', me)
      && mid.sentinel == Some(h) && h in mid.holds
      && (mid.holds[h].pid in mid.alive || s'.sentinel != Some(h))
  }

  lemma FoundTakenNow(s: State, mid: State, s': State, me: Pid)
    requires Others(s, mid, me) && Others(mid, s', me) && mid.sentinel.Some? && mid.sentinel.value in mid.holds
    requires mid.holds[mid.sentinel.value].pid in mid.alive || s'.sentinel != mid.sentinel
    ensures FoundTaken(s, s', me)
  {
    hide Others;
    var h := mid.sentinel.value;
    assert mid.sentinel == Some(h);
  }

  /** Tried that often, one try after the other, and found taken each time. */
  ghost predicate FoundTakenTimes(s: State, s': State, me: Pid, tries: nat)
    decreases tries
  {
    if tries == 0 then s == s'
    else exists mid: State :: FoundTakenTimes(s, mid, me, tries - 1) && FoundTaken(mid, s', me)
  }

  lemma FoundTakenAgain(s: State, s': State, s'': State, me: Pid, tries: nat)
    requires FoundTakenTimes(s, s', me, tries) && FoundTaken(s', s'', me)
    ensures FoundTakenTimes(s, s'', me, tries + 1)
  {
  }

  /** This process is where it was, but for tasks it has added and holds it has made and named here. */
  ghost predicate Kept(s: State, s': State, me: Pid, made: set<HoldId>) {
    && me in s'.alive
    && (me in s.running <==> me in s'.running) && (me in s.running ==> s'.running[me] == s.running[me])
    && (forall t | t in s.tasks :: t in s'.tasks && s'.tasks[t].pid == s.tasks[t].pid)
    && (forall t | t in s.tasks && s.tasks[t].pid == me :: s'.tasks[t] == s.tasks[t])
    && (forall h | h in s.holds :: h in s'.holds && s'.holds[h].pid == s.holds[h].pid)
    && (forall h | h in s.holds && s.holds[h].pid == me :: s'.holds[h] == s.holds[h])
    && (forall h | h in s'.holds && s'.holds[h].pid == me :: h in s.holds || h in made)
  }

  lemma KeptTrans(s: State, s': State, s'': State, me: Pid, made: set<HoldId>)
    requires Kept(s, s', me, made) && Kept(s', s'', me, {})
    ensures Kept(s, s'', me, made)
  {
  }

  lemma OtherKeeps(s: State, a: Action, me: Pid)
    requires Inv(s, false) && Enabled(s, a, false) && ByOthers(s, a, me) && me in s.alive
    ensures Kept(s, Next(s, a, false), me, {})
  {
    if a.Deactivate? {
      assert TaskOk(s, a.t) && FrameOk(s, a.t, |s.tasks[a.t].stack| - 1);
    }
  }

  lemma {:induction false} OthersKeep(states: seq<State>, actions: seq<Action>, me: Pid, n: nat)
    requires OthersMove(states, actions, me) && n < |states| && Inv(states[0], false) && me in states[0].alive
    ensures Inv(states[n], false) && Kept(states[0], states[n], me, {})
    decreases n
  {
    hide Inv, Enabled, Next, ByOthers, Kept;
    if n > 0 {
      OthersKeep(states, actions, me, n - 1);
      assert Leads(states[n - 1], actions[n - 1], false, states[n]);
      StepKeepsInv(states[n - 1], actions[n - 1], false);
      assert me in states[n - 1].alive by { KeptAlive(states[0], states[n - 1], me, {}); }
      OtherKeeps(states[n - 1], actions[n - 1], me);
      KeptTrans(states[0], states[n - 1], states[n], me, {});
    } else {
      KeptSelf(states[0], me);
    }
  }

  /** What this process relies on holds after any run of the others. */
  lemma OthersKeepMine(s: State, s': State, me: Pid)
    requires Others(s, s', me) && Inv(s, false) && me in s.alive
    ensures Inv(s', false) && Kept(s, s', me, {})
  {
    hide Inv, Kept;
    var states, actions :| OthersMove(states, actions, me) && states[0] == s && states[|states| - 1] == s';
    OthersKeep(states, actions, me, |states| - 1);
  }

  lemma KeptAlive(s: State, s': State, me: Pid, made: set<HoldId>)
    requires Kept(s, s', me, made)
    ensures me in s'.alive
  {
  }

  lemma KeptSelf(s: State, me: Pid)
    requires me in s.alive
    ensures Kept(s, s, me, {})
  {
  }

  lemma SentinelIsHeld(s: State)
    requires Inv(s, false) && s.sentinel.Some?
    ensures s.sentinel.value in s.holds
  {
  }

  /** Inside the body of a new acquisition: the flag is set, the context carries it, and the sentinel is there. */
  ghost predicate Entered(s: State, s': State, me: Pid, t: TaskId, h: HoldId, sync: bool) {
    && t in s.tasks && h !in s.holds
    && Kept(s.(tasks := s.tasks - {t}), s', me, {h})
    && t in s'.tasks && s'.tasks[t] == Task(me, Some(h), s.tasks[t].stack + [Holder(h, sync, s.tasks[t].store)])
    && h in s'.holds && s'.holds[h].active && s'.holds[h].pid == me && s'.holds[h].task == t
    && s'.sentinel == Some(h)
  }

  lemma AcquiringEnters(s: State, s': State, me: Pid, t: TaskId, h: HoldId, sync: bool)
    requires Kept(s, s', me, {}) && t in s.tasks && s.tasks[t].pid == me
    requires Enabled(s', EnterAcquiring(t, sync, h), false)
    ensures Entered(s, Next(s', EnterAcquiring(t, sync, h), false), me, t, h, sync)
  {
  }

  /** A task left behind by a body: new, of this process, with nothing on its stack and this context. */
  ghost predicate LeftBehind(s: State, s': State, task: TaskId, me: Pid, store: Option<HoldId>) {
    && task !in s.tasks && task in s'.tasks && s'.tasks[task] == Task(me, store, [])
  }

  lemma KeptCalling(s: State, s': State, me: Pid, t: TaskId)
    requires Inv(s, false) && Kept(s, s', me, {}) && Runs(s, t) && s.tasks[t].pid == me && NotLeaving(s, t)
    ensures Runs(s', t) && s'.tasks[t] == s.tasks[t] && NotLeaving(s', t)
    ensures Active(s', s'.tasks[t].store) == Active(s, s.tasks[t].store)
  {
    assert TaskOk(s, t);
  }

  lemma EnteredLater(s: State, s': State, s'': State, me: Pid, t: TaskId, h: HoldId, sync: bool)
    requires Kept(s, s', me, {}) && Entered(s', s'', me, t, h, sync) && t in s.tasks && s.tasks[t].pid == me
    ensures Entered(s, s'', me, t, h, sync)
  {
  }

  lemma ActiveIsMine(s: State, me: Pid, t: TaskId)
    requires Inv(s, false) && Runs(s, t) && s.tasks[t].pid == me && Active(s, s.tasks[t].store)
    ensures s.sentinel == s.tasks[t].store
  {
    assert TaskOk(s, t) && HoldOk(s, s.tasks[t].store.value, false);
  }

  lemma AllLeftBehind(
    s: State, s': State, s'': State, first: seq<Leftover>, more: seq<Leftover>, me: Pid, store: Option<HoldId>)
    requires Kept(s, s', me, {}) && Kept(s', s'', me, {})
    requires forall l | l in first :: LeftBehind(s, s', l.task, me, store)
    requires forall l | l in more :: LeftBehind(s', s'', l.task, me, store)
    ensures forall l | l in first + more :: LeftBehind(s, s'', l.task, me, store)
  {
  }

  lemma SpawnKeeps(s: State, me: Pid, t: TaskId, child: TaskId)
    requires Enabled(s, Spawn(t, child, false), false) && s.tasks[t].pid == me && me in s.alive
    ensures Kept(s, Next(s, Spawn(t, child, false), false), me, {})
    ensures LeftBehind(s, Next(s, Spawn(t, child, false), false), child, me, s.tasks[t].store)
  {
  }

  lemma EnterCalls(s: State, me: Pid, t: TaskId)
    requires Enabled(s, Enter(t, true), false) && s.tasks[t].pid == me
    ensures var s' := Next(s, Enter(t, true), false);
            Runs(s', t) && s'.tasks[t].pid == me && NotLeaving(s', t)
            && s'.tasks[t].store == s.tasks[t].store && Active(s', s'.tasks[t].store)
  {
  }

  /** A nested call returns: as before, but for what its body left behind. */
  lemma NestedReturns(s: State, s1: State, me: Pid, t: TaskId, later: seq<Leftover>)
    requires Enabled(s, Enter(t, true), false) && s.tasks[t].pid == me
    requires Kept(Next(s, Enter(t, true), false), s1, me, {})
    requires forall l | l in later :: LeftBehind(Next(s, Enter(t, true), false), s1, l.task, me, s.tasks[t].store)
    ensures Enabled(s1, LeaveInner(t), false)
    ensures var s' := Next(s1, LeaveInner(t), false);
            && Kept(s, s', me, {}) && Runs(s', t) && s'.tasks[t] == s.tasks[t] && NotLeaving(s', t)
            && (forall l | l in later :: LeftBehind(s, s', l.task, me, s.tasks[t].store))
  {
    var stack := s.tasks[t].stack;
    var inner := [Inner(s.tasks[t].store.value, true)];
    assert (stack + inner)[..|stack|] == stack;
  }

  lemma EnteredRuns(s: State, s': State, me: Pid, t: TaskId, h: HoldId)
    requires Entered(s, s', me, t, h, true)
    ensures s'.tasks[t].store == Some(h) && Active(s', Some(h))
  {
  }

  /** Between clearing the flag and releasing. */
  ghost predicate Leaving(s: State, s': State, me: Pid, t: TaskId, h: HoldId, later: seq<Leftover>) {
    && t in s.tasks && h !in s.holds
    && Kept(s.(tasks := s.tasks - {t}), s', me, {h})
    && Runs(s', t)
    && s'.tasks[t] == Task(me, Some(h), s.tasks[t].stack + [Releasing(h, true, s.tasks[t].store)])
    && h in s'.holds && !s'.holds[h].active && s'.holds[h].pid == me
    && forall l | l in later :: LeftBehind(s, s', l.task, me, Some(h))
  }

  lemma DeactivateLeaves(s: State, e: State, s1: State, me: Pid, t: TaskId, h: HoldId, later: seq<Leftover>)
    requires Entered(s, e, me, t, h, true) && Kept(e, s1, me, {}) && Runs(s1, t)
    requires forall l | l in later :: LeftBehind(e, s1, l.task, me, Some(h))
    ensures Enabled(s1, Deactivate(t), false)
    ensures Leaving(s, Next(s1, Deactivate(t), false), me, t, h, later)
  {
  }

  lemma PausedLeaving(s: State, s2: State, s3: State, me: Pid, t: TaskId, h: HoldId, later: seq<Leftover>)
    requires Leaving(s, s2, me, t, h, later) && Kept(s2, s3, me, {})
    ensures Leaving(s, s3, me, t, h, later) && Enabled(s3, Release(t), false)
  {
  }

  lemma ReleaseReturns(s: State, s3: State, me: Pid, t: TaskId, h: HoldId, later: seq<Leftover>)
    requires Runs(s, t) && s.tasks[t].pid == me && NotLeaving(s, t)
    requires Leaving(s, s3, me, t, h, later) && Enabled(s3, Release(t), false)
    ensures var s' := Next(s3, Release(t), false);
            && Kept(s, s', me, {h}) && Runs(s', t) && s'.tasks[t] == s.tasks[t] && NotLeaving(s', t)
            && s'.sentinel != Some(h) && h in s'.holds && !s'.holds[h].active
            && (forall l | l in later :: LeftBehind(s, s', l.task, me, Some(h)))
  {
    var stack := s.tasks[t].stack;
    assert (stack + [Releasing(h, true, s.tasks[t].store)])[..|stack|] == stack;
  }

  lemma TurnCalls(s: State, me: Pid, t: TaskId)
    requires Inv(s, false) && me in s.alive && me !in s.running
    requires t in s.tasks && s.tasks[t].pid == me && s.tasks[t].stack == []
    ensures Enabled(s, TakeTurn(t), false)
    ensures var s' := Next(s, TakeTurn(t), false);
            Runs(s', t) && s'.tasks == s.tasks && NotLeaving(s', t) && s'.holds == s.holds
    ensures s.tasks[t].store.Some? ==> s.tasks[t].store.value in s.holds
  {
    assert TaskOk(s, t);
  }

  lemma {:induction false} FreshId(used: set<nat>) returns (id: nat)
    ensures id !in used && forall u | u in used :: u < id
    decreases used
  {
    if used == {} {
      return 0;
    }
    var u :| u in used;
    var below := FreshId(used - {u});
    assert forall w | w in used :: w == u || w in used - {u};
    id := if u < below then below else u + 1;
  }

  // -------------------------------------------------------------- one process

  class Process {
    const me: Pid
    var state: State
    ghost var events: seq<Event>

    /** The machine is consistent and this process runs. */
    ghost predicate Valid()
      reads this
    {
      Inv(state, false) && me in state.alive
    }

    /** This task has the thread and is not on its way out of a call. */
    ghost predicate Calling(t: TaskId)
      reads this
    {
      Valid() && Runs(state, t) && state.tasks[t].pid == me && NotLeaving(state, t)
    }

    constructor (me: Pid, state: State)
      requires Inv(state, false) && me in state.alive
      ensures Valid() && this.me == me && this.state == state && events == []
    {
      this.me, this.state, events := me, state, [];
    }

    /** Everyone else runs for a while; callers may use only what follows from any such run. */
    method Interfere()
      modifies this`state
      ensures Others(old(state), state, me)
    {
      assert OthersMove([state], [], me);
    }

    method Pause()
      requires Valid()
      modifies this`state
      ensures Valid() && Kept(old(state), state, me, {}) && Others(old(state), state, me)
    {
      Interfere();
      OthersKeepMine(old(state), state, me);
    }

    /** One action of this process. */
    method Do(a: Action)
      requires Valid() && Enabled(state, a, false) && a != Die(me)
      modifies this`state
      ensures Valid() && state == Next(old(state), a, false)
    {
      StepKeepsInv(state, a, false);
      state := Next(state, a, false);
    }

    /** Acquire, or reclaim the sentinel of a dead process and try once more. On success the body is entered,
        with a new flag in the context. Without a hold, the barrier was found taken, by a holder that was alive or
        that has lost it since, unless `loses`: the reclaim of a dead holder's sentinel was lost. */
    method TryAcquireMaintenanceBarrier(t: TaskId, sync: bool, loses: bool) returns (hold: Option<HoldId>)
      requires Calling(t) && !Active(state, state.tasks[t].store)
      modifies this
      ensures hold.None? ==> Calling(t) && Kept(old(state), state, me, {}) && events == old(events)
      ensures hold.None? ==> Others(old(state), state, me) && (loses || FoundTaken(old(state), state, me))
      ensures hold.Some? ==> Calling(t) && Entered(old(state), state, me, t, hold.value, sync)
      ensures hold.Some? ==> events == old(events) + [Acquired(hold.value)]
    {
      hide Inv, Kept, Entered, Others, FoundTaken;
      KeptSelf(state, me);
      OthersNone(state, me);
      var attempt := 0;
      while attempt < 2
        invariant Calling(t) && Kept(old(state), state, me, {}) && events == old(events)
        invariant Others(old(state), state, me) && (attempt > 0 ==> FoundTaken(old(state), state, me))
      {
        ghost var s := state;
        Pause();
        OthersTrans(old(state), s, state, me);
        KeptTrans(old(state), s, state, me, {});
        KeptCalling(old(state), state, me, t);
        if state.sentinel.None? {
          var h := FreshHold();
          s := state;
          Do(EnterAcquiring(t, sync, h));
          AcquiringEnters(old(state), s, me, t, h, sync);
          events := events + [Acquired(h)];
          return Some(h);
        }
        s := state;
        SentinelIsHeld(s);
        Pause();
        OthersTrans(old(state), s, state, me);
        KeptTrans(old(state), s, state, me, {});
        KeptCalling(old(state), state, me, t);
        if state.sentinel.None? {
          FoundTakenNow(old(state), s, state, me);
          return None;
        }
        SentinelIsHeld(state);
        if state.holds[state.sentinel.value].pid in state.alive {
          OthersNone(state, me);
          FoundTakenNow(old(state), state, state, me);
          return None;
        }
        if loses {
          return None;
        }
        s := state;
        OthersReclaim(s, me);
        Do(ReclaimDead);
        FoundTakenNow(old(state), s, state, me);
        OthersTrans(old(state), s, state, me);
        assert Kept(s, state, me, {}) by { OtherKeeps(s, ReclaimDead, me); }
        KeptTrans(old(state), s, state, me, {});
        KeptCalling(old(state), state, me, t);
        attempt := attempt + 1;
      }
      hold := None;
    }

    /** The identifier that randomUUID gives to an acquisition. */
    method FreshHold() returns (h: HoldId)
      ensures h !in state.holds
    {
      ghost var free := FreshId(state.holds.Keys);
      assert free !in state.holds;
      h :| h !in state.holds;
    }

    /** The wrappers differ in how often they try: once, or until a deadline. */
    method AcquireWithin(t: TaskId, polls: nat, loses: bool) returns (hold: Option<HoldId>)
      requires Calling(t) && !Active(state, state.tasks[t].store)
      modifies this
      ensures hold.None? ==> Calling(t) && Kept(old(state), state, me, {}) && events == old(events)
      ensures hold.None? ==> loses || FoundTakenTimes(old(state), state, me, polls + 1)
      ensures hold.Some? ==> Calling(t) && Entered(old(state), state, me, t, hold.value, true)
      ensures hold.Some? ==> events == old(events) + [Acquired(hold.value)]
    {
      hide Inv, Kept, Entered, Active, Others, FoundTaken;
      assert FoundTakenTimes(state, state, me, 0);
      hold := TryAcquireMaintenanceBarrier(t, true, loses);
      if hold.None? && !loses {
        FoundTakenAgain(old(state), old(state), state, me, 0);
      }
      var left := polls;
      while hold.None? && left > 0
        invariant hold.None? ==> Calling(t) && Kept(old(state), state, me, {}) && events == old(events)
        invariant 0 <= left <= polls
        invariant hold.None? ==> loses || FoundTakenTimes(old(state), state, me, polls - left + 1)
        invariant hold.Some? ==> Calling(t) && Entered(old(state), state, me, t, hold.value, true)
        invariant hold.Some? ==> events == old(events) + [Acquired(hold.value)]
      {
        KeptCalling(old(state), state, me, t);
        ghost var s := state;
        hold := TryAcquireMaintenanceBarrier(t, true, loses);
        if hold.None? {
          if !loses {
            FoundTakenAgain(old(state), s, state, me, polls - left + 1);
          }
          KeptTrans(old(state), s, state, me, {});
        } else {
          EnteredLater(old(state), s, state, me, t, hold.value, true);
        }
        left := left - 1;
      }
    }

    /** Run a body whose context carries an active flag: all of its work is done under the barrier, nested calls
        acquire nothing and release nothing, and flag, context and sentinel are as before when it returns or
        throws. */
    method RunBody(t: TaskId, body: Body) returns (threw: bool, later: seq<Leftover>)
      requires Calling(t) && Active(state, state.tasks[t].store)
      modifies this
      ensures Calling(t) && Kept(old(state), state, me, {})
      ensures Active(state, state.tasks[t].store) && state.sentinel == state.tasks[t].store
      ensures threw == Throws(body) && BodiesOf(later) == Laters(body)
      ensures |events| == |old(events)| + Works(body) && events[..|old(events)|] == old(events)
      ensures forall i | |old(events)| <= i < |events| :: events[i] == Worked(old(state).tasks[t].store)
      ensures forall l | l in later :: LeftBehind(old(state), state, l.task, me, old(state).tasks[t].store)
      decreases body, 0
    {
      hide Inv, Kept, Active, LeftBehind;
      later := [];
      threw := false;
      KeptSelf(state, me);
      ActiveIsMine(state, me, t);
      match body {
        case Work =>
          Pause();
          KeptCalling(old(state), state, me, t);
          ActiveIsMine(state, me, t);
          events := events + [Worked(state.sentinel)];
        case Throw =>
          threw := true;
        case Then(first, second) =>
          threw, later := RunBody(t, first);
          if !threw {
            ghost var s := state;
            KeptCalling(old(state), s, me, t);
            var more;
            threw, more := RunBody(t, second);
            KeptTrans(old(state), s, state, me, {});
            AllLeftBehind(old(state), s, state, later, more, me, old(state).tasks[t].store);
            BodiesAppend(later, more);
            later := later + more;
          }
        case Nested(inner) =>
          var outcome;
          outcome, later := WithMaintenanceStartBarrier(t, inner, 0, false);
          KeptCalling(old(state), state, me, t);
          ActiveIsMine(state, me, t);
          threw := outcome == Threw;
        case Later(rest) =>
          var child := FreshTask();
          Do(Spawn(t, child, false));
          SpawnKeeps(old(state), me, t, child);
          KeptCalling(old(state), state, me, t);
          ActiveIsMine(state, me, t);
          later := [Leftover(child, rest)];
      }
    }

    /** The identifier of a new asynchronous context. */
    method FreshTask() returns (t: TaskId)
      ensures t !in state.tasks
    {
      ghost var free := FreshId(state.tasks.Keys);
      assert free !in state.tasks;
      t :| t !in state.tasks;
    }

    /** Already under the barrier: just run. */
    method RunNested(t: TaskId, body: Body) returns (outcome: Outcome, later: seq<Leftover>)
      requires Calling(t) && Active(state, state.tasks[t].store)
      modifies this
      ensures Calling(t) && Kept(old(state), state, me, {}) && state.tasks[t] == old(state).tasks[t]
      ensures outcome == (if Throws(body) then Threw else Ran) && BodiesOf(later) == Laters(body)
      ensures |events| == |old(events)| + Works(body) && events[..|old(events)|] == old(events)
      ensures forall i | |old(events)| <= i < |events| :: events[i] == Worked(old(state).tasks[t].store)
      ensures forall l | l in later :: LeftBehind(old(state), state, l.task, me, old(state).tasks[t].store)
      decreases body, 1
    {
      hide Inv, Kept, Active, LeftBehind, Enabled, Next;
      EnterCalls(state, me, t);
      Do(Enter(t, true));
      var threw;
      threw, later := RunBody(t, body);
      outcome := if threw then Threw else Ran;
      NestedReturns(old(state), state, me, t, later);
      Do(LeaveInner(t));
    }

    /** Once acquired: run, and on every way out clear the flag and then release. `s` is the state before the
        call. */
    method RunAndRelease(ghost s: State, t: TaskId, body: Body, h: HoldId)
      returns (outcome: Outcome, later: seq<Leftover>)
      requires Calling(t) && Entered(s, state, me, t, h, true)
      requires Runs(s, t) && s.tasks[t].pid == me && NotLeaving(s, t)
      modifies this
      ensures Calling(t) && Kept(s, state, me, {h}) && state.tasks[t] == s.tasks[t]
      ensures outcome == (if Throws(body) then Threw else Ran) && BodiesOf(later) == Laters(body)
      ensures |events| == |old(events)| + Works(body) + 1 && events[..|old(events)|] == old(events)
      ensures events[|events| - 1] == Released(h)
      ensures forall i | |old(events)| <= i < |events| - 1 :: events[i] == Worked(Some(h))
      ensures h in state.holds && state.sentinel != Some(h) && !state.holds[h].active
      ensures forall l | l in later :: LeftBehind(s, state, l.task, me, Some(h))
      decreases body, 1
    {
      hide Inv, Kept, Active, LeftBehind, Entered, Leaving, Enabled, Next;
      ghost var entered := state;
      EnteredRuns(s, state, me, t, h);
      var threw;
      threw, later := RunBody(t, body);
      outcome := if threw then Threw else Ran;
      DeactivateLeaves(s, entered, state, me, t, h, later);
      Do(Deactivate(t));
      ghost var leaving := state;
      Pause();
      PausedLeaving(s, leaving, state, me, t, h, later);
      ReleaseReturns(s, state, me, t, h, later);
      Do(Release(t));
      events := events + [Released(h)];
    }

    /** Re-entrant by the flag. Otherwise: acquire, run, and on every way out clear the flag and release. */
    method WithMaintenanceStartBarrier(t: TaskId, body: Body, polls: nat, loses: bool)
      returns (outcome: Outcome, later: seq<Leftover>)
      requires Calling(t)
      modifies this
      ensures Calling(t) && state.tasks[t] == old(state).tasks[t]
      ensures |events| >= |old(events)| && events[..|old(events)|] == old(events)
      // The body is run unless the barrier is busy, once and to its end.
      ensures outcome != Busy ==>
                outcome == (if Throws(body) then Threw else Ran) && BodiesOf(later) == Laters(body)
      // Nested: nothing is acquired, nothing released.
      ensures Active(old(state), old(state).tasks[t].store) ==>
                && outcome != Busy && Kept(old(state), state, me, {}) && |events| == |old(events)| + Works(body)
                && (forall i | |old(events)| <= i < |events| :: events[i] == Worked(old(state).tasks[t].store))
                && (forall l | l in later :: LeftBehind(old(state), state, l.task, me, old(state).tasks[t].store))
      // Busy: the barrier was found taken at each try, and nothing happened.
      ensures !Active(old(state), old(state).tasks[t].store) && outcome == Busy ==>
                && Kept(old(state), state, me, {}) && events == old(events) && later == []
                && (loses || FoundTakenTimes(old(state), state, me, polls + 1))
      // Otherwise the barrier is acquired first and released last, all work in between is under it, and what is
      // left behind carries a cleared flag.
      ensures !Active(old(state), old(state).tasks[t].store) && outcome != Busy ==>
                && |events| == |old(events)| + Works(body) + 2 && events[|old(events)|].Acquired?
                && var h := events[|old(events)|].hold;
                   && h !in old(state).holds && h in state.holds
                   && Kept(old(state), state, me, {h})
                   && events[|events| - 1] == Released(h)
                   && (forall i | |old(events)| < i < |events| - 1 :: events[i] == Worked(Some(h)))
                   && state.sentinel != Some(h) && !state.holds[h].active
                   && (forall l | l in later :: LeftBehind(old(state), state, l.task, me, Some(h)))
      decreases body, 2
    {
      assert t in state.tasks;
      hide Inv, Kept, Active, LeftBehind, Entered, Leaving, Enabled, Next, Runs, NotLeaving, Others, FoundTaken,
        FoundTakenTimes;
      if Active(state, state.tasks[t].store) {
        outcome, later := RunNested(t, body);
        return;
      }
      var release := AcquireWithin(t, polls, loses);
      if release.None? {
        KeptCalling(old(state), state, me, t);
        return Busy, [];
      }
      outcome, later := RunAndRelease(old(state), t, body, release.value);
    }

    /** A continuation that outlived its call gets its turn: it acquires anew, or runs nothing. */
    method RunLeftover(l: Leftover, polls: nat, loses: bool) returns (outcome: Outcome, later: seq<Leftover>)
      requires Valid() && me !in state.running
      requires l.task in state.tasks && state.tasks[l.task].pid == me && state.tasks[l.task].stack == []
      requires !Active(state, state.tasks[l.task].store)
      modifies this
      ensures Valid() && me !in state.running
      ensures |events| >= |old(events)| && events[..|old(events)|] == old(events)
      ensures outcome == Busy ==> events == old(events) && later == []
      ensures outcome == Busy ==>
                loses || exists s: State ::
                  FoundTakenTimes(Next(old(state), TakeTurn(l.task), false), s, me, polls + 1)
                  && Leads(s, EndTurn(l.task), false, state)
      ensures outcome != Busy ==>
                && |events| == |old(events)| + Works(l.body) + 2 && events[|old(events)|].Acquired?
                && outcome == (if Throws(l.body) then Threw else Ran) && BodiesOf(later) == Laters(l.body)
                && var h := events[|old(events)|].hold;
                   && h !in old(state).holds && old(state).tasks[l.task].store != Some(h)
                   && events[|events| - 1] == Released(h)
                   && (forall i | |old(events)| < i < |events| - 1 :: events[i] == Worked(Some(h)))
                   && state.sentinel != Some(h)
    {
      hide Inv, Kept, LeftBehind, FoundTakenTimes;
      TurnCalls(state, me, l.task);
      Do(TakeTurn(l.task));
      outcome, later := WithMaintenanceStartBarrier(l.task, l.body, polls, loses);
      ghost var s := state;
      Do(EndTurn(l.task));
      assert Leads(s, EndTurn(l.task), false, state);
    }
  }
}
