/**
 * The asynchronous wrapper of src/core/maintenance-barrier.ts. While it waits for the barrier, and whenever its
 * body awaits, everything else moves: other processes, and the other tasks of its own process.
 */
module MaintenanceBarrierAsync {
  import opened Options
  import opened MaintenanceBarrier
  import opened MaintenanceBarrierCalls

  /** What an asynchronous body does: synchronous stretches, awaits, and nested calls of the wrapper. */
  datatype AsyncBody =
    | Stretch(body: Body)
    | Await
    | InTurn(first: AsyncBody, second: AsyncBody)
    | Again(inner: AsyncBody)

  /** How often a body gets to work under its own acquisition, up to where it throws. */
  function AsyncWorks(body: AsyncBody): nat {
    match body
    case Stretch(piece) => Works(piece)
    case Await => 0
    case InTurn(first, second) => AsyncWorks(first) + if AsyncThrows(first) then 0 else AsyncWorks(second)
    case Again(inner) => AsyncWorks(inner)
  }

  predicate AsyncThrows(body: AsyncBody) {
    match body
    case Stretch(piece) => Throws(piece)
    case Await => false
    case InTurn(first, second) => AsyncThrows(first) || AsyncThrows(second)
    case Again(inner) => AsyncThrows(inner)
  }

  // ----------------------------------------------- what a body does in a lent context

  predicate AllUnderOne(events: seq<Event>, works: nat) {
    |events| == works && forall i | 0 <= i < works :: events[i].Worked? && events[i] == events[0]
  }

  /** A call of a wrapper around so much work: it threw at once, the barrier being busy; or it was nested; or it
      acquired, did all of the work under that hold and released. */
  predicate CallTrace(events: seq<Event>, works: nat, throws: bool, threw: bool) {
    || (threw && events == [])
    || (threw == throws && AllUnderOne(events, works))
    || (threw == throws && Bracketed(events, works))
  }

  predicate Bracketed(events: seq<Event>, works: nat) {
    && |events| == works + 2 && events[0].Acquired? && events[works + 1] == Released(events[0].hold)
    && forall i | 0 < i <= works :: events[i] == Worked(Some(events[0].hold))
  }

  /** A synchronous stretch: every piece of work is done, and every nested call made, in order and up to the first
      throw. */
  predicate BareTrace(body: Body, events: seq<Event>, threw: bool) {
    match body
    case Work => !threw && |events| == 1 && events[0].Worked?
    case Throw => threw && events == []
    case Then(first, second) =>
      || (threw && BareTrace(first, events, true))
      || exists n | 0 <= n <= |events| :: BareTrace(first, events[..n], false) && BareTrace(second, events[n..], threw)
    case Nested(inner) => CallTrace(events, Works(inner), Throws(inner), threw)
    case Later(_) => !threw && events == []
  }

  /** The same across awaits. A call of the asynchronous wrapper that is nested may find its flag cleared on the way. */
  predicate LentTrace(body: AsyncBody, events: seq<Event>, threw: bool) {
    match body
    case Stretch(piece) => BareTrace(piece, events, threw)
    case Await => !threw && events == []
    case InTurn(first, second) =>
      || (threw && LentTrace(first, events, true))
      || exists n | 0 <= n <= |events| :: LentTrace(first, events[..n], false) && LentTrace(second, events[n..], threw)
    case Again(inner) =>
      CallTrace(events, AsyncWorks(inner), AsyncThrows(inner), threw) || LentTrace(inner, events, threw)
  }

  lemma ThenTrace(first: Body, second: Body, before: seq<Event>, after: seq<Event>, threw: bool)
    requires BareTrace(first, before, false) && BareTrace(second, after, threw)
    ensures BareTrace(Then(first, second), before + after, threw)
  {
    var n := |before|;
    assert (before + after)[..n] == before && (before + after)[n..] == after;
  }

  lemma InTurnTrace(first: AsyncBody, second: AsyncBody, before: seq<Event>, after: seq<Event>, threw: bool)
    requires LentTrace(first, before, false) && LentTrace(second, after, threw)
    ensures LentTrace(InTurn(first, second), before + after, threw)
  {
    var n := |before|;
    assert (before + after)[..n] == before && (before + after)[n..] == after;
  }

  // -------------------------------------------------------------- everything else

  /** Any number of actions of anything but this task; its process stays alive. */
  ghost predicate RestMoves(states: seq<State>, actions: seq<Action>, me: Pid, t: TaskId) {
    && |states| == |actions| + 1
    && forall i | 0 <= i < |actions| ::
         && Leads(states[i], actions[i], false, states[i + 1])
         && Actor(actions[i]) != Some(t) && actions[i] != Die(me)
  }

  ghost predicate Rest(s: State, s': State, me: Pid, t: TaskId) {
    exists states, actions :: RestMoves(states, actions, me, t) && states[0] == s && states[|states| - 1] == s'
  }

  /** This task is where it was, and the acquisitions it has made are what they were. */
  ghost predicate Stays(s: State, s': State, me: Pid, t: TaskId) {
    && me in s'.alive && t in s.tasks && t in s'.tasks && s'.tasks[t] == s.tasks[t]
    && (forall h | h in s.holds :: h in s'.holds)
    && (forall h | h in s.holds && s.holds[h].task == t && s.holds[h].pid == me :: s'.holds[h] == s.holds[h])
    && (forall h | h in s.holds && s.holds[h].pid == me :: s'.holds[h].pid == me)
    && (forall h | h in s.holds && s.holds[h].pid == me && !s.holds[h].active :: !s'.holds[h].active)
  }

  lemma StaysTrans(s: State, s': State, s'': State, me: Pid, t: TaskId)
    requires Stays(s, s', me, t) && Stays(s', s'', me, t)
    ensures Stays(s, s'', me, t)
  {
  }

  lemma StaysSelf(s: State, me: Pid, t: TaskId)
    requires me in s.alive && t in s.tasks
    ensures Stays(s, s, me, t)
  {
  }

  lemma RestStep(s: State, a: Action, me: Pid, t: TaskId)
    requires Inv(s, false) && Enabled(s, a, false) && Actor(a) != Some(t) && a != Die(me)
    requires me in s.alive && t in s.tasks && s.tasks[t].pid == me
    ensures Stays(s, Next(s, a, false), me, t)
  {
    if a.Deactivate? {
      assert TaskOk(s, a.t) && FrameOk(s, a.t, |s.tasks[a.t].stack| - 1);
    }
  }

  lemma {:induction false} RestStays(states: seq<State>, actions: seq<Action>, me: Pid, t: TaskId, n: nat)
    requires RestMoves(states, actions, me, t) && n < |states| && Inv(states[0], false) && me in states[0].alive
    requires t in states[0].tasks && states[0].tasks[t].pid == me
    ensures Inv(states[n], false) && Stays(states[0], states[n], me, t)
    decreases n
  {
    hide Inv, Enabled, Next, Actor;
    if n > 0 {
      RestStays(states, actions, me, t, n - 1);
      assert Leads(states[n - 1], actions[n - 1], false, states[n]);
      StepKeepsInv(states[n - 1], actions[n - 1], false);
      RestStep(states[n - 1], actions[n - 1], me, t);
      StaysTrans(states[0], states[n - 1], states[n], me, t);
    } else {
      StaysSelf(states[0], me, t);
    }
  }

  lemma RestKeepsMine(s: State, s': State, me: Pid, t: TaskId)
    requires Rest(s, s', me, t) && Inv(s, false) && me in s.alive && t in s.tasks && s.tasks[t].pid == me
    ensures Inv(s', false) && Stays(s, s', me, t)
  {
    hide Inv, Stays;
    var states, actions :| RestMoves(states, actions, me, t) && states[0] == s && states[|states| - 1] == s';
    RestStays(states, actions, me, t, |states| - 1);
  }

  // ------------------------------------------------------------------ waiting

  /** The action moves a body of this task. */
  predicate InBody(a: Action, t: TaskId) {
    match a
    case Enter(u, _) => u == t
    case EnterAcquiring(u, _, _) => u == t
    case Spawn(u, _, _) => u == t
    case LeaveInner(u) => u == t
    case Deactivate(u) => u == t
    case Release(u) => u == t
    case _ => false
  }

  /** Any number of actions, while this task does nothing but give up the thread and take it again. */
  ghost predicate WaitMoves(states: seq<State>, actions: seq<Action>, t: TaskId) {
    && |states| == |actions| + 1
    && forall i | 0 <= i < |actions| ::
         Leads(states[i], actions[i], false, states[i + 1]) && !InBody(actions[i], t)
  }

  ghost predicate Waited(s: State, s': State, t: TaskId) {
    exists states, actions :: WaitMoves(states, actions, t) && states[0] == s && states[|states| - 1] == s'
  }

  lemma WaitedTrans(s: State, s': State, s'': State, t: TaskId)
    requires Waited(s, s', t) && Waited(s', s'', t)
    ensures Waited(s, s'', t)
  {
    var states, actions :| WaitMoves(states, actions, t) && states[0] == s && states[|states| - 1] == s';
    var states', actions' :| WaitMoves(states', actions', t) && states'[0] == s' && states'[|states'| - 1] == s'';
    var all := states + states'[1..];
    var acts := actions + actions';
    forall i | 0 <= i < |acts| ensures Leads(all[i], acts[i], false, all[i + 1]) && !InBody(acts[i], t) {
      if i >= |actions| {
        assert all[i + 1] == states'[i + 1 - |actions|];
        assert i > |actions| ==> all[i] == states'[i - |actions|];
        assert Leads(states'[i - |actions|], actions'[i - |actions|], false, states'[i + 1 - |actions|]);
      } else {
        assert Leads(states[i], actions[i], false, states[i + 1]);
      }
    }
    assert WaitMoves(all, acts, t);
    assert all[|all| - 1] == s'';
  }

  lemma WaitedOne(s: State, a: Action, t: TaskId)
    requires Enabled(s, a, false) && !InBody(a, t)
    ensures Waited(s, Next(s, a, false), t)
  {
    var s' := Next(s, a, false);
    assert Leads(s, a, false, s');
    assert WaitMoves([s, s'], [a], t);
  }

  lemma RestWaits(s: State, s': State, me: Pid, t: TaskId)
    requires Rest(s, s', me, t)
    ensures Waited(s, s', t)
  {
    var states, actions :| RestMoves(states, actions, me, t) && states[0] == s && states[|states| - 1] == s';
    forall i | 0 <= i < |actions| ensures Leads(states[i], actions[i], false, states[i + 1]) && !InBody(actions[i], t) {
    }
    assert WaitMoves(states, actions, t);
  }

  lemma {:induction false} TaskPersists(states: seq<State>, actions: seq<Action>, me: Pid, t: TaskId, n: nat)
    requires OthersMove(states, actions, me) && n < |states| && t in states[0].tasks && states[0].tasks[t].pid == me
    ensures t in states[n].tasks && states[n].tasks[t].pid == me
    decreases n
  {
    if n > 0 {
      TaskPersists(states, actions, me, t, n - 1);
      assert Leads(states[n - 1], actions[n - 1], false, states[n]);
    }
  }

  lemma OthersWait(s: State, s': State, me: Pid, t: TaskId)
    requires Others(s, s', me) && t in s.tasks && s.tasks[t].pid == me
    ensures Waited(s, s', t) && t in s'.tasks && s'.tasks[t].pid == me
  {
    var states, actions :| OthersMove(states, actions, me) && states[0] == s && states[|states| - 1] == s';
    forall i | 0 <= i < |actions| ensures Leads(states[i], actions[i], false, states[i + 1]) && !InBody(actions[i], t) {
      TaskPersists(states, actions, me, t, i);
    }
    TaskPersists(states, actions, me, t, |actions|);
    assert WaitMoves(states, actions, t);
  }

  /** The barrier was found taken on the way: and its holder was alive then, or the sentinel has gone since. */
  ghost predicate FoundBusy(s: State, s': State, t: TaskId) {
    exists mid: State, h: HoldId ::
      && Waited(s, mid, t) && Waited(mid, s', t)
      && mid.sentinel == Some(h) && h in mid.holds
      && (mid.holds[h].pid in mid.alive || s'.sentinel != Some(h))
  }

  lemma TakenIsBusy(s: State, s': State, s'': State, me: Pid, t: TaskId)
    requires Waited(s, s', t) && FoundTaken(s', s'', me) && t in s'.tasks && s'.tasks[t].pid == me
    ensures FoundBusy(s, s'', t)
  {
    hide Others, Waited;
    var mid: State, h: HoldId :| Others(s', mid, me) && Others(mid, s'', me)
      && mid.sentinel == Some(h) && h in mid.holds
      && (mid.holds[h].pid in mid.alive || s''.sentinel != Some(h));
    OthersWait(s', mid, me, t);
    OthersWait(mid, s'', me, t);
    WaitedTrans(s, s', mid, t);
  }

  /** Tried that often, with waits in between, and found busy each time. */
  ghost predicate FoundBusyTimes(s: State, s': State, t: TaskId, tries: nat)
    decreases tries
  {
    if tries == 0 then s == s'
    else exists mid: State :: FoundBusyTimes(s, mid, t, tries - 1) && FoundBusy(mid, s', t)
  }

  lemma FoundBusyAgain(s: State, s': State, s'': State, t: TaskId, tries: nat)
    requires FoundBusyTimes(s, s', t, tries) && FoundBusy(s', s'', t)
    ensures FoundBusyTimes(s, s'', t, tries + 1)
  {
  }

  // ---------------------------------------------------------------- one task

  /** No synchronous call of this task is under way, so it may await. */
  ghost predicate MayAwait(s: State, t: TaskId) {
    t in s.tasks && forall i | 0 <= i < |s.tasks[t].stack| :: !s.tasks[t].stack[i].sync
  }

  /** The context of this task carries the flag of an acquisition that this task made and still holds. */
  ghost predicate Carries(s: State, me: Pid, t: TaskId, h: HoldId) {
    && t in s.tasks && s.tasks[t].store == Some(h)
    && h in s.holds && s.holds[h].active && s.holds[h].task == t && s.holds[h].pid == me
  }

  lemma CarriesStays(s: State, s': State, me: Pid, t: TaskId, h: HoldId)
    requires Stays(s, s', me, t)
    ensures MayAwait(s, t) ==> MayAwait(s', t)
    ensures Carries(s, me, t, h) ==> Carries(s', me, t, h)
    ensures s'.tasks[t] == s.tasks[t]
  {
  }

  /** The context of this task carries the flag of a call that another task made and has not left. */
  ghost predicate Lent(s: State, t: TaskId) {
    && t in s.tasks && Active(s, s.tasks[t].store)
    && s.tasks[t].store.value in s.holds && s.holds[s.tasks[t].store.value].task != t
  }

  /** What such a task does is done under its own sentinel. */
  lemma CarriesHolds(s: State, me: Pid, t: TaskId, h: HoldId)
    requires Inv(s, false) && me in s.alive && Carries(s, me, t, h)
    ensures s.sentinel == Some(h) && Active(s, s.tasks[t].store)
  {
    assert HoldOk(s, h, false);
  }

  lemma KeptStays(s: State, s': State, me: Pid, t: TaskId)
    requires Kept(s, s', me, {}) && t in s.tasks && s.tasks[t].pid == me
    ensures Stays(s, s', me, t)
  {
  }

  /** A flag once cleared stays cleared. */
  lemma StaysInactive(s: State, s': State, me: Pid, t: TaskId)
    requires Inv(s, false) && Stays(s, s', me, t) && s.tasks[t].pid == me && me in s.alive
    requires !Active(s, s.tasks[t].store)
    ensures !Active(s', s'.tasks[t].store)
  {
    assert TaskOk(s, t);
  }

  lemma EndsTurn(s: State, me: Pid, t: TaskId)
    requires Runs(s, t) && s.tasks[t].pid == me && MayAwait(s, t) && me in s.alive
    ensures Enabled(s, EndTurn(t), false)
    ensures var s' := Next(s, EndTurn(t), false);
            Stays(s, s', me, t) && me !in s'.running
  {
  }

  lemma TakesTurn(s: State, me: Pid, t: TaskId)
    requires t in s.tasks && s.tasks[t].pid == me && me in s.alive && me !in s.running && NotLeaving(s, t)
    ensures Enabled(s, TakeTurn(t), false)
    ensures var s' := Next(s, TakeTurn(t), false);
            Stays(s, s', me, t) && Runs(s', t) && NotLeaving(s', t)
  {
  }

  // ------------------------------------------------------------------ methods

  /** Everything else runs for a while, and then the thread of the process is free. */
  method Elsewhere(p: Process, t: TaskId)
    requires p.me !in p.state.running
    modifies p`state
    ensures Rest(old(p.state), p.state, p.me, t) && p.me !in p.state.running
  {
    assert RestMoves([p.state], [], p.me, t);
  }

  /** Give up the thread, and get it back. */
  method AwaitTurn(p: Process, t: TaskId)
    requires p.Calling(t) && MayAwait(p.state, t)
    modifies p`state
    ensures p.Calling(t) && Stays(old(p.state), p.state, p.me, t) && MayAwait(p.state, t)
    ensures Waited(old(p.state), p.state, t)
  {
    hide Inv, Stays, Enabled, Next, Rest, Waited;
    ghost var s0 := p.state;
    EndsTurn(p.state, p.me, t);
    WaitedOne(s0, EndTurn(t), t);
    p.Do(EndTurn(t));
    ghost var s1 := p.state;
    InPlace(s0, s1, p.me, t);
    Elsewhere(p, t);
    RestKeepsMine(s1, p.state, p.me, t);
    RestWaits(s1, p.state, p.me, t);
    WaitedTrans(s0, s1, p.state, t);
    StaysTrans(s0, s1, p.state, p.me, t);
    InPlace(s0, p.state, p.me, t);
    ghost var s2 := p.state;
    TakesTurn(p.state, p.me, t);
    WaitedOne(s2, TakeTurn(t), t);
    p.Do(TakeTurn(t));
    WaitedTrans(s0, s2, p.state, t);
    StaysTrans(s0, s2, p.state, p.me, t);
    InPlace(s0, p.state, p.me, t);
  }

  lemma InPlace(s: State, s': State, me: Pid, t: TaskId)
    requires Stays(s, s', me, t)
    ensures me in s'.alive && t in s.tasks && t in s'.tasks && s'.tasks[t] == s.tasks[t]
    ensures MayAwait(s, t) ==> MayAwait(s', t)
    ensures NotLeaving(s, t) ==> NotLeaving(s', t)
  {
  }

  /** Under its own acquisition: every piece of work on either side of every await sees the same sentinel, and
      nothing is acquired or released, whatever else runs during the awaits. */
  method RunOwn(p: Process, t: TaskId, body: AsyncBody, ghost h: HoldId) returns (threw: bool)
    requires p.Calling(t) && MayAwait(p.state, t) && Carries(p.state, p.me, t, h)
    modifies p
    ensures p.Calling(t) && Stays(old(p.state), p.state, p.me, t)
    ensures MayAwait(p.state, t) && Carries(p.state, p.me, t, h)
    ensures threw == AsyncThrows(body)
    ensures |p.events| == |old(p.events)| + AsyncWorks(body) && p.events[..|old(p.events)|] == old(p.events)
    ensures forall i | |old(p.events)| <= i < |p.events| :: p.events[i] == Worked(Some(h))
    decreases body, 0
  {
    hide Inv, Stays, Enabled, Next, Active, Kept;
    CarriesHolds(p.state, p.me, t, h);
    match body {
      case Stretch(piece) =>
        ghost var s := p.state;
        var later;
        threw, later := p.RunBody(t, piece);
        KeptStays(s, p.state, p.me, t);
        CarriesStays(s, p.state, p.me, t, h);
      case Await =>
        ghost var s := p.state;
        AwaitTurn(p, t);
        CarriesStays(s, p.state, p.me, t, h);
        threw := false;
      case InTurn(first, second) =>
        ghost var s := p.state;
        threw := RunOwn(p, t, first, h);
        if !threw {
          ghost var s1 := p.state;
          threw := RunOwn(p, t, second, h);
          StaysTrans(s, s1, p.state, p.me, t);
        }
      case Again(inner) =>
        ghost var s := p.state;
        var outcome := WithMaintenanceStartBarrierAsync(p, t, inner, 0, false);
        threw := outcome == Threw;
        CarriesStays(s, p.state, p.me, t, h);
    }
  }

  /** A synchronous stretch in a context whose flag may have been cleared while its task waited: nested calls
      then acquire for themselves, and other work is on its own. */
  method RunBare(p: Process, t: TaskId, body: Body) returns (threw: bool, ghost did: seq<Event>)
    requires p.Calling(t)
    modifies p
    ensures p.Calling(t) && p.state.tasks[t] == old(p.state).tasks[t]
    ensures p.events == old(p.events) + did && BareTrace(body, did, threw)
    decreases body
  {
    hide Inv, Enabled, Next, Active, Kept;
    threw, did := false, [];
    match body {
      case Work =>
        ghost var s := p.state;
        p.Pause();
        KeptCalling(s, p.state, p.me, t);
        did := [Worked(p.state.sentinel)];
        p.events := p.events + did;
      case Throw =>
        threw := true;
      case Then(first, second) =>
        threw, did := RunBare(p, t, first);
        if !threw {
          ghost var more;
          threw, more := RunBare(p, t, second);
          ThenTrace(first, second, did, more, threw);
          did := did + more;
        }
      case Nested(inner) =>
        var outcome, _ := p.WithMaintenanceStartBarrier(t, inner, 0, false);
        threw := outcome != Ran;
        did := p.events[|old(p.events)|..];
      case Later(rest) =>
        ghost var s := p.state;
        var child := p.FreshTask();
        SpawnIsEnabled(p.state, t, child);
        p.Do(Spawn(t, child, false));
        SpawnKeeps(s, p.me, t, child);
        KeptCalling(s, p.state, p.me, t);
    }
  }

  lemma OwnOrLent(s: State, me: Pid, t: TaskId)
    requires Inv(s, false) && Runs(s, t) && s.tasks[t].pid == me
    ensures Active(s, s.tasks[t].store) ==> Lent(s, t) || Carries(s, me, t, s.tasks[t].store.value)
  {
    assert TaskOk(s, t);
  }

  lemma SpawnIsEnabled(s: State, t: TaskId, child: TaskId)
    requires Runs(s, t) && child !in s.tasks
    ensures Enabled(s, Spawn(t, child, false), false)
  {
  }

  /** In a context lent by another task, whose call may return during any await. */
  method RunLent(p: Process, t: TaskId, body: AsyncBody) returns (threw: bool, ghost did: seq<Event>)
    requires p.Calling(t) && MayAwait(p.state, t)
    modifies p
    ensures p.Calling(t) && MayAwait(p.state, t) && p.state.tasks[t] == old(p.state).tasks[t]
    ensures p.events == old(p.events) + did && LentTrace(body, did, threw)
    decreases body, 0
  {
    hide Inv, Enabled, Next, Active, Kept, Stays;
    threw, did := false, [];
    match body {
      case Stretch(piece) =>
        threw, did := RunBare(p, t, piece);
      case Await =>
        ghost var s := p.state;
        AwaitTurn(p, t);
        InPlace(s, p.state, p.me, t);
      case InTurn(first, second) =>
        threw, did := RunLent(p, t, first);
        if !threw {
          ghost var more;
          threw, more := RunLent(p, t, second);
          InTurnTrace(first, second, did, more, threw);
          did := did + more;
        }
      case Again(inner) =>
        OwnOrLent(p.state, p.me, t);
        var outcome := WithMaintenanceStartBarrierAsync(p, t, inner, 0, false);
        threw := outcome != Ran;
        did := p.events[|old(p.events)|..];
    }
  }

  /** Try, and while that fails wait and try again, until a deadline. Everything else runs during the waits. */
  method AcquireAsync(p: Process, t: TaskId, polls: nat, loses: bool) returns (hold: Option<HoldId>, ghost last: State)
    requires p.Calling(t) && MayAwait(p.state, t) && !Active(p.state, p.state.tasks[t].store)
    modifies p
    ensures hold.None? ==>
              && p.Calling(t) && MayAwait(p.state, t) && Stays(old(p.state), p.state, p.me, t)
              && p.events == old(p.events) && (loses || FoundBusyTimes(old(p.state), p.state, t, polls + 1))
    ensures hold.Some? ==>
              && p.Calling(t) && Entered(last, p.state, p.me, t, hold.value, false) && Runs(last, t)
              && Stays(old(p.state), last, p.me, t) && p.events == old(p.events) + [Acquired(hold.value)]
  {
    hide Inv, Stays, Enabled, Next, Active, Kept, Entered, Waited, Others, FoundTaken, FoundBusy;
    assert FoundBusyTimes(p.state, p.state, t, 0);
    StaysSelf(p.state, p.me, t);
    last := p.state;
    OthersNone(last, p.me);
    OthersWait(last, last, p.me, t);
    hold := p.TryAcquireMaintenanceBarrier(t, false, loses);
    if hold.None? {
      if !loses {
        TakenIsBusy(last, last, p.state, p.me, t);
        FoundBusyAgain(last, last, p.state, t, 0);
      }
      KeptStays(last, p.state, p.me, t);
      InPlace(last, p.state, p.me, t);
    }
    var left := polls;
    while hold.None? && left > 0
      invariant 0 <= left <= polls
      invariant hold.None? ==>
                  && p.Calling(t) && MayAwait(p.state, t) && Stays(old(p.state), p.state, p.me, t)
                  && p.events == old(p.events)
                  && (loses || FoundBusyTimes(old(p.state), p.state, t, polls - left + 1))
      invariant hold.Some? ==>
                  && p.Calling(t) && Entered(last, p.state, p.me, t, hold.value, false) && Runs(last, t)
                  && Stays(old(p.state), last, p.me, t) && p.events == old(p.events) + [Acquired(hold.value)]
    {
      ghost var s := p.state;
      AwaitTurn(p, t);
      StaysTrans(old(p.state), s, p.state, p.me, t);
      InPlace(old(p.state), p.state, p.me, t);
      StaysInactive(old(p.state), p.state, p.me, t);
      last := p.state;
      hold := p.TryAcquireMaintenanceBarrier(t, false, loses);
      if hold.None? {
        if !loses {
          TakenIsBusy(s, last, p.state, p.me, t);
          FoundBusyAgain(old(p.state), s, p.state, t, polls - left + 1);
        }
        KeptStays(last, p.state, p.me, t);
        StaysTrans(old(p.state), last, p.state, p.me, t);
        InPlace(last, p.state, p.me, t);
      }
      left := left - 1;
    }
  }

  /** Re-entrant by the flag. Otherwise: acquire, run, and on every way out clear the flag and then release. */
  method WithMaintenanceStartBarrierAsync(p: Process, t: TaskId, body: AsyncBody, polls: nat, loses: bool)
    returns (outcome: Outcome)
    requires p.Calling(t) && MayAwait(p.state, t)
    modifies p
    ensures p.Calling(t) && MayAwait(p.state, t) && p.state.tasks[t] == old(p.state).tasks[t]
    ensures |p.events| >= |old(p.events)| && p.events[..|old(p.events)|] == old(p.events)
    // Nested in a call of this task: nothing is acquired or released, and the flag stays set throughout.
    ensures forall h | Carries(old(p.state), p.me, t, h) ::
              && outcome == (if AsyncThrows(body) then Threw else Ran) && Stays(old(p.state), p.state, p.me, t)
              && |p.events| == |old(p.events)| + AsyncWorks(body)
              && forall i | |old(p.events)| <= i < |p.events| :: p.events[i] == Worked(Some(h))
    // Nested in a call of another task: run, but only as long as that call lasts under its flag.
    ensures Lent(old(p.state), t) ==>
              outcome != Busy && LentTrace(body, p.events[|old(p.events)|..], outcome == Threw)
    // Busy: the barrier was found taken at each try, and nothing happened but waiting.
    ensures outcome == Busy ==>
              p.events == old(p.events) && (loses || FoundBusyTimes(old(p.state), p.state, t, polls + 1))
    // Otherwise the barrier is acquired first and released last, and all work in between is under it.
    ensures !Active(old(p.state), old(p.state).tasks[t].store) && outcome != Busy ==>
              && outcome == (if AsyncThrows(body) then Threw else Ran)
              && |p.events| == |old(p.events)| + AsyncWorks(body) + 2 && p.events[|old(p.events)|].Acquired?
              && var h := p.events[|old(p.events)|].hold;
                 && h !in old(p.state).holds && h in p.state.holds
                 && p.events[|p.events| - 1] == Released(h)
                 && (forall i | |old(p.events)| < i < |p.events| - 1 :: p.events[i] == Worked(Some(h)))
                 && p.state.sentinel != Some(h) && !p.state.holds[h].active
    decreases body, 3
  {
    hide Inv, Stays, Enabled, Next, Active, Kept, Entered, FoundBusy, FoundBusyTimes;
    if Active(p.state, p.state.tasks[t].store) {
      outcome := RunNestedAsync(p, t, body);
      return;
    }
    forall h | Carries(p.state, p.me, t, h) ensures false {
      CarriesHolds(p.state, p.me, t, h);
    }
    var hold;
    ghost var last;
    hold, last := AcquireAsync(p, t, polls, loses);
    if hold.None? {
      InPlace(old(p.state), p.state, p.me, t);
      return Busy;
    }
    InPlace(old(p.state), last, p.me, t);
    KnownStays(old(p.state), last, p.me, t);
    outcome := RunAndReleaseAsync(p, last, t, body, hold.value);
  }

  lemma KnownStays(s: State, s': State, me: Pid, t: TaskId)
    requires Stays(s, s', me, t)
    ensures forall h | h in s.holds :: h in s'.holds
  {
  }

  /** Already under a flag: just run. */
  method RunNestedAsync(p: Process, t: TaskId, body: AsyncBody) returns (outcome: Outcome)
    requires p.Calling(t) && MayAwait(p.state, t) && Active(p.state, p.state.tasks[t].store)
    modifies p
    ensures p.Calling(t) && MayAwait(p.state, t) && p.state.tasks[t] == old(p.state).tasks[t] && outcome != Busy
    ensures |p.events| >= |old(p.events)| && p.events[..|old(p.events)|] == old(p.events)
    ensures forall h | Carries(old(p.state), p.me, t, h) ::
              && outcome == (if AsyncThrows(body) then Threw else Ran) && Stays(old(p.state), p.state, p.me, t)
              && |p.events| == |old(p.events)| + AsyncWorks(body)
              && forall i | |old(p.events)| <= i < |p.events| :: p.events[i] == Worked(Some(h))
    ensures Lent(old(p.state), t) ==> LentTrace(body, p.events[|old(p.events)|..], outcome == Threw)
    decreases body, 1
  {
    hide Inv, Stays, Enabled, Next, Active, Carries;
    ghost var s := p.state;
    EntersNested(s, p.me, t);
    p.Do(Enter(t, false));
    ghost var s1 := p.state;
    var h := p.state.tasks[t].store.value;
    var threw;
    if p.state.holds[h].task == t {
      threw := RunOwn(p, t, body, h);
      InPlace(s1, p.state, p.me, t);
    } else {
      ghost var did;
      threw, did := RunLent(p, t, body);
      assert p.events[|old(p.events)|..] == did;
    }
    outcome := if threw then Threw else Ran;
    LeavesNested(s, s1, p.state, p.me, t);
    p.Do(LeaveInner(t));
  }

  lemma EntersNested(s: State, me: Pid, t: TaskId)
    requires Inv(s, false) && Runs(s, t) && s.tasks[t].pid == me && NotLeaving(s, t) && MayAwait(s, t)
    requires Active(s, s.tasks[t].store)
    ensures Enabled(s, Enter(t, false), false)
    ensures var s' := Next(s, Enter(t, false), false);
            && Runs(s', t) && s'.tasks[t].pid == me && NotLeaving(s', t) && MayAwait(s', t)
            && s'.tasks[t].store == s.tasks[t].store && s'.tasks[t].store.Some? && s'.holds == s.holds
            && s'.tasks[t].store.value in s'.holds
            && (s'.holds[s'.tasks[t].store.value].task == t ==> Carries(s', me, t, s'.tasks[t].store.value))
            && (forall h | Carries(s, me, t, h) :: s'.tasks[t].store == Some(h) && s'.holds[h].task == t)
            && (Lent(s, t) ==> s'.holds[s'.tasks[t].store.value].task != t)
  {
    assert TaskOk(s, t);
  }

  lemma LeavesNested(s: State, s1: State, s2: State, me: Pid, t: TaskId)
    requires Runs(s, t) && s.tasks[t].pid == me && NotLeaving(s, t) && MayAwait(s, t)
    requires Enabled(s, Enter(t, false), false) && s1 == Next(s, Enter(t, false), false)
    requires Runs(s2, t) && s2.tasks[t] == s1.tasks[t]
    ensures Enabled(s2, LeaveInner(t), false)
    ensures var s3 := Next(s2, LeaveInner(t), false);
            && Runs(s3, t) && s3.tasks[t] == s.tasks[t] && NotLeaving(s3, t) && MayAwait(s3, t)
            && (Stays(s1, s2, me, t) ==> Stays(s, s3, me, t))
  {
    var stack := s.tasks[t].stack;
    assert (stack + [Inner(s.tasks[t].store.value, false)])[..|stack|] == stack;
  }

  /** Once acquired: run, and on every way out clear the flag and then release. `s` is the state in which the
      acquisition was tried. */
  method RunAndReleaseAsync(p: Process, ghost s: State, t: TaskId, body: AsyncBody, h: HoldId)
    returns (outcome: Outcome)
    requires p.Calling(t) && Entered(s, p.state, p.me, t, h, false)
    requires Runs(s, t) && s.tasks[t].pid == p.me && NotLeaving(s, t) && MayAwait(s, t)
    modifies p
    ensures p.Calling(t) && MayAwait(p.state, t) && p.state.tasks[t] == s.tasks[t]
    ensures outcome == if AsyncThrows(body) then Threw else Ran
    ensures |p.events| == |old(p.events)| + AsyncWorks(body) + 1 && p.events[..|old(p.events)|] == old(p.events)
    ensures p.events[|p.events| - 1] == Released(h)
    ensures forall i | |old(p.events)| <= i < |p.events| - 1 :: p.events[i] == Worked(Some(h))
    ensures h !in s.holds && h in p.state.holds && p.state.sentinel != Some(h) && !p.state.holds[h].active
    decreases body, 2
  {
    hide Inv, Stays, Enabled, Next, Active, Carries, Entered, Kept, GoingOut;
    EnteredCarries(s, p.state, p.me, t, h);
    ghost var s1 := p.state;
    var threw := RunOwn(p, t, body, h);
    outcome := if threw then Threw else Ran;
    InPlace(s1, p.state, p.me, t);
    ClearsFlag(s, s1, p.state, p.me, t, h);
    p.Do(Deactivate(t));
    ghost var s2 := p.state;
    p.Pause();
    StillGoingOut(s, s2, p.state, p.me, t, h);
    ReleasesAsync(s, p.state, p.me, t, h);
    p.Do(Release(t));
    p.events := p.events + [Released(h)];
  }

  lemma EnteredCarries(s: State, s': State, me: Pid, t: TaskId, h: HoldId)
    requires Entered(s, s', me, t, h, false) && MayAwait(s, t)
    ensures MayAwait(s', t) && Carries(s', me, t, h) && h !in s.holds
  {
  }

  /** Between clearing the flag and releasing. */
  ghost predicate GoingOut(s: State, s': State, me: Pid, t: TaskId, h: HoldId) {
    && t in s.tasks && Runs(s', t)
    && s'.tasks[t] == Task(me, Some(h), s.tasks[t].stack + [Releasing(h, false, s.tasks[t].store)])
    && h in s'.holds && !s'.holds[h].active && s'.holds[h].pid == me
  }

  lemma ClearsFlag(s: State, s1: State, s2: State, me: Pid, t: TaskId, h: HoldId)
    requires Entered(s, s1, me, t, h, false) && Runs(s2, t) && s2.tasks[t] == s1.tasks[t]
    requires Carries(s2, me, t, h)
    ensures Enabled(s2, Deactivate(t), false)
    ensures GoingOut(s, Next(s2, Deactivate(t), false), me, t, h)
  {
  }

  lemma StillGoingOut(s: State, s2: State, s3: State, me: Pid, t: TaskId, h: HoldId)
    requires GoingOut(s, s2, me, t, h) && Kept(s2, s3, me, {})
    ensures GoingOut(s, s3, me, t, h)
  {
  }

  lemma ReleasesAsync(s: State, s3: State, me: Pid, t: TaskId, h: HoldId)
    requires Runs(s, t) && s.tasks[t].pid == me && NotLeaving(s, t) && MayAwait(s, t)
    requires GoingOut(s, s3, me, t, h)
    ensures Enabled(s3, Release(t), false)
    ensures var s' := Next(s3, Release(t), false);
            && Runs(s', t) && s'.tasks[t] == s.tasks[t] && NotLeaving(s', t) && MayAwait(s', t)
            && s'.sentinel != Some(h) && h in s'.holds && !s'.holds[h].active
  {
    var stack := s.tasks[t].stack;
    assert (stack + [Releasing(h, false, s.tasks[t].store)])[..|stack|] == stack;
  }
}
