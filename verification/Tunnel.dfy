// One tunnel: the accept loop, its proxy tasks and any number of concurrent closers,
// racing over one handle registry and one counter. Each forwarded connection is a
// direct-tcpip channel (section 7.2 of RFC 4254).

module Tunnel {
  // Live: the proxy holds its guard. Dropped: guard released, own handle not yet
  // removed. Done: the task has ended.
  datatype Proxy = Live | Dropped | Done

  // Opening: a connection was accepted and its channel is being opened. Spawned: the
  // proxy runs but its handle is not yet in the registry.
  datatype Accept = Listening | Opening | Spawned(id: nat) | Inserted | Exited

  // A closer's progress through `close`, from the lock to its return.
  datatype Closer = Waiting | Locked | Cancelled | Joining | Joined | Draining(tasks: set<nat>) | Returned

  datatype State = State(
    accept: Accept,
    cancelled: bool,
    acceptTaken: bool,              // a closer has taken the accept task's handle
    nextId: nat,
    proxies: map<nat, Proxy>,
    handles: set<nat>,
    counter: int,
    lock: nat,                      // the closer holding the close lock, if lockHeld
    lockHeld: bool,
    closers: map<nat, Closer>,
    closed: bool)

  const Init := State(Listening, false, false, 0, map[], {}, 0, 0, false, map[], false)

  datatype Action =
    | AcceptConnection
    | ChannelOpened
    | ChannelFailed
    | InsertHandle
    | ReapAfterInsert
    | AcceptFailed
    | AcceptStops
    | ProxyEnds(id: nat)
    | ProxyRemovesHandle(id: nat)
    | Reap
    | CallClose(c: nat)
    | TakeLock(c: nat)
    | Cancel(c: nat)
    | TakeAcceptTask(c: nat)
    | JoinAccept(c: nat)
    | Drain(c: nat)
    | JoinTask(c: nat, id: nat)
    | FinishClose(c: nat)

  predicate Closing(s: State, c: nat, stage: Closer) {
    c in s.closers && s.closers[c] == stage
  }

  predicate Enabled(s: State, a: Action) {
    match a
    // A cancelled token does not outrun a connection that is already there.
    case AcceptConnection => s.accept.Listening?
    case ChannelOpened => s.accept.Opening?
    case ChannelFailed => s.accept.Opening?
    case InsertHandle => s.accept.Spawned?
    case ReapAfterInsert => s.accept.Inserted?
    case AcceptFailed => s.accept.Listening?
    case AcceptStops => s.accept.Listening? && s.cancelled
    case ProxyEnds(id) => id in s.proxies && s.proxies[id].Live?
    case ProxyRemovesHandle(id) => id in s.proxies && s.proxies[id].Dropped?
    case Reap => true
    case CallClose(c) => c !in s.closers
    case TakeLock(c) => Closing(s, c, Waiting) && !s.lockHeld
    case Cancel(c) => Closing(s, c, Locked)
    case TakeAcceptTask(c) => Closing(s, c, Cancelled)
    case JoinAccept(c) => Closing(s, c, Joining) && s.accept.Exited?
    case Drain(c) => Closing(s, c, Joined)
    case JoinTask(c, id) =>
      && c in s.closers && s.closers[c].Draining? && id in s.closers[c].tasks
      && (id in s.proxies ==> s.proxies[id].Done?)
    case FinishClose(c) => Closing(s, c, Draining({}))
  }

  function Reaped(s: State): set<nat> {
    set id | id in s.handles && !(id in s.proxies && s.proxies[id].Done?)
  }

  function Step(s: State, a: Action): State {
    if !Enabled(s, a) then s else
    match a
    case AcceptConnection => s.(accept := Opening)
    // The count goes up with the guard, before the task exists.
    case ChannelOpened =>
      s.(accept := Spawned(s.nextId), nextId := s.nextId + 1, proxies := s.proxies[s.nextId := Live],
         counter := s.counter + 1)
    case ChannelFailed => s.(accept := Exited)
    case InsertHandle => s.(accept := Inserted, handles := s.handles + {s.accept.id})
    case ReapAfterInsert => s.(accept := Listening, handles := Reaped(s))
    case AcceptFailed => s.(accept := Exited)
    case AcceptStops => s.(accept := Exited)
    case ProxyEnds(id) => s.(proxies := s.proxies[id := Dropped], counter := s.counter - 1)
    case ProxyRemovesHandle(id) => s.(proxies := s.proxies[id := Done], handles := s.handles - {id})
    case Reap => s.(handles := Reaped(s))
    case CallClose(c) => s.(closers := s.closers[c := Waiting])
    case TakeLock(c) => s.(closers := s.closers[c := Locked], lock := c, lockHeld := true)
    case Cancel(c) => s.(closers := s.closers[c := Cancelled], cancelled := true)
    // Only the first closer finds the task there to wait for.
    case TakeAcceptTask(c) =>
      s.(closers := s.closers[c := if s.acceptTaken then Joined else Joining], acceptTaken := true)
    case JoinAccept(c) => s.(closers := s.closers[c := Joined])
    case Drain(c) => s.(closers := s.closers[c := Draining(s.handles)], handles := {})
    case JoinTask(c, id) => s.(closers := s.closers[c := Draining(s.closers[c].tasks - {id})])
    case FinishClose(c) => s.(closers := s.closers[c := Returned], lockHeld := false, counter := 0, closed := true)
  }

  function Exec(s: State, run: seq<Action>): State
    decreases |run|
  {
    if run == [] then s else Exec(Step(s, run[0]), run[1..])
  }

  // ---------------------------------------------------------------- invariant

  function LiveGuards(s: State): set<nat> {
    set id | id in s.proxies && s.proxies[id].Live?
  }

  ghost predicate CounterInv(s: State) {
    && s.counter == |LiveGuards(s)|
    && (forall id | id in s.proxies :: id < s.nextId)
  }

  predicate PastCancel(stage: Closer) { !stage.Waiting? && !stage.Locked? }

  predicate Holds(stage: Closer) { !stage.Waiting? && !stage.Returned? }

  // One closer at a time is past the lock; once one is past joining, the accept loop
  // has exited.
  ghost predicate LockInv(s: State) {
    && (forall c | c in s.closers && Holds(s.closers[c]) :: s.lockHeld && s.lock == c)
    && (s.lockHeld ==> s.lock in s.closers && Holds(s.closers[s.lock]))
    && (forall c | c in s.closers && (s.closers[c].Joined? || s.closers[c].Draining? || s.closers[c].Returned?) ::
          s.accept.Exited?)
    && (forall c | c in s.closers && s.closers[c].Joining? :: s.acceptTaken)
    && (forall c | c in s.closers && PastCancel(s.closers[c]) :: s.cancelled)
    && (s.acceptTaken ==> s.accept.Exited? || (s.lockHeld && s.closers[s.lock].Joining?))
  }

  // Where the handle of a proxy that has not ended can be: in the registry, in the
  // hands of the draining closer, or still with the accept loop.
  ghost predicate Tracked(s: State, id: nat) {
    || id in s.handles
    || s.accept == Spawned(id)
    || (s.lockHeld && s.lock in s.closers && s.closers[s.lock].Draining? && id in s.closers[s.lock].tasks)
  }

  ghost predicate TrackedInv(s: State) {
    forall id | id in s.proxies && !s.proxies[id].Done? :: Tracked(s, id)
  }

  ghost predicate DrainedInv(s: State) {
    s.lockHeld && s.lock in s.closers && s.closers[s.lock].Draining? ==> s.handles == {}
  }

  // Once a close has returned, the tunnel is quiet for good.
  ghost predicate Quiet(s: State) {
    s.accept.Exited? && LiveGuards(s) == {}
  }

  ghost predicate QuietInv(s: State) {
    forall c | c in s.closers && s.closers[c].Returned? :: Quiet(s)
  }

  ghost predicate Inv(s: State) {
    CounterInv(s) && LockInv(s) && TrackedInv(s) && DrainedInv(s) && QuietInv(s)
  }

  // A closer about to return has joined every proxy there is.
  lemma NothingLeftToDrain(s: State, c: nat)
    requires LockInv(s) && TrackedInv(s) && DrainedInv(s) && Closing(s, c, Draining({}))
    ensures Quiet(s)
  {
    assert s.lockHeld && s.lock == c;
    forall id | id in s.proxies ensures !s.proxies[id].Live? {
      assert !Tracked(s, id);
    }
  }

  lemma GuardsChange(s: State, a: Action)
    requires Enabled(s, a)
    ensures a.ChannelOpened? ==> LiveGuards(Step(s, a)) == LiveGuards(s) + {s.nextId}
    ensures a.ProxyEnds? ==> LiveGuards(Step(s, a)) == LiveGuards(s) - {a.id}
    ensures !a.ChannelOpened? && !a.ProxyEnds? ==> LiveGuards(Step(s, a)) == LiveGuards(s)
  {
  }

  lemma StepKeepsCounter(s: State, a: Action)
    requires Inv(s)
    ensures CounterInv(Step(s, a))
  {
    if Enabled(s, a) {
      GuardsChange(s, a);
      if a.FinishClose? { NothingLeftToDrain(s, a.c); }
    }
  }

  lemma StepKeepsLock(s: State, a: Action)
    requires LockInv(s)
    ensures LockInv(Step(s, a))
  {
  }

  lemma StepKeepsTracked(s: State, a: Action)
    requires CounterInv(s) && LockInv(s) && TrackedInv(s) && DrainedInv(s)
    ensures TrackedInv(Step(s, a)) && DrainedInv(Step(s, a))
  {
    var t := Step(s, a);
    StepKeepsLock(s, a);
    forall id | id in t.proxies && !t.proxies[id].Done? ensures Tracked(t, id) {
      if id in s.proxies {
        assert !s.proxies[id].Done? && Tracked(s, id);
        if a.FinishClose? && Enabled(s, a) { assert s.lock == a.c; }
      }
    }
  }

  lemma StepKeepsQuiet(s: State, a: Action)
    requires Inv(s)
    ensures QuietInv(Step(s, a))
    ensures Quiet(s) ==> Quiet(Step(s, a))
  {
    if Quiet(s) { StaysQuiet(s, a); }
    if a.FinishClose? && Enabled(s, a) { NothingLeftToDrain(s, a.c); }
  }

  lemma StaysQuiet(s: State, a: Action)
    requires Quiet(s)
    ensures Quiet(Step(s, a))
  {
    if Enabled(s, a) {
      GuardsChange(s, a);
    }
  }

  lemma StepKeepsInv(s: State, a: Action)
    requires Inv(s)
    ensures Inv(Step(s, a))
    ensures Quiet(s) ==> Quiet(Step(s, a)) && Step(s, a).nextId == s.nextId
  {
    StepKeepsCounter(s, a);
    StepKeepsLock(s, a);
    StepKeepsTracked(s, a);
    StepKeepsQuiet(s, a);
  }

  lemma {:induction false} RunKeepsInv(s: State, run: seq<Action>)
    requires Inv(s)
    ensures Inv(Exec(s, run))
    ensures Quiet(s) ==> Quiet(Exec(s, run)) && Exec(s, run).nextId == s.nextId
    decreases |run|
  {
    if run != [] {
      StepKeepsInv(s, run[0]);
      RunKeepsInv(Step(s, run[0]), run[1..]);
    }
  }

  // At every step of every run the counter is the number of proxies holding a guard.
  lemma CounterCountsGuards(run: seq<Action>)
    ensures Exec(Init, run).counter == |LiveGuards(Exec(Init, run))|
  {
    RunKeepsInv(Init, run);
  }

  // When any close returns, no proxy is live, resetting the counter changes nothing,
  // and no later step registers a proxy or changes the counter.
  lemma CloseDrainsForGood(before: seq<Action>, after: seq<Action>, c: nat)
    requires Enabled(Exec(Init, before), FinishClose(c))
    ensures var s := Exec(Init, before);
            var t := Exec(Step(s, FinishClose(c)), after);
            && s.counter == 0 && Quiet(s)
            && t.counter == 0 && Quiet(t) && t.nextId == s.nextId
  {
    var s := Exec(Init, before);
    RunKeepsInv(Init, before);
    NothingLeftToDrain(s, c);
    StepKeepsInv(s, FinishClose(c));
    RunKeepsInv(Step(s, FinishClose(c)), after);
  }

  // ---------------------------------------------------------------- closing comes to an end

  lemma {:induction false} ExecAppend(s: State, first: seq<Action>, second: seq<Action>)
    ensures Exec(s, first + second) == Exec(Exec(s, first), second)
    decreases |first|
  {
    if first == [] {
      assert first + second == second;
    } else {
      assert (first + second)[1..] == first[1..] + second;
      ExecAppend(Step(s, first[0]), first[1..], second);
    }
  }

  lemma ExecOne(s: State, a: Action)
    ensures Exec(s, [a]) == Step(s, a)
  {
    assert [a][1..] == [];
    assert Exec(Step(s, a), []) == Step(s, a);
  }

  lemma Then(s: State, first: seq<Action>, a: Action)
    ensures Exec(s, first + [a]) == Step(Exec(s, first), a)
  {
    ExecAppend(s, first, [a]);
    ExecOne(Exec(s, first), a);
  }

  // Once the token is cancelled, the accept loop can come to an end by itself.
  lemma AcceptLoopEnds(s: State) returns (run: seq<Action>)
    requires s.cancelled
    ensures var t := Exec(s, run);
            && t.accept.Exited? && t.closers == s.closers && t.cancelled
            && t.lockHeld == s.lockHeld && t.lock == s.lock && t.acceptTaken == s.acceptTaken
  {
    run := [];
    if s.accept.Opening? {
      run := [ChannelFailed];
      ExecOne(s, ChannelFailed);
    } else if !s.accept.Exited? {
      var t := s;
      if s.accept.Spawned? {
        Then(s, run, InsertHandle);
        run, t := run + [InsertHandle], Step(t, InsertHandle);
      }
      if t.accept.Inserted? {
        Then(s, run, ReapAfterInsert);
        run, t := run + [ReapAfterInsert], Step(t, ReapAfterInsert);
      }
      Then(s, run, AcceptStops);
      run := run + [AcceptStops];
    }
  }

  // So a closer waiting for the loop can go on, from every reachable state.
  lemma JoiningCanGoOn(before: seq<Action>, c: nat) returns (run: seq<Action>)
    requires Closing(Exec(Init, before), c, Joining)
    ensures Enabled(Exec(Exec(Init, before), run), JoinAccept(c))
  {
    RunKeepsInv(Init, before);
    run := AcceptLoopEnds(Exec(Init, before));
  }

  // A proxy task ends.
  lemma ProxyCanEnd(s: State, id: nat) returns (run: seq<Action>)
    ensures var t := Exec(s, run);
            && (id in t.proxies ==> t.proxies[id].Done?)
            && t.closers == s.closers && t.lockHeld == s.lockHeld && t.lock == s.lock
  {
    run := [];
    var t := s;
    if id in t.proxies && t.proxies[id].Live? {
      Then(s, run, ProxyEnds(id));
      run, t := run + [ProxyEnds(id)], Step(t, ProxyEnds(id));
    }
    if id in t.proxies && t.proxies[id].Dropped? {
      Then(s, run, ProxyRemovesHandle(id));
      run, t := run + [ProxyRemovesHandle(id)], Step(t, ProxyRemovesHandle(id));
    }
  }

  lemma {:induction false} DrainEnds(s: State, c: nat, tasks: set<nat>) returns (run: seq<Action>)
    requires Closing(s, c, Draining(tasks))
    ensures Closing(Exec(s, run), c, Returned) && !Exec(s, run).lockHeld
    ensures forall d | d in s.closers && d != c :: Closing(Exec(s, run), d, s.closers[d])
    decreases tasks
  {
    if tasks == {} {
      run := [FinishClose(c)];
      ExecOne(s, FinishClose(c));
    } else {
      var id :| id in tasks;
      var first := ProxyCanEnd(s, id);
      var t := Exec(s, first);
      Then(s, first, JoinTask(c, id));
      var u := Step(t, JoinTask(c, id));
      var rest := DrainEnds(u, c, tasks - {id});
      ExecAppend(s, first + [JoinTask(c, id)], rest);
      run := first + [JoinTask(c, id)] + rest;
      forall d | d in s.closers && d != c ensures Closing(Exec(s, run), d, s.closers[d]) {
        assert d in u.closers && u.closers[d] == s.closers[d];
      }
    }
  }

  // A closer past the lock can return.
  lemma HolderCanReturn(s: State, c: nat) returns (run: seq<Action>)
    requires Inv(s) && c in s.closers && Holds(s.closers[c])
    ensures Closing(Exec(s, run), c, Returned) && !Exec(s, run).lockHeld
    ensures forall d | d in s.closers && d != c :: Closing(Exec(s, run), d, s.closers[d])
    decreases match s.closers[c] case Locked => 4 case Cancelled => 3 case Joining => 2 case Joined => 1 case _ => 0
  {
    match s.closers[c]
    case Locked => run := OneStepCloser(s, c, Cancel(c));
    case Cancelled => run := OneStepCloser(s, c, TakeAcceptTask(c));
    case Joining =>
      var first := AcceptLoopEnds(s);
      var t := Exec(s, first);
      RunKeepsInv(s, first);
      var rest := OneStepCloser(t, c, JoinAccept(c));
      ExecAppend(s, first, rest);
      run := first + rest;
    case Joined => run := OneStepCloser(s, c, Drain(c));
    case Draining(tasks) => run := DrainEnds(s, c, tasks);
  }

  lemma OneStepCloser(s: State, c: nat, a: Action) returns (run: seq<Action>)
    requires Inv(s) && c in s.closers && Enabled(s, a)
    requires || (a == Cancel(c) && s.closers[c].Locked?) || (a == TakeAcceptTask(c) && s.closers[c] == Closer.Cancelled)
             || (a == JoinAccept(c) && s.closers[c].Joining?) || (a == Drain(c) && s.closers[c].Joined?)
    ensures Closing(Exec(s, run), c, Returned) && !Exec(s, run).lockHeld
    ensures forall d | d in s.closers && d != c :: Closing(Exec(s, run), d, s.closers[d])
    decreases match s.closers[c] case Locked => 4 case Cancelled => 3 case Joining => 2 case Joined => 1 case _ => 0, 0
  {
    StepKeepsInv(s, a);
    var t := Step(s, a);
    var rest := HolderCanReturn(t, c);
    ExecOne(s, a);
    ExecAppend(s, [a], rest);
    run := [a] + rest;
    forall d | d in s.closers && d != c ensures Closing(Exec(s, run), d, s.closers[d]) {
      assert d in t.closers && t.closers[d] == s.closers[d];
    }
  }

  // No close waits for ever: from every reachable state, a run leads any pending close to its
  // return, after the close that holds the lock if another does.
  lemma CloseCanReturn(before: seq<Action>, c: nat) returns (run: seq<Action>)
    requires c in Exec(Init, before).closers
    ensures Closing(Exec(Exec(Init, before), run), c, Returned)
  {
    var s := Exec(Init, before);
    RunKeepsInv(Init, before);
    run := [];
    if Holds(s.closers[c]) {
      run := HolderCanReturn(s, c);
    } else if s.closers[c].Waiting? {
      var first: seq<Action> := [];
      if s.lockHeld { first := HolderCanReturn(s, s.lock); }
      RunKeepsInv(s, first);
      Then(s, first, TakeLock(c));
      var t := Step(Exec(s, first), TakeLock(c));
      StepKeepsInv(Exec(s, first), TakeLock(c));
      var rest := HolderCanReturn(t, c);
      ExecAppend(s, first + [TakeLock(c)], rest);
      run := first + [TakeLock(c)] + rest;
    }
  }

  // Also a close that is only now called for.
  lemma NewCloseCanReturn(before: seq<Action>, c: nat) returns (run: seq<Action>)
    requires c !in Exec(Init, before).closers
    ensures Closing(Exec(Step(Exec(Init, before), CallClose(c)), run), c, Returned)
  {
    Then(Init, before, CallClose(c));
    run := CloseCanReturn(before + [CallClose(c)], c);
  }

  // ---------------------------------------------------------------- while it is open

  // A listening tunnel can take a connection: counted, live and in the registry.
  lemma ConnectionCanBeServed(before: seq<Action>) returns (run: seq<Action>)
    requires Exec(Init, before).accept.Listening?
    ensures var s, t := Exec(Init, before), Exec(Exec(Init, before), run);
            && s.nextId in t.proxies && t.proxies[s.nextId].Live? && s.nextId in t.handles
            && t.counter == s.counter + 1 && t.accept.Listening?
  {
    var s := Exec(Init, before);
    RunKeepsInv(Init, before);
    run := [AcceptConnection] + [ChannelOpened] + [InsertHandle] + [ReapAfterInsert];
    ExecOne(s, AcceptConnection);
    Then(s, [AcceptConnection], ChannelOpened);
    Then(s, [AcceptConnection] + [ChannelOpened], InsertHandle);
    Then(s, [AcceptConnection] + [ChannelOpened] + [InsertHandle], ReapAfterInsert);
  }

  // Reaping, by itself or after an insertion, leaves exactly the handles of unfinished proxies;
  // a proxy's own last step leaves none of its own.
  lemma ReapedIs(s: State, a: Action, id: nat)
    requires Enabled(s, a)
    ensures a.Reap? || a.ReapAfterInsert? ==>
            (id in Step(s, a).handles <==> id in s.handles && (id in s.proxies ==> !s.proxies[id].Done?))
    ensures a.ProxyRemovesHandle? && a.id == id ==> id !in Step(s, a).handles
    ensures a.ProxyRemovesHandle? && a.id != id ==> (id in Step(s, a).handles <==> id in s.handles)
  {
  }

  // The accept loop ends for a reason only: cancelled, a channel refused, or accept failed. And
  // for each of these it does.
  lemma {:induction false} LoopEndsForAReason(s: State, run: seq<Action>)
    requires s.accept.Exited? ==> s.cancelled
    ensures Exec(s, run).accept.Exited? ==>
            Exec(s, run).cancelled || exists k | 0 <= k < |run| :: run[k].ChannelFailed? || run[k].AcceptFailed?
    decreases |run|
  {
    if run != [] && !run[0].ChannelFailed? && !run[0].AcceptFailed? {
      CancelledStays(Step(s, run[0]), run[1..]);
      LoopEndsForAReason(Step(s, run[0]), run[1..]);
      if k :| 0 <= k < |run[1..]| && (run[1..][k].ChannelFailed? || run[1..][k].AcceptFailed?) {
        assert run[k + 1] == run[1..][k];
      }
    }
  }

  lemma {:induction false} CancelledStays(s: State, run: seq<Action>)
    ensures s.cancelled ==> Exec(s, run).cancelled
    decreases |run|
  {
    if run != [] { CancelledStays(Step(s, run[0]), run[1..]); }
  }

  lemma ReasonsEndTheLoop(s: State, a: Action)
    requires Enabled(s, a) && (a.ChannelFailed? || a.AcceptFailed? || a.AcceptStops?)
    ensures Step(s, a).accept.Exited?
  {
  }

  // Once a close has returned the tunnel is marked closed, for good.
  lemma {:induction false} ReturnedIsClosed(s: State, run: seq<Action>)
    requires forall c | c in s.closers && s.closers[c].Returned? :: s.closed
    ensures forall c | c in Exec(s, run).closers && Exec(s, run).closers[c].Returned? :: Exec(s, run).closed
    decreases |run|
  {
    if run != [] { ReturnedIsClosed(Step(s, run[0]), run[1..]); }
  }

  lemma CounterAlreadyZero(s: State, c: nat)
    requires Closing(s, c, Draining({}))
    ensures Inv(s) ==> s.counter == 0
  {
    if Inv(s) { NothingLeftToDrain(s, c); }
  }

  // ---------------------------------------------------------------- the runtime

  // The same critical sections on the runtime's own fields.
  class TunnelRuntime {
    var accept: Accept
    var token: bool
    var acceptTaskTaken: bool
    var nextConn: nat
    var proxies: map<nat, Proxy>
    var connections: set<nat>
    var activeConnections: int
    var closeLock: nat
    var closeLocked: bool
    var closers: map<nat, Closer>
    var closed: bool

    ghost function View(): State
      reads this
    {
      State(accept, token, acceptTaskTaken, nextConn, proxies, connections, activeConnections,
            closeLock, closeLocked, closers, closed)
    }

    constructor ()
      ensures View() == Init
    {
      accept, token, acceptTaskTaken, nextConn, proxies := Listening, false, false, 0, map[];
      connections, activeConnections, closeLock, closeLocked := {}, 0, 0, false;
      closers, closed := map[], false;
    }

    // `reap_finished_connections`
    method ReapFinishedConnections()
      modifies this`connections
      ensures View() == Step(old(View()), Reap)
    {
      connections := set id | id in connections && !(id in proxies && proxies[id].Done?);
    }

    // The accept loop after a channel opened: count, guard, spawn.
    method SpawnProxy() returns (id: nat)
      requires accept.Opening?
      modifies this
      ensures View() == Step(old(View()), ChannelOpened) && accept == Spawned(id)
    {
      id := nextConn;
      nextConn := nextConn + 1;
      activeConnections := activeConnections + 1;
      proxies := proxies[id := Live];
      accept := Spawned(id);
    }

    method InsertConnection()
      requires accept.Spawned?
      modifies this
      ensures View() == Step(Step(old(View()), InsertHandle), ReapAfterInsert)
    {
      connections := connections + {accept.id};
      accept := Inserted;
      connections := set id | id in connections && !(id in proxies && proxies[id].Done?);
      accept := Listening;
    }

    // A proxy task's last steps: the guard's drop, then its own handle.
    method DropGuard(id: nat)
      requires id in proxies && proxies[id].Live?
      modifies this
      ensures View() == Step(old(View()), ProxyEnds(id))
    {
      activeConnections := activeConnections - 1;
      proxies := proxies[id := Dropped];
    }

    method RemoveOwnHandle(id: nat)
      requires id in proxies && proxies[id].Dropped?
      modifies this
      ensures View() == Step(old(View()), ProxyRemovesHandle(id))
    {
      connections := connections - {id};
      proxies := proxies[id := Done];
    }

    // `close` up to its first wait: cancel, then take the accept task if it is there.
    method BeginClose(c: nat) returns (mustJoin: bool)
      requires Closing(View(), c, Locked)
      modifies this
      ensures View() == Step(Step(old(View()), Cancel(c)), TakeAcceptTask(c))
      ensures token && mustJoin == !old(acceptTaskTaken)
    {
      token := true;
      mustJoin := !acceptTaskTaken;
      acceptTaskTaken := true;
      closers := closers[c := if mustJoin then Joining else Joined];
    }

    // `close` once the accept loop is over: take every handle there is.
    method DrainConnections(c: nat) returns (tasks: set<nat>)
      requires Closing(View(), c, Joined)
      modifies this
      ensures View() == Step(old(View()), Drain(c))
      ensures tasks == old(connections) && connections == {}
    {
      tasks := connections;
      connections := {};
      closers := closers[c := Draining(tasks)];
    }

    method EndClose(c: nat)
      requires Closing(View(), c, Draining({}))
      modifies this
      ensures View() == Step(old(View()), FinishClose(c))
      ensures Inv(old(View())) ==> activeConnections == old(activeConnections)
    {
      CounterAlreadyZero(View(), c);
      activeConnections := 0;
      closed := true;
      closers := closers[c := Returned];
      closeLocked := false;
    }
  }
}
