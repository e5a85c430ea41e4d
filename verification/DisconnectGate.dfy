// Per-workstation teardown: a chain of promises per host, with the tail remembered.
//
// Promises settle (either way) in later microtasks; each action is one callback.

module DisconnectGate {
  import opened Options

  type Host = string

  // Waiting: for the earlier operation. Blocked: for the connect it was chained to.
  datatype Phase = Waiting | Blocked | Running | Settled

  // `earlier` is the promise chained to, `connect` the connect waited for first.
  datatype Op = Op(host: Host, earlier: Option<nat>, connect: Option<nat>, phase: Phase)

  datatype State = State(
    ops: seq<Op>,                   // every operation ever enqueued, in order
    pending: map<Host, nat>,        // the tail of each host's chain
    connects: map<Host, nat>,       // the connect in flight for each host
    settledConnects: set<nat>,
    startedConnects: nat)

  const Init := State([], map[], map[], {}, 0)

  datatype Action =
    | Enqueue(host: Host)
    | EnqueueAfterConnect(host: Host)
    | TrackConnect(host: Host)
    | Start(i: nat)
    | Unblock(i: nat)
    | Settle(i: nat)
    | Release(i: nat)
    | SettleConnect(c: nat)
    | ReleaseConnect(host: Host, c: nat)

  function Tail(s: State, host: Host): Option<nat> {
    if host in s.pending then Some(s.pending[host]) else None
  }

  predicate IsSettled(s: State, i: nat) {
    i < |s.ops| && s.ops[i].phase.Settled?
  }

  predicate Enabled(s: State, a: Action) {
    match a
    case Start(i) =>
      && i < |s.ops| && s.ops[i].phase.Waiting?
      && (s.ops[i].earlier.Some? ==> IsSettled(s, s.ops[i].earlier.value))
    case Unblock(i) =>
      && i < |s.ops| && s.ops[i].phase.Blocked?
      && s.ops[i].connect.Some? && s.ops[i].connect.value in s.settledConnects
    // Resolved or rejected: the chain goes on either way.
    case Settle(i) => i < |s.ops| && s.ops[i].phase.Running?
    case Release(i) => IsSettled(s, i)
    case SettleConnect(c) => c < s.startedConnects
    case ReleaseConnect(_, c) => c in s.settledConnects
    case _ => true
  }

  function Enqueued(s: State, host: Host, connect: Option<nat>): State {
    s.(ops := s.ops + [Op(host, Tail(s, host), connect, Waiting)], pending := s.pending[host := |s.ops|])
  }

  function Step(s: State, a: Action): State {
    if !Enabled(s, a) then s else
    match a
    case Enqueue(host) => Enqueued(s, host, None)
    case EnqueueAfterConnect(host) =>
      Enqueued(s, host, if host in s.connects then Some(s.connects[host]) else None)
    case TrackConnect(host) =>
      s.(connects := s.connects[host := s.startedConnects], startedConnects := s.startedConnects + 1)
    case Start(i) => s.(ops := s.ops[i := s.ops[i].(phase := if s.ops[i].connect.Some? then Blocked else Running)])
    case Unblock(i) => s.(ops := s.ops[i := s.ops[i].(phase := Running)])
    case Settle(i) => s.(ops := s.ops[i := s.ops[i].(phase := Settled)])
    // Only the tail clears the entry: a later operation may have replaced it.
    case Release(i) => if Tail(s, s.ops[i].host) == Some(i) then s.(pending := s.pending - {s.ops[i].host}) else s
    case SettleConnect(c) => s.(settledConnects := s.settledConnects + {c})
    case ReleaseConnect(host, c) =>
      if host in s.connects && s.connects[host] == c then s.(connects := s.connects - {host}) else s
  }

  function Exec(s: State, run: seq<Action>): State
    decreases |run|
  {
    if run == [] then s else Exec(Step(s, run[0]), run[1..])
  }

  // ---------------------------------------------------------------- invariant

  ghost predicate AllSettledBefore(s: State, host: Host, n: nat) {
    forall k | 0 <= k < n && k < |s.ops| && s.ops[k].host == host :: s.ops[k].phase.Settled?
  }

  // An operation chains to the one before it on its host; without one, all before it
  // had settled. So once it has started, all of them have.
  ghost predicate ChainInv(s: State) {
    forall i | 0 <= i < |s.ops| ::
      match s.ops[i].earlier
      case None => AllSettledBefore(s, s.ops[i].host, i)
      case Some(e) =>
        && e < i && s.ops[e].host == s.ops[i].host
        && (forall k | e < k < i :: s.ops[k].host != s.ops[i].host)
        && (!s.ops[i].phase.Waiting? ==> s.ops[e].phase.Settled?)
  }

  ghost predicate StartedInv(s: State) {
    forall i | 0 <= i < |s.ops| && !s.ops[i].phase.Waiting? :: AllSettledBefore(s, s.ops[i].host, i)
  }

  // The entry is the last operation of its host.
  ghost predicate TailIsLast(s: State) {
    forall host | host in s.pending ::
      && s.pending[host] < |s.ops| && s.ops[s.pending[host]].host == host
      && forall k | s.pending[host] < k < |s.ops| :: s.ops[k].host != host
  }

  // It is missing only when all of its host's operations have settled.
  ghost predicate MissingMeansSettled(s: State) {
    forall k | 0 <= k < |s.ops| && s.ops[k].host !in s.pending :: s.ops[k].phase.Settled?
  }

  ghost predicate ConnectInv(s: State) {
    forall i | 0 <= i < |s.ops| && (s.ops[i].phase.Running? || s.ops[i].phase.Settled?) && s.ops[i].connect.Some? ::
      s.ops[i].connect.value in s.settledConnects
  }

  ghost predicate Inv(s: State) {
    ChainInv(s) && StartedInv(s) && TailIsLast(s) && MissingMeansSettled(s) && ConnectInv(s)
  }

  // Operations stay, and settled ones stay settled.
  lemma OpsStay(s: State, a: Action)
    ensures var t := Step(s, a);
            && |s.ops| <= |t.ops|
            && forall k | 0 <= k < |s.ops| ::
                 && t.ops[k].host == s.ops[k].host && t.ops[k].earlier == s.ops[k].earlier
                 && t.ops[k].connect == s.ops[k].connect
                 && (s.ops[k].phase.Settled? ==> t.ops[k].phase.Settled?)
                 && (t.ops[k].phase.Waiting? ==> s.ops[k].phase.Waiting?)
  {
  }

  lemma StepKeepsChain(s: State, a: Action)
    requires ChainInv(s) && TailIsLast(s) && MissingMeansSettled(s)
    ensures ChainInv(Step(s, a))
  {
    OpsStay(s, a);
    if a.Enqueue? || a.EnqueueAfterConnect? {
      var connect := Step(s, a).ops[|s.ops|].connect;
      EnqueueKeepsChain(s, a.host, connect);
    } else {
      assert |Step(s, a).ops| == |s.ops|;
    }
  }

  lemma EnqueueKeepsChain(s: State, host: Host, connect: Option<nat>)
    requires ChainInv(s) && TailIsLast(s) && MissingMeansSettled(s)
    ensures ChainInv(Enqueued(s, host, connect))
  {
  }

  lemma StepKeepsStarted(s: State, a: Action)
    requires Inv(s)
    ensures StartedInv(Step(s, a))
  {
    var t := Step(s, a);
    OpsStay(s, a);
    forall i | 0 <= i < |t.ops| && !t.ops[i].phase.Waiting? ensures AllSettledBefore(t, t.ops[i].host, i) {
      assert i < |s.ops|;
      if s.ops[i].phase.Waiting? {
        StartableMeansAllSettled(s, i);
      } else {
        assert AllSettledBefore(s, s.ops[i].host, i);
      }
    }
  }

  // The earlier operation has settled, hence had started, hence all before it had settled.
  lemma StartableMeansAllSettled(s: State, i: nat)
    requires ChainInv(s) && StartedInv(s) && Enabled(s, Start(i))
    ensures AllSettledBefore(s, s.ops[i].host, i)
  {
    if s.ops[i].earlier.Some? {
      var e := s.ops[i].earlier.value;
      assert AllSettledBefore(s, s.ops[e].host, e);
    }
  }

  lemma StepKeepsTail(s: State, a: Action)
    requires TailIsLast(s)
    ensures TailIsLast(Step(s, a))
  {
    OpsStay(s, a);
  }

  lemma StepKeepsMissing(s: State, a: Action)
    requires TailIsLast(s) && MissingMeansSettled(s) && StartedInv(s)
    ensures MissingMeansSettled(Step(s, a))
  {
    OpsStay(s, a);
    if a.Release? && Enabled(s, a) {
      assert AllSettledBefore(s, s.ops[a.i].host, a.i);
    }
  }

  lemma StepKeepsConnect(s: State, a: Action)
    requires ConnectInv(s)
    ensures ConnectInv(Step(s, a))
  {
  }

  lemma {:induction false} RunKeepsInv(s: State, run: seq<Action>)
    requires Inv(s)
    ensures Inv(Exec(s, run))
    decreases |run|
  {
    if run != [] {
      StepKeepsChain(s, run[0]);
      StepKeepsStarted(s, run[0]);
      StepKeepsTail(s, run[0]);
      StepKeepsMissing(s, run[0]);
      StepKeepsConnect(s, run[0]);
      RunKeepsInv(Step(s, run[0]), run[1..]);
    }
  }

  // ---------------------------------------------------------------- what callers get

  // One at a time, in enqueue order, whatever rejected: when an operation runs, every
  // earlier one of its host has settled, and so has the connect it was enqueued behind.
  lemma OneAtATimeInOrder(run: seq<Action>, i: nat)
    requires var s := Exec(Init, run); i < |s.ops| && s.ops[i].phase.Running?
    ensures var s := Exec(Init, run);
            && AllSettledBefore(s, s.ops[i].host, i)
            && (forall j | 0 <= j < |s.ops| && s.ops[j].host == s.ops[i].host && j != i :: !s.ops[j].phase.Running?)
            && (s.ops[i].connect.Some? ==> s.ops[i].connect.value in s.settledConnects)
  {
    RunKeepsInv(Init, run);
    var s := Exec(Init, run);
    assert AllSettledBefore(s, s.ops[i].host, i);
    forall j | 0 <= j < |s.ops| && s.ops[j].host == s.ops[i].host && j != i ensures !s.ops[j].phase.Running? {
      assert !s.ops[j].phase.Waiting? ==> AllSettledBefore(s, s.ops[j].host, j);
    }
  }

  // `awaitPending` covers every operation enqueued so far: without an entry all have
  // settled, and once the entry's promise has settled they all have.
  lemma AwaitPendingCoversAll(run: seq<Action>, later: seq<Action>, host: Host)
    ensures var s := Exec(Init, run);
            match Tail(s, host)
            case None => AllSettledBefore(s, host, |s.ops|)
            case Some(tail) =>
              var t := Exec(s, later);
              && tail < |s.ops| <= |t.ops|
              && (IsSettled(t, tail) ==> AllSettledBefore(t, host, |s.ops|))
  {
    RunKeepsInv(Init, run);
    var s := Exec(Init, run);
    if host in s.pending {
      RunKeepsInv(s, later);
      RunKeepsOps(s, later);
      TailCovers(s, Exec(s, later), host);
    }
  }

  lemma TailCovers(s: State, t: State, host: Host)
    requires TailIsLast(s) && StartedInv(t) && host in s.pending && |s.ops| <= |t.ops|
    requires forall k | 0 <= k < |s.ops| :: t.ops[k].host == s.ops[k].host
    ensures IsSettled(t, s.pending[host]) ==> AllSettledBefore(t, host, |s.ops|)
  {
    var tail := s.pending[host];
    if IsSettled(t, tail) {
      assert AllSettledBefore(t, t.ops[tail].host, tail);
      forall k | 0 <= k < |s.ops| && t.ops[k].host == host ensures t.ops[k].phase.Settled? {
        assert s.ops[k].host == host;
      }
    }
  }

  lemma {:induction false} RunKeepsOps(s: State, run: seq<Action>)
    ensures var t := Exec(s, run);
            |s.ops| <= |t.ops| && forall k | 0 <= k < |s.ops| ::
                t.ops[k].host == s.ops[k].host && t.ops[k].connect == s.ops[k].connect
                && t.ops[k].earlier == s.ops[k].earlier
    decreases |run|
  {
    if run != [] {
      OpsStay(s, run[0]);
      RunKeepsOps(Step(s, run[0]), run[1..]);
    }
  }

  // A tracked connect is remembered until a newer one of its host replaces it or it settles.
  lemma {:induction false} TrackedStays(s: State, run: seq<Action>, host: Host, c: nat)
    requires (host in s.connects && s.connects[host] == c) || c in s.settledConnects
    requires forall k | 0 <= k < |run| :: run[k] != TrackConnect(host)
    ensures var t := Exec(s, run); (host in t.connects && t.connects[host] == c) || c in t.settledConnects
    decreases |run|
  {
    if run != [] {
      assert forall k | 0 <= k < |run[1..]| :: run[1..][k] == run[k + 1];
      TrackedStays(Step(s, run[0]), run[1..], host, c);
    }
  }

  lemma {:induction false} SettledStay(s: State, run: seq<Action>)
    ensures s.settledConnects <= Exec(s, run).settledConnects
    decreases |run|
  {
    if run != [] { SettledStay(Step(s, run[0]), run[1..]); }
  }

  // A teardown runs only after the newest connect its host had when it was enqueued has
  // settled, whatever happens before, in between and afterwards.
  lemma TeardownWaitsForTrackedConnect(before: seq<Action>, host: Host, between: seq<Action>, after: seq<Action>)
    requires forall k | 0 <= k < |between| :: between[k] != TrackConnect(host)
    ensures var s := Exec(Init, before);
            var t := Exec(Step(s, TrackConnect(host)), between);
            var u := Exec(Step(t, EnqueueAfterConnect(host)), after);
            && s.startedConnects !in s.settledConnects && s.startedConnects !in s.connects.Values
            && |t.ops| < |u.ops| && u.ops[|t.ops|].host == host
            && (u.ops[|t.ops|].phase.Running? || u.ops[|t.ops|].phase.Settled? ==>
                s.startedConnects in u.settledConnects)
  {
    var s := Exec(Init, before);
    var tracked := Step(s, TrackConnect(host));
    var t := Exec(tracked, between);
    RunKeepsInv(Init, before);
    RunKeepsKnown(Init, before);
    OneStepKeepsInv(s, TrackConnect(host));
    RunKeepsInv(tracked, between);
    TrackedStays(tracked, between, host, s.startedConnects);
    OneStepKeepsInv(t, EnqueueAfterConnect(host));
    var enqueued := Step(t, EnqueueAfterConnect(host));
    RunKeepsInv(enqueued, after);
    RunKeepsOps(enqueued, after);
    SettledStay(enqueued, after);
  }

  lemma OneStepKeepsInv(s: State, a: Action)
    requires Inv(s)
    ensures Inv(Step(s, a))
  {
    assert [a][1..] == [];
    assert Exec(Step(s, a), []) == Step(s, a);
    RunKeepsInv(s, [a]);
  }

  // Connects are numbered as they are tracked; what is blocked is blocked by one.
  ghost predicate KnownInv(s: State) {
    && (forall c | c in s.settledConnects :: c < s.startedConnects)
    && (forall host | host in s.connects :: s.connects[host] < s.startedConnects)
    && (forall i | 0 <= i < |s.ops| && s.ops[i].connect.Some? :: s.ops[i].connect.value < s.startedConnects)
    && (forall i | 0 <= i < |s.ops| && s.ops[i].phase.Blocked? :: s.ops[i].connect.Some?)
  }

  lemma {:induction false} RunKeepsKnown(s: State, run: seq<Action>)
    requires KnownInv(s)
    ensures KnownInv(Exec(s, run))
    decreases |run|
  {
    if run != [] { RunKeepsKnown(Step(s, run[0]), run[1..]); }
  }

  // ---------------------------------------------------------------- nothing waits for ever

  lemma {:induction false} ExecAppend(s: State, first: seq<Action>, second: seq<Action>)
    ensures Exec(s, first + second) == Exec(Exec(s, first), second)
    decreases |first|
  {
    if first == [] {
      assert first + second == second;
    } else {
      assert (first + second)[1..] == first[1..] + second;
      ExecAppend(Step(s, first[0]), first[1..], second);
    }
  }

  lemma Then(s: State, first: seq<Action>, a: Action)
    ensures Exec(s, first + [a]) == Step(Exec(s, first), a)
  {
    ExecAppend(s, first, [a]);
    var t := Exec(s, first);
    assert [a][1..] == [];
    assert Exec(t, [a]) == Exec(Step(t, a), []) == Step(t, a);
  }

  // Nothing was enqueued, tracked or released in between.
  ghost predicate SameEntries(s: State, t: State) {
    |t.ops| == |s.ops| && t.pending == s.pending && t.connects == s.connects && t.startedConnects == s.startedConnects
  }

  ghost predicate Ready(s: State, i: nat) {
    i < |s.ops| && (s.ops[i].phase.Waiting? && s.ops[i].earlier.Some? ==> IsSettled(s, s.ops[i].earlier.value))
  }

  lemma EarlierSettled(s: State, run: seq<Action>, i: nat)
    requires i < |s.ops| && s.ops[i].earlier.Some? && IsSettled(Exec(s, run), s.ops[i].earlier.value)
    ensures Ready(Exec(s, run), i)
  {
    RunKeepsOps(s, run);
  }

  // Every operation comes to its end once its host's earlier ones and its connect do.
  lemma {:induction false} CanSettle(s: State, i: nat) returns (run: seq<Action>)
    requires ChainInv(s) && KnownInv(s) && i < |s.ops|
    ensures IsSettled(Exec(s, run), i) && SameEntries(s, Exec(s, run))
    decreases i
  {
    run := [];
    if s.ops[i].phase.Waiting? && s.ops[i].earlier.Some? {
      run := CanSettle(s, s.ops[i].earlier.value);
      EarlierSettled(s, run, i);
    }
    RunKeepsKnown(s, run);
    var last := Finishes(Exec(s, run), i);
    ExecAppend(s, run, last);
    run := run + last;
  }

  lemma Finishes(s: State, i: nat) returns (run: seq<Action>)
    requires KnownInv(s) && Ready(s, i)
    ensures IsSettled(Exec(s, run), i) && SameEntries(s, Exec(s, run))
  {
    run := [];
    var t := s;
    if t.ops[i].phase.Waiting? {
      Then(s, run, Start(i));
      run, t := run + [Start(i)], Step(t, Start(i));
    }
    if t.ops[i].phase.Blocked? {
      var c := t.ops[i].connect.value;
      Then(s, run, SettleConnect(c));
      run, t := run + [SettleConnect(c)], Step(t, SettleConnect(c));
      Then(s, run, Unblock(i));
      run, t := run + [Unblock(i)], Step(t, Unblock(i));
    }
    if t.ops[i].phase.Running? {
      Then(s, run, Settle(i));
      run, t := run + [Settle(i)], Step(t, Settle(i));
    }
  }

  // So from every reachable state a host can come to have neither operation nor connect left.
  lemma HostCanBeForgotten(before: seq<Action>, host: Host) returns (run: seq<Action>)
    ensures var t := Exec(Exec(Init, before), run); host !in t.pending && host !in t.connects
  {
    var s := Exec(Init, before);
    RunKeepsInv(Init, before);
    RunKeepsKnown(Init, before);
    run := QueueCanEmpty(s, host);
    RunKeepsKnown(s, run);
    var t := Exec(s, run);
    if host in t.connects {
      var c := t.connects[host];
      Then(s, run, SettleConnect(c));
      run, t := run + [SettleConnect(c)], Step(t, SettleConnect(c));
      Then(s, run, ReleaseConnect(host, c));
      run := run + [ReleaseConnect(host, c)];
    }
  }

  lemma QueueCanEmpty(s: State, host: Host) returns (run: seq<Action>)
    requires ChainInv(s) && TailIsLast(s) && KnownInv(s)
    ensures host !in Exec(s, run).pending && Exec(s, run).connects == s.connects
  {
    run := [];
    if host in s.pending {
      var tail := s.pending[host];
      run := CanSettle(s, tail);
      RunKeepsOps(s, run);
      Then(s, run, Release(tail));
      run := run + [Release(tail)];
    }
  }

  // Hosts are never serialised behind each other: an operation waits for its own host's
  // operations and connect only.
  lemma HostsAreIndependent(run: seq<Action>, i: nat)
    requires var s := Exec(Init, run); i < |s.ops| && s.ops[i].phase.Waiting?
    requires AllSettledBefore(Exec(Init, run), Exec(Init, run).ops[i].host, i)
    ensures Enabled(Exec(Init, run), Start(i))
  {
    RunKeepsInv(Init, run);
  }

  // ---------------------------------------------------------------- the gate

  class HostDisconnectGate {
    var ops: seq<Op>
    var pending: map<Host, nat>
    var connects: map<Host, nat>
    var settledConnects: set<nat>
    var startedConnects: nat

    ghost function View(): State
      reads this
    {
      State(ops, pending, connects, settledConnects, startedConnects)
    }

    constructor ()
      ensures View() == Init
    {
      ops, pending, connects, settledConnects, startedConnects := [], map[], map[], {}, 0;
    }

    // Chains an operation, possibly one that waits for a connect first.
    method Chain(host: Host, connect: Option<nat>) returns (i: nat)
      modifies this
      ensures View() == Enqueued(old(View()), host, connect) && i == |old(ops)|
    {
      var earlier := if host in pending then Some(pending[host]) else None;
      i := |ops|;
      ops := ops + [Op(host, earlier, connect, Waiting)];
      pending := pending[host := i];
    }

    method EnqueueOperation(host: Host) returns (i: nat)
      modifies this
      ensures View() == Step(old(View()), Enqueue(host)) && i == |old(ops)|
    {
      i := Chain(host, None);
    }

    method Track(host: Host) returns (c: nat)
      modifies this
      ensures View() == Step(old(View()), TrackConnect(host)) && c == old(startedConnects)
      ensures connects == old(connects)[host := c]
    {
      c := startedConnects;
      startedConnects := startedConnects + 1;
      connects := connects[host := c];
    }

    method EnqueueTeardown(host: Host) returns (i: nat)
      modifies this
      ensures View() == Step(old(View()), EnqueueAfterConnect(host)) && i == |old(ops)|
    {
      if host !in connects {
        i := EnqueueOperation(host);
      } else {
        i := Chain(host, Some(connects[host]));
      }
    }

    // The release callback of a settled operation.
    method ReleaseOperation(i: nat)
      requires IsSettled(View(), i)
      modifies this
      ensures View() == Step(old(View()), Release(i))
    {
      var host := ops[i].host;
      if host in pending && pending[host] == i {
        pending := pending - {host};
      }
    }

    method ReleaseTracked(host: Host, c: nat)
      requires c in settledConnects
      modifies this
      ensures View() == Step(old(View()), ReleaseConnect(host, c))
    {
      if host in connects && connects[host] == c {
        connects := connects - {host};
      }
    }

    method AwaitPending(host: Host) returns (r: Option<nat>)
      ensures r == Tail(View(), host)
    {
      r := if host in pending then Some(pending[host]) else None;
    }
  }
}
