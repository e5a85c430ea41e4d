// Destination leases of the transfer manager: who may write where, over whole runs.
//
// Several managers may share the registry; transfer ids are unique across them.
// Each action below is one critical section (or one atomic access) of the source.

module Leases {
  import opened Options

  type Id = nat
  type Key = string

  // Admitted: an enqueue has the lease, but the transfer is not yet in the controls and
  // requests maps. Leased: the worker is not spawned yet. Reaping: the delayed reaper has
  // passed its generation check but not yet cleared anything.
  datatype Phase = Admitted | Leased | Queued | Running | Stopped | Released | Reaping | Reaped

  datatype Worker = Worker(id: Id, phase: Phase, generation: nat)
  {
    predicate Unreleased() { phase in {Admitted, Leased, Queued, Running, Stopped} }
    predicate Spawned() { !phase.Admitted? && !phase.Leased? }
  }

  datatype Control = Control(key: Key, generation: nat, running: bool)

  datatype State = State(
    leases: map<Key, Id>,
    controls: map<Id, Control>,  // shared by workers and reapers, never dropped
    known: set<Id>,              // in both the controls and the requests map
    found: set<Id>,              // ids some `retry` call has found in both maps
    lookedUp: set<Id>,           // and has afterwards seen not running
    workers: seq<Worker>)

  const Init := State(map[], map[], {}, {}, {}, [])

  datatype Action =
    | Enqueue(id: Id, key: Key)
    | Register(w: nat)
    | Spawn(w: nat)
    | Start(w: nat)
    | Stop(w: nat)
    | Release(w: nat)
    | Check(w: nat)
    | Clear(w: nat)
    | LookUp(id: Id)
    | SeeIdle(id: Id)
    | RetryLease(id: Id)

  predicate At(s: State, w: nat, phase: Phase) {
    w < |s.workers| && s.workers[w].phase == phase && s.workers[w].id in s.controls
  }

  predicate Enabled(s: State, a: Action) {
    match a
    case Enqueue(id, _) => id !in s.controls
    case Register(w) => At(s, w, Admitted)
    case Spawn(w) => At(s, w, Leased)
    case Start(w) => At(s, w, Queued)
    case Stop(w) => At(s, w, Running)
    case Release(w) => At(s, w, Stopped)
    case Check(w) => At(s, w, Released)
    case Clear(w) => At(s, w, Reaping)
    case LookUp(id) => id in s.known && id in s.controls
    case SeeIdle(id) => id in s.found && id in s.controls && !s.controls[id].running
    case RetryLease(id) => id in s.lookedUp && id in s.controls
  }

  // Another transfer holds the destination.
  predicate Busy(leases: map<Key, Id>, key: Key, id: Id) {
    key in leases && leases[key] != id
  }

  function WithoutLease(leases: map<Key, Id>, key: Key, id: Id): map<Key, Id> {
    if key in leases && leases[key] == id then leases - {key} else leases
  }

  function Moved(s: State, w: nat, phase: Phase): seq<Worker>
    requires w < |s.workers|
  {
    s.workers[w := s.workers[w].(phase := phase)]
  }

  function Step(s: State, a: Action): State {
    if !Enabled(s, a) then s else
    match a
    case Enqueue(id, key) =>
      if key in s.leases then s
      else State(s.leases[key := id], s.controls[id := Control(key, 0, false)], s.known, s.found, s.lookedUp,
                 s.workers + [Worker(id, Admitted, 0)])
    case Register(w) => s.(known := s.known + {s.workers[w].id}, workers := Moved(s, w, Leased))
    case Spawn(w) =>
      var id := s.workers[w].id;
      var generation := s.controls[id].generation + 1;
      s.(controls := s.controls[id := s.controls[id].(generation := generation)],
         workers := s.workers[w := Worker(id, Queued, generation)])
    case Start(w) =>
      var id := s.workers[w].id;
      s.(controls := s.controls[id := s.controls[id].(running := true)], workers := Moved(s, w, Running))
    case Stop(w) =>
      var id := s.workers[w].id;
      s.(controls := s.controls[id := s.controls[id].(running := false)], workers := Moved(s, w, Stopped))
    case Release(w) =>
      var id := s.workers[w].id;
      s.(leases := WithoutLease(s.leases, s.controls[id].key, id), workers := Moved(s, w, Released))
    case Check(w) =>
      var control := s.controls[s.workers[w].id];
      s.(workers := Moved(s, w, if control.generation == s.workers[w].generation && !control.running then Reaping
                          else Reaped))
    case Clear(w) =>
      var id := s.workers[w].id;
      s.(leases := WithoutLease(s.leases, s.controls[id].key, id), known := s.known - {id},
         workers := Moved(s, w, Reaped))
    case LookUp(id) => s.(found := s.found + {id})
    case SeeIdle(id) => s.(lookedUp := s.lookedUp + {id})
    case RetryLease(id) =>
      var key := s.controls[id].key;
      if Busy(s.leases, key, id) then s
      else s.(leases := s.leases[key := id], workers := s.workers + [Worker(id, Leased, 0)])
  }

  function Exec(s: State, run: seq<Action>): State
    decreases |run|
  {
    if run == [] then s else Exec(Step(s, run[0]), run[1..])
  }

  // ---------------------------------------------------------------- exclusivity

  ghost predicate Idle(s: State, id: Id) {
    forall w | 0 <= w < |s.workers| && s.workers[w].id == id :: !s.workers[w].Unreleased()
  }

  ghost predicate WellFormed(s: State) {
    forall w | 0 <= w < |s.workers| :: s.workers[w].id in s.controls
  }

  // Every unreleased worker owns the lease of its destination, and no two of them
  // belong to one transfer.
  ghost predicate Exclusive(s: State) {
    && WellFormed(s)
    && (forall w | 0 <= w < |s.workers| && s.workers[w].Unreleased() ::
          var key := s.controls[s.workers[w].id].key;
          key in s.leases && s.leases[key] == s.workers[w].id)
    && (forall v, w | 0 <= v < w < |s.workers| && s.workers[v].Unreleased() && s.workers[w].Unreleased() ::
          s.workers[v].id != s.workers[w].id)
  }

  lemma NoSharedDestination(s: State, v: nat, w: nat)
    requires Exclusive(s) && v < |s.workers| && w < |s.workers|
    requires s.workers[v].Unreleased() && s.workers[w].Unreleased()
    requires s.controls[s.workers[v].id].key == s.controls[s.workers[w].id].key
    ensures v == w
  {
    assert s.workers[v].id == s.workers[w].id;
  }

  // The two actions that can lose exclusivity, and when they are harmless: neither a
  // retry nor a late reaper may meet an unreleased worker of the same transfer.
  ghost predicate Safe(s: State, a: Action) {
    Enabled(s, a) ==>
      match a
      case RetryLease(id) => Idle(s, id)
      case Clear(w) => Idle(s, s.workers[w].id)
      case _ => true
  }

  // Exactly the safe actions keep exclusivity.
  lemma KeepsExclusiveIffSafe(s: State, a: Action)
    requires Exclusive(s)
    ensures Exclusive(Step(s, a)) <==> Safe(s, a)
  {
    var t := Step(s, a);
    if !Enabled(s, a) {
    } else if !Safe(s, a) {
      var id := match a case RetryLease(id) => id case Clear(w) => s.workers[w].id case _ => 0;
      var v :| 0 <= v < |s.workers| && s.workers[v].id == id && s.workers[v].Unreleased();
      if a.RetryLease? {
        assert t.workers[v] == s.workers[v] && t.workers[|s.workers|].Unreleased();
      } else {
        assert t.workers[v] == s.workers[v] && s.controls[id].key !in t.leases;
      }
    } else {
      SafeKeepsOwnership(s, a);
    }
  }

  lemma SafeKeepsOwnership(s: State, a: Action)
    requires Exclusive(s) && Enabled(s, a) && Safe(s, a)
    ensures Exclusive(Step(s, a))
  {
    var t := Step(s, a);
    forall w | 0 <= w < |t.workers| && t.workers[w].Unreleased()
      ensures t.workers[w].id in t.controls
      ensures var key := t.controls[t.workers[w].id].key; key in t.leases && t.leases[key] == t.workers[w].id
    {
      if w < |s.workers| {
        assert s.workers[w].Unreleased() && s.workers[w].id == t.workers[w].id;
      }
    }
    forall v, w | 0 <= v < w < |t.workers| && t.workers[v].Unreleased() && t.workers[w].Unreleased()
      ensures t.workers[v].id != t.workers[w].id
    {
      assert s.workers[v].Unreleased() && s.workers[v].id == t.workers[v].id;
    }
  }

  // ---------------------------------------------------------------- guarded runs

  // What makes every step safe: a retry takes its lease only when no worker of its
  // transfer is unreleased or half-reaped, and no reaper checks the generation while
  // a retry has its lease but has not spawned its worker.
  ghost predicate Guarded(s: State, a: Action) {
    Enabled(s, a) ==>
      match a
      case RetryLease(id) =>
        forall w | 0 <= w < |s.workers| && s.workers[w].id == id :: s.workers[w].phase in {Released, Reaped}
      case Check(w) =>
        forall v | 0 <= v < |s.workers| && s.workers[v].id == s.workers[w].id :: s.workers[v].phase != Leased
      case _ => true
  }

  ghost predicate GuardedRun(s: State, run: seq<Action>)
    decreases |run|
  {
    run == [] || (Guarded(s, run[0]) && GuardedRun(Step(s, run[0]), run[1..]))
  }

  // An unreleased worker carries the newest generation of its transfer.
  ghost predicate Newest(s: State) {
    forall w | 0 <= w < |s.workers| && s.workers[w].Spawned() && s.workers[w].id in s.controls ::
      && s.workers[w].generation <= s.controls[s.workers[w].id].generation
      && (s.workers[w].Unreleased() ==> s.workers[w].generation == s.controls[s.workers[w].id].generation)
  }

  ghost predicate Distinct(s: State) {
    forall v, w | 0 <= v < |s.workers| && 0 <= w < |s.workers| && v != w && s.workers[v].id == s.workers[w].id
               && s.workers[v].Spawned() && s.workers[w].Spawned() ::
      s.workers[v].generation != s.workers[w].generation
  }

  // A reaper past its check has no successor.
  ghost predicate ReapersAlone(s: State) {
    forall w | 0 <= w < |s.workers| && s.workers[w].phase == Reaping :: Idle(s, s.workers[w].id)
  }

  // A transfer being enqueued has no other worker.
  ghost predicate AdmittedAlone(s: State) {
    forall v, w | 0 <= v < |s.workers| && 0 <= w < |s.workers| && s.workers[v].phase == Admitted
               && s.workers[w].id == s.workers[v].id :: w == v
  }

  ghost predicate Generations(s: State) {
    Newest(s) && Distinct(s) && ReapersAlone(s) && AdmittedAlone(s)
  }

  lemma GuardedIsSafe(s: State, a: Action)
    requires Generations(s) && Guarded(s, a)
    ensures Safe(s, a)
  {
  }

  lemma KeepsNewest(s: State, a: Action)
    requires Exclusive(s) && Newest(s) && Enabled(s, a)
    ensures Newest(Step(s, a))
  {
  }

  lemma KeepsDistinct(s: State, a: Action)
    requires Exclusive(s) && Newest(s) && Distinct(s) && Enabled(s, a)
    ensures Distinct(Step(s, a))
  {
  }

  lemma KeepsAdmittedAlone(s: State, a: Action)
    requires Exclusive(s) && AdmittedAlone(s) && Guarded(s, a) && Enabled(s, a)
    ensures AdmittedAlone(Step(s, a))
  {
    var t := Step(s, a);
    assert forall w | 0 <= w < |s.workers| :: t.workers[w].id == s.workers[w].id;
  }

  lemma KeepsReapersAlone(s: State, a: Action)
    requires Exclusive(s) && Generations(s) && Guarded(s, a) && Enabled(s, a)
    ensures ReapersAlone(Step(s, a))
  {
    var t := Step(s, a);
    forall w, v | 0 <= w < |t.workers| && t.workers[w].phase == Reaping
               && 0 <= v < |t.workers| && t.workers[v].id == t.workers[w].id
      ensures !t.workers[v].Unreleased()
    {
      // A worker spawned since would carry a newer generation than the reaper's.
      assert w < |s.workers| && s.workers[w].id == t.workers[w].id;
      assert v < |s.workers| ==> s.workers[v].id == t.workers[v].id;
    }
  }

  lemma GuardedStepIsExclusive(s: State, a: Action)
    requires Exclusive(s) && Generations(s) && Guarded(s, a)
    ensures Exclusive(Step(s, a)) && Generations(Step(s, a))
  {
    GuardedIsSafe(s, a);
    KeepsExclusiveIffSafe(s, a);
    if Enabled(s, a) {
      KeepsNewest(s, a);
      KeepsDistinct(s, a);
      KeepsReapersAlone(s, a);
      KeepsAdmittedAlone(s, a);
    }
  }

  // Lease exclusivity in every state a guarded run reaches.
  lemma {:induction false} GuardedRunIsExclusive(s: State, run: seq<Action>)
    requires Exclusive(s) && Generations(s) && GuardedRun(s, run)
    ensures Exclusive(Exec(s, run)) && Generations(Exec(s, run))
    decreases |run|
  {
    if run != [] {
      GuardedStepIsExclusive(s, run[0]);
      GuardedRunIsExclusive(Step(s, run[0]), run[1..]);
    }
  }

  lemma GuardedRunFromInit(run: seq<Action>)
    requires GuardedRun(Init, run)
    ensures Exclusive(Exec(Init, run))
  {
    GuardedRunIsExclusive(Init, run);
  }

  // In a guarded run a late reaper never frees a successor's lease.
  lemma LateReaperSparesSuccessor(run: seq<Action>, w: nat, v: nat)
    requires GuardedRun(Init, run)
    requires Enabled(Exec(Init, run), Clear(w))
    requires v < |Exec(Init, run).workers| && Exec(Init, run).workers[v].Unreleased()
    ensures var s := Exec(Init, run);
            var t := Step(s, Clear(w));
            var id := s.workers[v].id;
            id in t.controls && t.controls[id].key in t.leases && t.leases[t.controls[id].key] == id
  {
    GuardedRunIsExclusive(Init, run);
    var s := Exec(Init, run);
    SafeKeepsOwnership(s, Clear(w));
    assert Step(s, Clear(w)).workers[v] == s.workers[v];
  }

  // ---------------------------------------------------------------- forgotten transfers

  // In every run, guarded or not: a transfer being enqueued has not been found by anyone and
  // has no other worker; only transfers with controls are known or found.
  ghost predicate RegistrationInv(s: State) {
    && WellFormed(s) && s.known <= s.controls.Keys && s.lookedUp <= s.found <= s.controls.Keys && AdmittedAlone(s)
    && forall w | 0 <= w < |s.workers| && s.workers[w].phase == Admitted ::
         s.workers[w].id !in s.found && s.workers[w].id !in s.known
  }

  lemma StepKeepsRegistration(s: State, a: Action)
    requires RegistrationInv(s)
    ensures RegistrationInv(Step(s, a))
  {
    var t := Step(s, a);
    assert forall w | 0 <= w < |s.workers| :: t.workers[w].id == s.workers[w].id;
    assert forall w | 0 <= w < |s.workers| && t.workers[w].phase == Admitted :: s.workers[w].phase == Admitted;
  }

  lemma {:induction false} RunKeepsRegistration(s: State, run: seq<Action>)
    requires RegistrationInv(s)
    ensures RegistrationInv(Exec(s, run))
    decreases |run|
  {
    if run != [] {
      StepKeepsRegistration(s, run[0]);
      RunKeepsRegistration(Step(s, run[0]), run[1..]);
    }
  }

  // Not known, and with no enqueue of it under way that could make it so.
  ghost predicate Forgotten(s: State, id: Id) {
    && id in s.controls && id !in s.known
    && forall w | 0 <= w < |s.workers| && s.workers[w].id == id :: s.workers[w].phase != Admitted
  }

  lemma {:induction false} ForgottenStays(s: State, run: seq<Action>, id: Id)
    requires RegistrationInv(s) && Forgotten(s, id)
    ensures Forgotten(Exec(s, run), id)
    decreases |run|
  {
    if run != [] {
      StepKeepsRegistration(s, run[0]);
      ForgottenStays(Step(s, run[0]), run[1..], id);
    }
  }

  // Once a reaper has cleaned up, no later retry finds the transfer, whatever happens.
  lemma ReapedIsForgotten(before: seq<Action>, w: nat, after: seq<Action>)
    requires Enabled(Exec(Init, before), Clear(w))
    ensures var s := Exec(Init, before);
            !Enabled(Exec(Step(s, Clear(w)), after), LookUp(s.workers[w].id))
  {
    var s := Exec(Init, before);
    RunKeepsRegistration(Init, before);
    StepKeepsRegistration(s, Clear(w));
    ForgottenStays(Step(s, Clear(w)), after, s.workers[w].id);
  }

  // ---------------------------------------------------------------- what goes wrong unguarded

  ghost predicate TwoWritersOf(s: State, key: Key) {
    exists v, w :: 0 <= v < w < |s.workers| && s.workers[v].phase == Running && s.workers[w].phase == Running
                && s.workers[v].id in s.controls && s.workers[w].id in s.controls
                && s.controls[s.workers[v].id].key == s.controls[s.workers[w].id].key == key
  }

  lemma {:induction false} ExecAppend(s: State, first: seq<Action>, second: seq<Action>)
    ensures Exec(s, first + second) == Exec(Exec(s, first), second)
    decreases |first|
  {
    if first == [] {
      assert first + second == second;
    } else {
      assert (first + second)[1..] == first[1..] + second;
      ExecAppend(Step(s, first[0]), first[1..], second);
    }
  }

  // Controls are never dropped, nor what a retry found.
  lemma {:induction false} MapsOnlyGrow(s: State, run: seq<Action>)
    ensures s.controls.Keys <= Exec(s, run).controls.Keys && s.found <= Exec(s, run).found
    decreases |run|
  {
    if run != [] { MapsOnlyGrow(Step(s, run[0]), run[1..]); }
  }

  lemma Unroll4(s: State, run: seq<Action>)
    requires |run| == 4
    ensures Exec(s, run) == Step(Step(Step(Step(s, run[0]), run[1]), run[2]), run[3])
  {
    assert run == [run[0]] + ([run[1]] + ([run[2]] + [run[3]]));
    ExecAppend(s, [run[0]], [run[1]] + ([run[2]] + [run[3]]));
    ExecAppend(Step(s, run[0]), [run[1]], [run[2]] + [run[3]]);
    ExecAppend(Step(Step(s, run[0]), run[1]), [run[2]], [run[3]]);
  }

  lemma FirstIsQueued(key: Key, run: seq<Action>)
    requires run == [Enqueue(1, key), Register(0), Spawn(0), LookUp(1)]
    ensures Exec(Init, run) == State(map[key := 1], map[1 := Control(key, 1, false)], {1}, {1}, {},
                                     [Worker(1, Queued, 1)])
  {
    var half := Step(Step(Init, run[0]), run[1]);
    assert half == State(map[key := 1], map[1 := Control(key, 0, false)], {1}, {}, {}, [Worker(1, Leased, 0)]);
    Unroll4(Init, run);
  }

  // The transfer runs and ends, and its reaper passes the generation check.
  lemma FirstIsReaping(key: Key, s: State, run: seq<Action>)
    requires s == State(map[key := 1], map[1 := Control(key, 1, false)], {1}, {1}, {}, [Worker(1, Queued, 1)])
    requires run == [Start(0), Stop(0), Release(0), Check(0)]
    ensures Exec(s, run) == State(map[], map[1 := Control(key, 1, false)], {1}, {1}, {}, [Worker(1, Reaping, 1)])
  {
    var half := Step(Step(s, run[0]), run[1]);
    assert half == State(map[key := 1], map[1 := Control(key, 1, false)], {1}, {1}, {}, [Worker(1, Stopped, 1)]);
    Unroll4(s, run);
  }

  // A retry that looked it up earlier starts a second worker.
  lemma RetryRuns(key: Key, s: State, run: seq<Action>)
    requires s == State(map[], map[1 := Control(key, 1, false)], {1}, {1}, {}, [Worker(1, Reaping, 1)])
    requires run == [SeeIdle(1), RetryLease(1), Spawn(1), Start(1)]
    ensures Exec(s, run) == State(map[key := 1], map[1 := Control(key, 2, true)], {1}, {1}, {1},
                                  [Worker(1, Reaping, 1), Worker(1, Running, 2)])
  {
    var half := Step(Step(s, run[0]), run[1]);
    assert half == State(map[key := 1], map[1 := Control(key, 1, false)], {1}, {1}, {1},
                         [Worker(1, Reaping, 1), Worker(1, Leased, 0)]);
    Unroll4(s, run);
  }

  // The reaper frees that worker's lease, and another transfer gets the destination.
  lemma AnotherIsQueued(key: Key, s: State, run: seq<Action>)
    requires s == State(map[key := 1], map[1 := Control(key, 2, true)], {1}, {1}, {1},
                        [Worker(1, Reaping, 1), Worker(1, Running, 2)])
    requires run == [Clear(0), Enqueue(2, key), Register(2), Spawn(2)]
    ensures var t := Exec(s, run);
            && t.workers == [Worker(1, Reaped, 1), Worker(1, Running, 2), Worker(2, Queued, 1)]
            && t.controls == map[1 := Control(key, 2, true), 2 := Control(key, 1, false)]
  {
    var half := Step(Step(s, run[0]), run[1]);
    assert half.workers == [Worker(1, Reaped, 1), Worker(1, Running, 2), Worker(2, Admitted, 0)];
    assert half.controls == map[1 := Control(key, 2, true), 2 := Control(key, 0, false)];
    Unroll4(s, run);
  }

  lemma RetryDuringReapSharesDestination(key: Key) returns (run: seq<Action>)
    ensures TwoWritersOf(Exec(Init, run), key)
  {
    var first, second := [Enqueue(1, key), Register(0), Spawn(0), LookUp(1)], [Start(0), Stop(0), Release(0), Check(0)];
    var third := [SeeIdle(1), RetryLease(1), Spawn(1), Start(1)];
    var fourth := [Clear(0), Enqueue(2, key), Register(2), Spawn(2)];
    var most := FourInARow(Init, first, second, third, fourth);
    FirstIsQueued(key, first);
    FirstIsReaping(key, Exec(Init, first), second);
    RetryRuns(key, Exec(Exec(Init, first), second), third);
    AnotherIsQueued(key, Exec(Exec(Exec(Init, first), second), third), fourth);
    run := LastStarts(key, most, 1, 2);
  }

  lemma FourInARow(s: State, a: seq<Action>, b: seq<Action>, c: seq<Action>, d: seq<Action>) returns (run: seq<Action>)
    ensures Exec(s, run) == Exec(Exec(Exec(Exec(s, a), b), c), d)
  {
    run := a + (b + (c + d));
    ExecAppend(s, a, b + (c + d));
    ExecAppend(Exec(s, a), b, c + d);
    ExecAppend(Exec(Exec(s, a), b), c, d);
  }

  lemma LastStarts(key: Key, before: seq<Action>, v: nat, w: nat) returns (run: seq<Action>)
    requires var s := Exec(Init, before);
             && v < w && At(s, v, Running) && At(s, w, Queued)
             && s.controls[s.workers[v].id].key == s.controls[s.workers[w].id].key == key
    ensures TwoWritersOf(Exec(Init, run), key)
  {
    var s := Exec(Init, before);
    var t := Step(s, Start(w));
    assert [Start(w)][1..] == [] && Exec(s, [Start(w)]) == t;
    ExecAppend(Init, before, [Start(w)]);
    run := before + [Start(w)];
    assert t.workers[v].phase == Running && t.workers[w].phase == Running;
  }

  // A worker still waiting for its slot does not count as running, so a retry goes
  // ahead beside it.
  lemma RetryOfQueuedSharesDestination(key: Key) returns (run: seq<Action>)
    ensures TwoWritersOf(Exec(Init, run), key)
  {
    var first := [Enqueue(1, key), Register(0), Spawn(0), LookUp(1)];
    var second := [SeeIdle(1), RetryLease(1), Spawn(1), Start(0)];
    var most := FourInARow(Init, first, second, [], []);
    FirstIsQueued(key, first);
    RetryBesideQueued(key, Exec(Init, first), second);
    run := LastStarts(key, most, 0, 1);
  }

  lemma RetryBesideQueued(key: Key, s: State, run: seq<Action>)
    requires s == State(map[key := 1], map[1 := Control(key, 1, false)], {1}, {1}, {}, [Worker(1, Queued, 1)])
    requires run == [SeeIdle(1), RetryLease(1), Spawn(1), Start(0)]
    ensures Exec(s, run).workers == [Worker(1, Running, 1), Worker(1, Queued, 2)]
    ensures Exec(s, run).controls == map[1 := Control(key, 2, true)]
  {
    var half := Step(Step(s, run[0]), run[1]);
    assert half == State(map[key := 1], map[1 := Control(key, 1, false)], {1}, {1}, {1},
                         [Worker(1, Queued, 1), Worker(1, Leased, 0)]);
    Unroll4(s, run);
  }

  // ---------------------------------------------------------------- the manager

  datatype EnqueueResult = Started(w: nat) | DestinationBusy | InvalidRequest | NoKey

  // The manager's shared maps, changed in place one critical section at a time.
  class TransferManager {
    var leases: map<Key, Id>
    var controls: map<Id, Control>
    var known: set<Id>
    var found: set<Id>
    var lookedUp: set<Id>
    var workers: seq<Worker>

    ghost function View(): State
      reads this
    {
      State(leases, controls, known, found, lookedUp, workers)
    }

    constructor ()
      ensures View() == Init
    {
      leases, controls, known, found, lookedUp, workers := map[], map[], {}, {}, {}, [];
    }

    // `release_lease`: only the owner's entry goes.
    method ReleaseLease(key: Key, id: Id)
      modifies this`leases
      ensures leases == WithoutLease(old(leases), key, id)
    {
      if key in leases && leases[key] == id {
        leases := leases - {key};
      }
    }

    // Up to and including the lease: `key` is missing when the destination's identity
    // cannot be had. `id` is new.
    method EnqueueInternal(id: Id, valid: bool, key: Option<Key>) returns (r: EnqueueResult)
      requires id !in controls
      modifies this
      ensures View() == if valid && key.Some? then Step(old(View()), Enqueue(id, key.value)) else old(View())
      ensures r == if !valid then InvalidRequest
                   else if key.None? then NoKey
                   else if key.value in old(leases) then DestinationBusy
                   else Started(|old(workers)|)
    {
      if !valid { return InvalidRequest; }
      if key.None? { return NoKey; }
      if key.value in leases { return DestinationBusy; }
      leases := leases[key.value := id];
      controls := controls[id := Control(key.value, 0, false)];
      workers := workers + [Worker(id, Admitted, 0)];
      return Started(|workers| - 1);
    }

    // The two map insertions; a retry needs both, so the second is what others see.
    method RegisterTransfer(w: nat)
      requires Enabled(View(), Register(w))
      modifies this
      ensures View() == Step(old(View()), Register(w))
    {
      known := known + {workers[w].id};
      workers := workers[w := workers[w].(phase := Leased)];
    }

    method SpawnWorker(w: nat)
      requires Enabled(View(), Spawn(w))
      modifies this
      ensures View() == Step(old(View()), Spawn(w))
    {
      var id := workers[w].id;
      var generation := controls[id].generation + 1;
      controls := controls[id := controls[id].(generation := generation)];
      workers := workers[w := Worker(id, Queued, generation)];
    }

    method SetRunning(w: nat, running: bool)
      requires Enabled(View(), if running then Start(w) else Stop(w))
      modifies this
      ensures View() == Step(old(View()), if running then Start(w) else Stop(w))
    {
      var id := workers[w].id;
      controls := controls[id := controls[id].(running := running)];
      workers := workers[w := workers[w].(phase := if running then Running else Stopped)];
    }

    method ReleaseAfterRun(w: nat)
      requires Enabled(View(), Release(w))
      modifies this
      ensures View() == Step(old(View()), Release(w))
    {
      var id := workers[w].id;
      ReleaseLease(controls[id].key, id);
      workers := workers[w := workers[w].(phase := Released)];
    }

    // The reaper after its delay: the check, then in a later critical section the cleanup.
    method ReapCheck(w: nat) returns (current: bool)
      requires Enabled(View(), Check(w))
      modifies this
      ensures View() == Step(old(View()), Check(w))
      ensures current == (workers[w].phase == Reaping)
    {
      var control := controls[workers[w].id];
      current := control.generation == workers[w].generation && !control.running;
      workers := workers[w := workers[w].(phase := if current then Reaping else Reaped)];
    }

    method ReapClear(w: nat)
      requires Enabled(View(), Clear(w))
      modifies this
      ensures View() == Step(old(View()), Clear(w))
    {
      var id := workers[w].id;
      known := known - {id};
      ReleaseLease(controls[id].key, id);
      workers := workers[w := workers[w].(phase := Reaped)];
    }

    method RetryLookUp(id: Id) returns (found: bool)
      requires known <= controls.Keys
      modifies this
      ensures View() == Step(old(View()), LookUp(id))
      ensures found == (id in old(known))
    {
      if id !in known { return false; }
      this.found := this.found + {id};
      return true;
    }

    // Others go on meanwhile.
    method OthersAct(run: seq<Action>)
      modifies this
      ensures View() == Exec(old(View()), run)
      decreases |run|
    {
      if run != [] {
        var t := Step(State(leases, controls, known, found, lookedUp, workers), run[0]);
        leases, controls, known := t.leases, t.controls, t.known;
        found, lookedUp, workers := t.found, t.lookedUp, t.workers;
        OthersAct(run[1..]);
      }
    }

    // The retry's bounded wait for its previous worker: up to 200 looks at the running flag
    // and one more. `meanwhile[i]` runs between looks i and i + 1; `looks` says what was seen.
    method AwaitIdle(id: Id, meanwhile: seq<seq<Action>>)
      returns (idle: bool, ghost run: seq<Action>, ghost looks: seq<bool>)
      requires id in controls && id in found && |meanwhile| == 200
      modifies this
      ensures idle ==>
                && View() == Step(Exec(old(View()), run), SeeIdle(id))
                && Enabled(Exec(old(View()), run), SeeIdle(id))
      ensures !idle ==> View() == Exec(old(View()), run) && id in controls && controls[id].running
      ensures |looks| <= 201 && (!idle ==> |looks| == 201)
      ensures looks != [] && (forall i | 0 <= i < |looks| - 1 :: looks[i]) && looks[|looks| - 1] == !idle
    {
      var i := 0;
      run, looks := [], [];
      while i < 200 && controls[id].running
        invariant i <= 200 && |looks| == i && (forall k | 0 <= k < i :: looks[k])
        invariant View() == Exec(old(View()), run) && id in controls && id in found
      {
        looks := looks + [true];
        MapsOnlyGrow(View(), meanwhile[i]);
        ExecAppend(old(View()), run, meanwhile[i]);
        run := run + meanwhile[i];
        OthersAct(meanwhile[i]);
        i := i + 1;
      }
      idle := !controls[id].running;
      looks := looks + [controls[id].running];
      if idle {
        lookedUp := lookedUp + {id};
      }
    }

    method RetryTakeLease(id: Id) returns (r: EnqueueResult)
      requires Enabled(View(), RetryLease(id))
      modifies this
      ensures View() == Step(old(View()), RetryLease(id))
      ensures r == if Busy(old(leases), controls[id].key, id) then DestinationBusy else Started(|old(workers)|)
    {
      var key := controls[id].key;
      if key in leases && leases[key] != id { return DestinationBusy; }
      leases := leases[key := id];
      workers := workers + [Worker(id, Leased, 0)];
      return Started(|workers| - 1);
    }
  }
}
