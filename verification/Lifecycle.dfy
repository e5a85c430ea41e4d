// One host's session: guarded connects and disconnects, interleaved with event pumps
// that notice a lost transport and with a supervisor that marks the state.

module Lifecycle {
  import opened Options

  datatype ConnectionState =
    | Disconnected | ResolvingAddress | Connecting | VerifyingHostKey | Authenticating
    | WaitingForCredential | Ready | Reconnecting | Failed

  // The transition table.
  predicate ConnectionTransition(from: ConnectionState, to: ConnectionState) {
    match from
    case Disconnected => to == ResolvingAddress
    case ResolvingAddress => to in {Connecting, ResolvingAddress, Disconnected, Failed}
    case Connecting => to in {VerifyingHostKey, Ready, Disconnected, Failed}
    case VerifyingHostKey => to in {Authenticating, Disconnected, Failed}
    case Authenticating => to in {Ready, Disconnected, Failed}
    case WaitingForCredential => to in {ResolvingAddress, Ready, Disconnected, Failed}
    case Ready => to in {ResolvingAddress, Reconnecting, Disconnected}
    case Reconnecting => to in {Connecting, ResolvingAddress, Ready, WaitingForCredential, Failed, Disconnected}
    case Failed => to in {ResolvingAddress, WaitingForCredential, Reconnecting, Disconnected}
  }

  predicate Allowed(from: ConnectionState, to: ConnectionState) {
    from == to || ConnectionTransition(from, to)
  }

  // The same table by where it leads: what may come before each state.
  lemma TransitionsInto(from: ConnectionState)
    ensures ConnectionTransition(from, Disconnected) <==> from != Disconnected
    ensures ConnectionTransition(from, ResolvingAddress) <==> from !in {Connecting, VerifyingHostKey, Authenticating}
    ensures ConnectionTransition(from, Connecting) <==> from in {ResolvingAddress, Reconnecting}
    ensures ConnectionTransition(from, VerifyingHostKey) <==> from == Connecting
    ensures ConnectionTransition(from, Authenticating) <==> from == VerifyingHostKey
    ensures ConnectionTransition(from, WaitingForCredential) <==> from in {Reconnecting, Failed}
    ensures ConnectionTransition(from, Ready) <==>
            from in {Connecting, Authenticating, WaitingForCredential, Reconnecting}
    ensures ConnectionTransition(from, Reconnecting) <==> from in {Ready, Failed}
    ensures ConnectionTransition(from, Failed) <==> from !in {Disconnected, Ready, Failed}
  {
  }

  datatype TransitionError =
    | Invalid(from: ConnectionState, to: ConnectionState)
    | StaleGeneration(expected: nat, actual: nat)
  datatype Outcome = Done | Refused(error: TransitionError)

  // The sole authority over a session's state and generation.
  class ConnectionStateController {
    var state: ConnectionState
    var generation: nat

    constructor ()
      ensures state == Disconnected && generation == 0
    {
      state, generation := Disconnected, 0;
    }

    method Transition(to: ConnectionState) returns (r: Outcome)
      modifies this`state
      ensures r == if Allowed(old(state), to) then Done else Refused(Invalid(old(state), to))
      ensures state == if r.Done? then to else old(state)
    {
      if state != to && !ConnectionTransition(state, to) { return Refused(Invalid(state, to)); }
      state := to;
      return Done;
    }

    method TransitionForGeneration(generation: nat, to: ConnectionState) returns (r: Outcome)
      modifies this`state
      ensures this.generation != generation ==>
              r == Refused(StaleGeneration(generation, this.generation)) && state == old(state)
      ensures this.generation == generation ==>
                && r == (if Allowed(old(state), to) then Done else Refused(Invalid(old(state), to)))
                && state == (if r.Done? then to else old(state))
    {
      if this.generation != generation { return Refused(StaleGeneration(generation, this.generation)); }
      r := Transition(to);
    }

    method ReserveGeneration() returns (reserved: nat)
      modifies this`generation
      ensures generation == reserved == old(generation) + 1
    {
      generation := generation + 1;
      return generation;
    }

    // Monotonic: an older transport is never installed.
    method InstallGeneration(installed: nat) returns (r: Outcome)
      modifies this`generation
      ensures r.Done? <==> old(generation) <= installed
      ensures generation == if r.Done? then installed else old(generation)
      ensures old(generation) <= generation
    {
      if installed < generation { return Refused(StaleGeneration(installed, generation)); }
      generation := installed;
      return Done;
    }
  }

  // ---------------------------------------------------------------- interleavings

  // Where the holder of the connect guard is.
  datatype Op =
    | Free
    | ConnectBegun
    | Resolving
    | Reserved(generation: nat)     // next_generation done, jump credentials to check
    | NextCandidate(generation: nat)
    | Dialing(generation: nat)
    | Attached(generation: nat)
    | DisconnectBegun
    | Bumped
    | TornDown

  datatype State = State(
    conn: ConnectionState,
    generation: nat,
    op: Op,
    installed: Option<nat>,   // generation of the installed connection
    pumps: set<nat>,          // generations whose pump runs
    armed: set<nat>,          // pumps that saw their generation current and the state Ready
    loaded: set<nat>,         // pumps inside transition_for_generation, past its check
    refused: bool)            // some transition a connect or disconnect asked for was refused

  const Init := State(Disconnected, 0, Free, None, {}, {}, {}, false)

  datatype Action =
    | BeginConnect | StartResolving | NoCandidates | ReserveGeneration | JumpCredentialsMissing | JumpChecked
    | TryCandidate | FallBack | GiveUp | Attach | BecomeReady
    | BeginDisconnect | BumpGeneration | TakeConnection | BecomeDisconnected
    | Mark(to: ConnectionState)
    | PumpCheck(g: nat) | PumpLoad(g: nat) | PumpApply(g: nat)

  predicate Enabled(s: State, a: Action) {
    match a
    case BeginConnect => s.op.Free?
    case StartResolving => s.op.ConnectBegun?
    case NoCandidates => s.op.Resolving?
    case ReserveGeneration => s.op.Resolving?
    case JumpCredentialsMissing => s.op.Reserved?
    case JumpChecked => s.op.Reserved?
    case TryCandidate => s.op.NextCandidate?
    case FallBack => s.op.Dialing?
    case GiveUp => s.op.Dialing?
    case Attach => s.op.Dialing?
    case BecomeReady => s.op.Attached?
    case BeginDisconnect => s.op.Free?
    case BumpGeneration => s.op.DisconnectBegun?
    case TakeConnection => s.op.Bumped?
    case BecomeDisconnected => s.op.TornDown?
    case Mark(to) => to in {WaitingForCredential, Reconnecting}
    case PumpCheck(g) => g in s.pumps && g == s.generation && s.conn == Ready
    case PumpLoad(g) => g in s.armed
    case PumpApply(g) => g in s.loaded
  }

  // A transition requested by the guard's holder; a refusal would end the operation.
  function Request(s: State, to: ConnectionState, next: Op): State {
    if Allowed(s.conn, to) then s.(conn := to, op := next) else s.(refused := true, op := Free)
  }

  function Step(s: State, a: Action): State {
    if !Enabled(s, a) then s else
    match a
    case BeginConnect => s.(op := ConnectBegun)
    case StartResolving => Request(s, ResolvingAddress, Resolving)
    case NoCandidates => Request(s, Failed, Free)
    case ReserveGeneration => s.(generation := s.generation + 1, op := Reserved(s.generation + 1))
    case JumpCredentialsMissing => Request(s, Failed, Free)
    case JumpChecked => s.(op := NextCandidate(s.op.generation))
    case TryCandidate => Request(s, Connecting, Dialing(s.op.generation))
    case FallBack => s.(op := NextCandidate(s.op.generation))
    case GiveUp => Request(s, Failed, Free)
    case Attach =>
      var g := s.op.generation;
      if g < s.generation then s.(refused := true, op := Free)
      else s.(generation := g, installed := Some(g), pumps := s.pumps + {g}, op := Attached(g))
    case BecomeReady => Request(s, Ready, Free)
    case BeginDisconnect => s.(op := DisconnectBegun)
    case BumpGeneration => s.(generation := s.generation + 1, op := Bumped)
    case TakeConnection => s.(installed := None, op := TornDown)
    case BecomeDisconnected => Request(s, Disconnected, Free)
    case Mark(to) => if Allowed(s.conn, to) then s.(conn := to) else s
    case PumpCheck(g) => s.(armed := s.armed + {g})
    // The generation check inside transition_for_generation, then its transition.
    case PumpLoad(g) => s.(armed := s.armed - {g}, loaded := if g == s.generation then s.loaded + {g} else s.loaded)
    case PumpApply(g) =>
      s.(loaded := s.loaded - {g}, conn := if Allowed(s.conn, Reconnecting) then Reconnecting else s.conn)
  }

  function Exec(s: State, run: seq<Action>): State
    decreases |run|
  {
    if run == [] then s else Exec(Step(s, run[0]), run[1..])
  }

  predicate AtRest(conn: ConnectionState) {
    conn in {Disconnected, Ready, Failed, Reconnecting, WaitingForCredential}
  }

  ghost predicate Inv(s: State) {
    && !s.refused
    && (match s.op
        case Free => AtRest(s.conn)
        case ConnectBegun => AtRest(s.conn)
        case Resolving => s.conn == ResolvingAddress
        case Reserved(g) => s.conn == ResolvingAddress && g == s.generation
        case NextCandidate(g) => s.conn in {ResolvingAddress, Connecting} && g == s.generation
        case Dialing(g) => s.conn == Connecting && g == s.generation
        case Attached(g) => s.conn == Connecting && g == s.generation && s.installed == Some(g)
        case DisconnectBegun => AtRest(s.conn)
        case Bumped => AtRest(s.conn)
        case TornDown => AtRest(s.conn))
    && (s.conn == Ready && (s.op.Free? || s.op.ConnectBegun? || s.op.DisconnectBegun?) ==>
        s.installed == Some(s.generation))
  }

  lemma StepKeepsInv(s: State, a: Action)
    requires Inv(s)
    ensures Inv(Step(s, a))
  {
  }

  lemma {:induction false} RunKeepsInv(s: State, run: seq<Action>)
    requires Inv(s)
    ensures Inv(Exec(s, run))
    decreases |run|
  {
    if run != [] {
      StepKeepsInv(s, run[0]);
      RunKeepsInv(Step(s, run[0]), run[1..]);
    }
  }

  // A failed candidate gives way to the next one.
  lemma AnotherCandidate(s: State)
    requires Inv(s) && s.op.Dialing?
    ensures Enabled(Step(s, FallBack), TryCandidate) && Step(Step(s, FallBack), TryCandidate) == s
  {
  }

  // The supervisor's marks move the states they are meant for, and no other.
  lemma MarksMove(s: State)
    ensures Step(s, Mark(WaitingForCredential))
         == s.(conn := if s.conn in {Reconnecting, Failed} then WaitingForCredential else s.conn)
    ensures Step(s, Mark(Reconnecting)) == s.(conn := if s.conn in {Ready, Failed} then Reconnecting else s.conn)
  {
  }

  // A pump that notices the loss of the current, ready transport takes it to Reconnecting;
  // one that is not current, or finds another state, does not even begin to.
  lemma LossIsNoticed(s: State, g: nat)
    requires g in s.pumps && g == s.generation && s.conn == Ready
    ensures var t := Step(Step(Step(s, PumpCheck(g)), PumpLoad(g)), PumpApply(g));
            t == s.(conn := Reconnecting, armed := s.armed - {g}, loaded := s.loaded - {g})
  {
  }

  lemma OnlyLossArms(s: State, g: nat)
    requires g !in s.pumps || g != s.generation || s.conn != Ready
    ensures Step(s, PumpCheck(g)) == s
  {
  }

  // Over all interleavings nothing a connect or disconnect asks for is refused; with the
  // guard free the state is one of five, and Ready means the installed connection is the
  // current one.
  lemma LifecycleIsSafe(run: seq<Action>)
    ensures var s := Exec(Init, run);
            && !s.refused
            && (s.op.Free? ==> AtRest(s.conn) && (s.conn == Ready ==> s.installed == Some(s.generation)))
  {
    RunKeepsInv(Init, run);
  }

  // ---------------------------------------------------------------- stale pumps

  predicate NewGeneration(a: Action) { a.ReserveGeneration? || a.BumpGeneration? }

  // No new generation comes while a pump is between its check and its transition.
  ghost predicate AtomicFlips(s: State, run: seq<Action>)
    decreases |run|
  {
    run == [] || ((NewGeneration(run[0]) && Enabled(s, run[0]) ==> s.loaded == {})
                  && AtomicFlips(Step(s, run[0]), run[1..]))
  }

  // In every state a run passes through, the pumps past their check are current.
  ghost predicate AlwaysCurrent(s: State, run: seq<Action>) {
    forall k | 0 <= k <= |run| :: Exec(s, run[..k]).loaded <= {Exec(s, run[..k]).generation}
  }

  lemma AlwaysCurrentCons(s: State, run: seq<Action>)
    requires run != []
    ensures AlwaysCurrent(s, run) <==> s.loaded <= {s.generation} && AlwaysCurrent(Step(s, run[0]), run[1..])
  {
    var t := Step(s, run[0]);
    assert run[..0] == [];
    forall k | 0 <= k < |run| ensures Exec(s, run[..k + 1]) == Exec(t, run[1..][..k]) {
      assert run[..k + 1][1..] == run[1..][..k];
    }
    if AlwaysCurrent(s, run) {
      forall k | 0 <= k <= |run[1..]| ensures Exec(t, run[1..][..k]).loaded <= {Exec(t, run[1..][..k]).generation} {
        assert Exec(s, run[..k + 1]).loaded <= {Exec(s, run[..k + 1]).generation};
      }
    }
    if s.loaded <= {s.generation} && AlwaysCurrent(t, run[1..]) {
      forall k | 0 <= k <= |run| ensures Exec(s, run[..k]).loaded <= {Exec(s, run[..k]).generation} {
        if k > 0 { assert Exec(t, run[1..][..k - 1]).loaded <= {Exec(t, run[1..][..k - 1]).generation}; }
      }
    }
  }

  // Exactly the runs without such an overtaking keep every checked pump current.
  lemma {:induction false} AtomicFlipsIff(s: State, run: seq<Action>)
    requires Inv(s) && s.loaded <= {s.generation}
    ensures AtomicFlips(s, run) <==> AlwaysCurrent(s, run)
    decreases |run|
  {
    if run == [] {
      assert run[..0] == run;
    } else {
      var t := Step(s, run[0]);
      AlwaysCurrentCons(s, run);
      StepKeepsInv(s, run[0]);
      if t.loaded <= {t.generation} {
        AtomicFlipsIff(t, run[1..]);
      } else {
        assert run[1..][..0] == [] && Exec(t, run[1..][..0]) == t && !AlwaysCurrent(t, run[1..]);
      }
    }
  }

  predicate PumpAction(a: Action) { a.PumpCheck? || a.PumpLoad? || a.PumpApply? }

  // A pump whose generation has passed changes the connection state if and only if it
  // had its check behind it and the state is one that may move to Reconnecting.
  lemma StalePumpFlipsIff(s: State, a: Action)
    requires PumpAction(a) && a.g != s.generation
    ensures Step(s, a).conn != s.conn <==> a.PumpApply? && a.g in s.loaded && s.conn in {Ready, Failed}
  {
  }

  // So without an overtaking no stale pump ever changes it.
  lemma StalePumpsAreInert(run: seq<Action>, k: nat, a: Action)
    requires AtomicFlips(Init, run) && k <= |run|
    requires PumpAction(a) && a.g != Exec(Init, run[..k]).generation
    ensures Step(Exec(Init, run[..k]), a).conn == Exec(Init, run[..k]).conn
  {
    AtomicFlipsIff(Init, run);
    StalePumpFlipsIff(Exec(Init, run[..k]), a);
  }

  lemma {:induction false} ExecAppend(s: State, first: seq<Action>, second: seq<Action>)
    ensures Exec(s, first + second) == Exec(Exec(s, first), second)
    decreases |first|
  {
    if first == [] {
      assert first + second == second;
    } else {
      assert (first + second)[1..] == first[1..] + second;
      ExecAppend(Step(s, first[0]), first[1..], second);
    }
  }

  lemma Two(s: State, a: Action, b: Action)
    ensures Exec(s, [a, b]) == Step(Step(s, a), b)
  {
    assert [a, b][1..] == [b] && [b][1..] == [];
    assert Exec(Step(s, a), [b]) == Exec(Step(Step(s, a), b), []);
  }

  lemma Four(s: State, a: Action, b: Action, c: Action, d: Action)
    ensures Exec(s, [a, b] + [c, d]) == Step(Step(Step(Step(s, a), b), c), d)
  {
    ExecAppend(s, [a, b], [c, d]);
    Two(s, a, b);
    Two(Step(Step(s, a), b), c, d);
  }

  lemma ConnectStarts(s: State) returns (run: seq<Action>)
    requires s.op.Free? && Allowed(s.conn, ResolvingAddress)
    ensures Exec(s, run) == s.(conn := ResolvingAddress, generation := s.generation + 1,
                               op := NextCandidate(s.generation + 1))
  {
    var half := Step(Step(s, BeginConnect), StartResolving);
    assert half == s.(conn := ResolvingAddress, op := Resolving);
    assert Step(half, ReserveGeneration) == half.(generation := s.generation + 1, op := Reserved(s.generation + 1));
    Four(s, BeginConnect, StartResolving, ReserveGeneration, JumpChecked);
    run := [BeginConnect, StartResolving] + [ReserveGeneration, JumpChecked];
  }

  lemma ConnectEnds(s: State) returns (run: seq<Action>)
    requires s.op == NextCandidate(s.generation) && s.conn == ResolvingAddress
    ensures Exec(s, run) == s.(conn := Ready, installed := Some(s.generation), pumps := s.pumps + {s.generation},
                               op := Free)
  {
    var half := Step(Step(s, TryCandidate), Attach);
    assert half == s.(conn := Connecting, installed := Some(s.generation), pumps := s.pumps + {s.generation},
                      op := Attached(s.generation));
    // Nothing follows BecomeReady: FallBack is not enabled with the guard free.
    Four(s, TryCandidate, Attach, BecomeReady, FallBack);
    run := [TryCandidate, Attach] + [BecomeReady, FallBack];
  }

  lemma ConnectSucceeds(s: State) returns (run: seq<Action>)
    requires s.op.Free? && Allowed(s.conn, ResolvingAddress)
    ensures var g := s.generation + 1;
            Exec(s, run) == s.(conn := Ready, generation := g, installed := Some(g), pumps := s.pumps + {g})
  {
    var first := ConnectStarts(s);
    var second := ConnectEnds(Exec(s, first));
    ExecAppend(s, first, second);
    run := first + second;
  }

  lemma DisconnectSucceeds(s: State) returns (run: seq<Action>)
    requires s.op.Free? && s.conn == Ready
    ensures Exec(s, run) == s.(conn := Disconnected, generation := s.generation + 1, installed := None)
  {
    var half := Step(Step(s, BeginDisconnect), BumpGeneration);
    assert half == s.(generation := s.generation + 1, op := Bumped);
    assert Step(half, TakeConnection) == half.(installed := None, op := TornDown);
    Four(s, BeginDisconnect, BumpGeneration, TakeConnection, BecomeDisconnected);
    run := [BeginDisconnect, BumpGeneration] + [TakeConnection, BecomeDisconnected];
  }

  lemma PumpLoads(s: State, g: nat) returns (run: seq<Action>)
    requires g in s.pumps && g == s.generation && s.conn == Ready && s.armed == {}
    ensures Exec(s, run) == s.(loaded := s.loaded + {g})
  {
    Two(s, PumpCheck(g), PumpLoad(g));
    run := [PumpCheck(g), PumpLoad(g)];
  }

  ghost predicate PumpsInv(s: State) {
    forall g | g in s.pumps || g in s.armed || g in s.loaded :: g <= s.generation
  }

  lemma {:induction false} RunKeepsPumps(s: State, run: seq<Action>)
    requires Inv(s) && PumpsInv(s)
    ensures PumpsInv(Exec(s, run))
    decreases |run|
  {
    if run != [] {
      StepKeepsInv(s, run[0]);
      RunKeepsPumps(Step(s, run[0]), run[1..]);
    }
  }

  // Whatever the guard's holder is doing can come to an end without a pump's help.
  lemma OperationEnds(s: State) returns (run: seq<Action>)
    requires Inv(s)
    ensures var t := Exec(s, run);
            t.op.Free? && AtRest(t.conn) && t.loaded == s.loaded && t.generation >= s.generation
  {
    match s.op
    case Free => run := [];
    case ConnectBegun => run := [StartResolving, NoCandidates]; Two(s, StartResolving, NoCandidates);
    case Resolving => run := [NoCandidates, NoCandidates]; Two(s, NoCandidates, NoCandidates);
    case Reserved(_) => run := [JumpCredentialsMissing, NoCandidates]; Two(s, JumpCredentialsMissing, NoCandidates);
    case NextCandidate(_) => run := CandidateFails(s);
    case Dialing(_) => run := [GiveUp, NoCandidates]; Two(s, GiveUp, NoCandidates);
    case Attached(_) => run := [BecomeReady, NoCandidates]; Two(s, BecomeReady, NoCandidates);
    case DisconnectBegun => run := DisconnectEnds(s);
    case Bumped => run := [TakeConnection, BecomeDisconnected]; Two(s, TakeConnection, BecomeDisconnected);
    case TornDown => run := [BecomeDisconnected, NoCandidates]; Two(s, BecomeDisconnected, NoCandidates);
  }

  lemma CandidateFails(s: State) returns (run: seq<Action>)
    requires Inv(s) && s.op.NextCandidate?
    ensures var t := Exec(s, run);
            t.op.Free? && AtRest(t.conn) && t.loaded == s.loaded && t.generation >= s.generation
  {
    run := [TryCandidate, GiveUp];
    Two(s, TryCandidate, GiveUp);
  }

  lemma DisconnectEnds(s: State) returns (run: seq<Action>)
    requires Inv(s) && s.op.DisconnectBegun?
    ensures var t := Exec(s, run);
            t.op.Free? && AtRest(t.conn) && t.loaded == s.loaded && t.generation >= s.generation
  {
    run := [BumpGeneration, TakeConnection] + [BecomeDisconnected, NoCandidates];
    Four(s, BumpGeneration, TakeConnection, BecomeDisconnected, NoCandidates);
  }

  // From anywhere, a pump past its check outlives a reconnect and then takes the new
  // session down.
  lemma CheckedPumpCanFlip(s: State, g: nat) returns (run: seq<Action>)
    requires Inv(s) && g in s.loaded && g <= s.generation
    ensures var t := Exec(s, run);
            && t.conn == Ready && t.op.Free? && t.installed == Some(t.generation) && g in t.loaded && g < t.generation
            && Step(t, PumpApply(g)).conn == Reconnecting
  {
    var first := OperationEnds(s);
    var t := Exec(s, first);
    var second := ConnectSucceeds(t);
    ExecAppend(s, first, second);
    run := first + second;
  }

  ghost predicate StaleFlip(s: State, g: nat) {
    g != s.generation && Step(s, PumpApply(g)).conn != s.conn
  }

  // An overtaking is exactly the danger: every run that has one can go on, from some state
  // it passed through, to a stale pump changing the connection state.
  lemma OvertakingCanFlip(run: seq<Action>) returns (k: nat, more: seq<Action>, g: nat)
    requires !AtomicFlips(Init, run)
    ensures k <= |run| && StaleFlip(Exec(Exec(Init, run[..k]), more), g)
  {
    AtomicFlipsIff(Init, run);
    var i: int :| 0 <= i <= |run| && !(Exec(Init, run[..i]).loaded <= {Exec(Init, run[..i]).generation});
    var s := Exec(Init, run[..i]);
    var stale :| stale in s.loaded && stale != s.generation;
    RunKeepsInv(Init, run[..i]);
    RunKeepsPumps(Init, run[..i]);
    k, g := i, stale;
    more := CheckedPumpCanFlip(s, g);
  }

  // The check and the transition are separate in the code. A pump caught between them
  // while the host disconnects and connects again takes the healthy new session down.
  lemma StalePumpCanFlipNewSession() returns (run: seq<Action>)
    ensures var s := Exec(Init, run);
            && s.conn == Ready && s.op.Free? && s.installed == Some(s.generation)
            && 1 in s.loaded && s.generation != 1
            && Step(s, PumpApply(1)).conn == Reconnecting
  {
    var connect := ConnectSucceeds(Init);
    var s1 := Exec(Init, connect);
    var load := PumpLoads(s1, 1);
    var s2 := Exec(s1, load);
    var disconnect := DisconnectSucceeds(s2);
    var s3 := Exec(s2, disconnect);
    var again := ConnectSucceeds(s3);
    ExecAppend(s2, disconnect, again);
    ExecAppend(s1, load, disconnect + again);
    ExecAppend(Init, connect, load + (disconnect + again));
    run := connect + (load + (disconnect + again));
    assert Exec(Init, run) == Exec(s3, again);
  }
}
