// The registry of tunnels: opening, closing one, and closing a host's, interleaved.
//
// Closing a host's tunnels takes a snapshot, closes those one by one, waiting for each,
// and then drops every entry of the host from the registry.

module TunnelRegistry {
  import opened Options

  // Tunnels are numbered as they enter the registry; `closed` once their close returned.
  datatype Tunnel = Tunnel(host: nat, closed: bool)

  // One `close_all_for_host`: `since` tunnels had been registered when it looked.
  datatype Sweep = Sweep(host: nat, since: nat, left: set<nat>, waiting: Option<nat>, done: bool)

  datatype State = State(
    tunnels: seq<Tunnel>,     // every tunnel ever registered
    listed: set<nat>,         // those the registry still holds
    closing: set<nat>,        // closes a user asked for, under way
    sweeps: seq<Sweep>)

  const Init := State([], {}, {}, [])

  datatype Action =
    | Open(host: nat)
    | BeginClose(id: nat)
    | EndClose(id: nat)
    | Snapshot(host: nat)
    | SweepNext(c: nat, id: nat)
    | SweepClosed(c: nat)
    | Retain(c: nat)

  predicate Enabled(s: State, a: Action) {
    match a
    case Open(_) => true
    // An id the registry does not hold is closed already, as far as close can tell.
    case BeginClose(id) => id in s.listed
    case EndClose(id) => id in s.closing && id < |s.tunnels|
    case Snapshot(_) => true
    case SweepNext(c, id) => c < |s.sweeps| && s.sweeps[c].waiting.None? && id in s.sweeps[c].left
    case SweepClosed(c) => c < |s.sweeps| && s.sweeps[c].waiting.Some? && s.sweeps[c].waiting.value < |s.tunnels|
    case Retain(c) => c < |s.sweeps| && s.sweeps[c].left == {} && s.sweeps[c].waiting.None? && !s.sweeps[c].done
  }

  predicate BelongsTo(s: State, id: nat, host: nat) { id in s.listed && id < |s.tunnels| && s.tunnels[id].host == host }

  function OfHost(s: State, host: nat): set<nat> { set id | id in s.listed && BelongsTo(s, id, host) }

  function Closed(s: State, id: nat): seq<Tunnel>
    requires id < |s.tunnels|
  {
    s.tunnels[id := s.tunnels[id].(closed := true)]
  }

  function Step(s: State, a: Action): State {
    if !Enabled(s, a) then s else
    match a
    case Open(host) => s.(tunnels := s.tunnels + [Tunnel(host, false)], listed := s.listed + {|s.tunnels|})
    case BeginClose(id) => s.(closing := s.closing + {id})
    case EndClose(id) => s.(tunnels := Closed(s, id), closing := s.closing - {id})
    case Snapshot(host) => s.(sweeps := s.sweeps + [Sweep(host, |s.tunnels|, OfHost(s, host), None, false)])
    case SweepNext(c, id) =>
      var sweep := s.sweeps[c].(left := s.sweeps[c].left - {id}, waiting := if id in s.listed then Some(id) else None);
      s.(sweeps := s.sweeps[c := sweep])
    case SweepClosed(c) =>
      s.(tunnels := Closed(s, s.sweeps[c].waiting.value), sweeps := s.sweeps[c := s.sweeps[c].(waiting := None)])
    case Retain(c) =>
      s.(listed := s.listed - OfHost(s, s.sweeps[c].host), sweeps := s.sweeps[c := s.sweeps[c].(done := true)])
  }

  function Exec(s: State, run: seq<Action>): State
    decreases |run|
  {
    if run == [] then s else Exec(Step(s, run[0]), run[1..])
  }

  // ---------------------------------------------------------------- what a sweep forgets

  ghost predicate Registered(s: State) {
    && (forall id | id in s.listed :: id < |s.tunnels|)
    && (forall c | 0 <= c < |s.sweeps| :: s.sweeps[c].since <= |s.tunnels|)
  }

  // What a sweep saw and the registry still holds is to be closed, being closed, or closed.
  ghost predicate SweepInv(s: State, sweep: Sweep) {
    forall id: nat | BelongsTo(s, id, sweep.host) && id < sweep.since ::
      id in sweep.left || sweep.waiting == Some(id) || s.tunnels[id].closed
  }

  ghost predicate Inv(s: State) {
    Registered(s) && forall c | 0 <= c < |s.sweeps| :: SweepInv(s, s.sweeps[c])
  }

  lemma StepKeepsSweep(s: State, a: Action, c: nat)
    requires Registered(s) && c < |s.sweeps| && SweepInv(s, s.sweeps[c])
    ensures c < |Step(s, a).sweeps| && SweepInv(Step(s, a), Step(s, a).sweeps[c])
  {
    var t := Step(s, a);
    forall id: nat | BelongsTo(t, id, t.sweeps[c].host) && id < t.sweeps[c].since
      ensures id in t.sweeps[c].left || t.sweeps[c].waiting == Some(id) || t.tunnels[id].closed
    {
      assert BelongsTo(s, id, s.sweeps[c].host);
    }
  }

  lemma StepKeepsInv(s: State, a: Action)
    requires Inv(s)
    ensures Inv(Step(s, a))
  {
    var t := Step(s, a);
    forall c | 0 <= c < |t.sweeps| ensures SweepInv(t, t.sweeps[c]) {
      if c < |s.sweeps| { StepKeepsSweep(s, a, c); }
    }
  }

  lemma {:induction false} RunKeepsInv(s: State, run: seq<Action>)
    requires Inv(s)
    ensures Inv(Exec(s, run))
    decreases |run|
  {
    if run != [] {
      StepKeepsInv(s, run[0]);
      RunKeepsInv(Step(s, run[0]), run[1..]);
    }
  }

  // Forgotten: no longer in the registry, so that no close can reach it, and not closed.
  ghost predicate ForgottenOpen(s: State, t: State, id: nat) {
    id in s.listed && id !in t.listed && id < |t.tunnels| && !t.tunnels[id].closed
  }

  // In every run, what a sweep forgets unclosed is exactly what has entered the registry
  // since its snapshot and is still unclosed.
  lemma ForgetsOnlyNewcomers(run: seq<Action>, c: nat, id: nat)
    requires Enabled(Exec(Init, run), Retain(c))
    ensures var s := Exec(Init, run);
            ForgottenOpen(s, Step(s, Retain(c)), id) <==>
            BelongsTo(s, id, s.sweeps[c].host) && s.sweeps[c].since <= id && !s.tunnels[id].closed
  {
    RunKeepsInv(Init, run);
    var s := Exec(Init, run);
    assert SweepInv(s, s.sweeps[c]);
  }

  // It drops all of its host's entries, nobody else's, and closes nothing by that.
  lemma RetainDropsHost(run: seq<Action>, c: nat)
    requires Enabled(Exec(Init, run), Retain(c))
    ensures var s := Exec(Init, run);
            var t := Step(s, Retain(c));
            && t.tunnels == s.tunnels && t.listed <= s.listed
            && forall id | id in s.listed :: id in t.listed <==> !BelongsTo(s, id, s.sweeps[c].host)
  {
    RunKeepsInv(Init, run);
  }

  // A close a user asks for closes the tunnel, and leaves nothing under way.
  lemma CloseCloses(s: State, id: nat)
    requires Registered(s) && id in s.listed
    ensures var t := Step(Step(s, BeginClose(id)), EndClose(id));
            && id in Step(s, BeginClose(id)).closing && id !in t.closing && t.tunnels[id].closed && t.listed == s.listed
            && |t.tunnels| == |s.tunnels| && forall j | 0 <= j < |s.tunnels| && j != id :: t.tunnels[j] == s.tunnels[j]
  {
  }

  // Nobody has a hold on it any more.
  ghost predicate Lost(s: State, id: nat) {
    && id < |s.tunnels| && !s.tunnels[id].closed && id !in s.listed && id !in s.closing
    && forall c | 0 <= c < |s.sweeps| :: s.sweeps[c].waiting != Some(id)
  }

  // A tunnel forgotten while nobody was closing it stays open whatever follows.
  lemma {:induction false} LostForGood(s: State, run: seq<Action>, id: nat)
    requires Lost(s, id)
    ensures Lost(Exec(s, run), id)
    decreases |run|
  {
    if run != [] { LostForGood(Step(s, run[0]), run[1..], id); }
  }

  lemma {:induction false} ExecAppend(s: State, first: seq<Action>, second: seq<Action>)
    ensures Exec(s, first + second) == Exec(Exec(s, first), second)
    decreases |first|
  {
    if first == [] {
      assert first + second == second;
    } else {
      assert (first + second)[1..] == first[1..] + second;
      ExecAppend(Step(s, first[0]), first[1..], second);
    }
  }

  lemma Two(s: State, a: Action, b: Action)
    ensures Exec(s, [a, b]) == Step(Step(s, a), b)
  {
    assert [a, b][1..] == [b] && [b][1..] == [];
    assert Exec(Step(s, a), [b]) == Exec(Step(Step(s, a), b), []);
  }

  lemma OpenedMeanwhile(host: nat) returns (run: seq<Action>)
    ensures Exec(Init, run) == State([Tunnel(host, false), Tunnel(host, false)], {0, 1}, {},
                                     [Sweep(host, 1, {0}, None, false)])
  {
    var s1 := Step(Init, Open(host));
    var s2 := Step(s1, Snapshot(host));
    assert OfHost(s1, host) == {0};
    assert s2 == State([Tunnel(host, false)], {0}, {}, [Sweep(host, 1, {0}, None, false)]);
    Two(Init, Open(host), Snapshot(host));
    var s3 := Step(s2, Open(host));
    assert s3 == State([Tunnel(host, false), Tunnel(host, false)], {0, 1}, {}, [Sweep(host, 1, {0}, None, false)]);
    // The second close of an unknown id does nothing.
    Two(s2, Open(host), BeginClose(2));
    ExecAppend(Init, [Open(host), Snapshot(host)], [Open(host), BeginClose(2)]);
    run := [Open(host), Snapshot(host)] + [Open(host), BeginClose(2)];
  }

  // A tunnel opened while a host's are being closed is lost: open for good, and listed nowhere.
  lemma SweepCanLoseTunnel(host: nat) returns (run: seq<Action>)
    ensures var s := Exec(Init, run);
            |s.sweeps| == 1 && s.sweeps[0].done && s.tunnels == [Tunnel(host, true), Tunnel(host, false)] && Lost(s, 1)
  {
    var first := OpenedMeanwhile(host);
    var s := Exec(Init, first);
    var half := Step(s, SweepNext(0, 0));
    var none: set<nat> := {};
    assert half.sweeps == [Sweep(host, 1, none, Some(0), false)] by { assert {0} - {0} == none; }
    var s1 := Step(half, SweepClosed(0));
    assert s1 == State([Tunnel(host, true), Tunnel(host, false)], {0, 1}, {}, [Sweep(host, 1, {}, None, false)]);
    Two(s, SweepNext(0, 0), SweepClosed(0));
    assert OfHost(s1, host) == {0, 1};
    Two(s1, Retain(0), BeginClose(2));
    ExecAppend(s, [SweepNext(0, 0), SweepClosed(0)], [Retain(0), BeginClose(2)]);
    ExecAppend(Init, first, [SweepNext(0, 0), SweepClosed(0)] + [Retain(0), BeginClose(2)]);
    run := first + ([SweepNext(0, 0), SweepClosed(0)] + [Retain(0), BeginClose(2)]);
  }

  // ---------------------------------------------------------------- the manager

  class TunnelManager {
    var tunnels: seq<Tunnel>
    var listed: set<nat>
    var closing: set<nat>
    var sweeps: seq<Sweep>

    ghost function View(): State
      reads this
    {
      State(tunnels, listed, closing, sweeps)
    }

    constructor ()
      ensures View() == Init
    {
      tunnels, listed, closing, sweeps := [], {}, {}, [];
    }

    method Register(host: nat) returns (id: nat)
      modifies this
      ensures View() == Step(old(View()), Open(host)) && id == |old(tunnels)|
    {
      id := |tunnels|;
      tunnels := tunnels + [Tunnel(host, false)];
      listed := listed + {id};
    }

    method TakeSnapshot(host: nat) returns (c: nat)
      modifies this
      ensures View() == Step(old(View()), Snapshot(host)) && c == |old(sweeps)|
    {
      c := |sweeps|;
      var ids := set id | id in listed && id < |tunnels| && tunnels[id].host == host;
      assert ids == OfHost(View(), host);
      sweeps := sweeps + [Sweep(host, |tunnels|, ids, None, false)];
    }

    // Closes one tunnel of the snapshot, if the registry still holds it.
    method SweepOne(c: nat, id: nat)
      requires Registered(View()) && Enabled(View(), SweepNext(c, id))
      modifies this
      ensures var t := Step(old(View()), SweepNext(c, id));
              View() == if id in old(listed) then Step(t, SweepClosed(c)) else t
    {
      sweeps := sweeps[c := sweeps[c].(left := sweeps[c].left - {id})];
      if id in listed {
        tunnels := tunnels[id := tunnels[id].(closed := true)];
      }
    }

    method DropHost(c: nat)
      requires Enabled(View(), Retain(c))
      modifies this
      ensures View() == Step(old(View()), Retain(c))
    {
      listed := set id | id in listed && !(id < |tunnels| && tunnels[id].host == sweeps[c].host);
      sweeps := sweeps[c := sweeps[c].(done := true)];
    }

    // With nothing in between, closing a host's tunnels closes and drops exactly those.
    method CloseAllForHost(host: nat)
      requires Inv(View())
      modifies this
      ensures Inv(View()) && |tunnels| == |old(tunnels)|
      ensures forall id | 0 <= id < |tunnels| ::
                tunnels[id] == if BelongsTo(old(View()), id, host) then Tunnel(host, true) else old(tunnels)[id]
      ensures forall id :: id in listed <==> id in old(listed) && old(tunnels)[id].host != host
    {
      var c := TakeSnapshot(host);
      StepKeepsInv(old(View()), Snapshot(host));
      var ids := sweeps[c].left;
      var left := ids;
      while left != {}
        invariant left <= ids && ids == OfHost(old(View()), host)
        invariant Inv(View()) && c < |sweeps| && listed == old(listed) && |tunnels| == |old(tunnels)|
        invariant sweeps[c].left == left && sweeps[c].waiting.None? && !sweeps[c].done && sweeps[c].host == host
        invariant forall id | 0 <= id < |tunnels| ::
                    tunnels[id] == if id in ids && id !in left then Tunnel(host, true) else old(tunnels)[id]
        decreases left
      {
        var id :| id in left;
        assert BelongsTo(old(View()), id, host);
        StepKeepsInv(View(), SweepNext(c, id));
        StepKeepsInv(Step(View(), SweepNext(c, id)), SweepClosed(c));
        SweepOne(c, id);
        left := left - {id};
      }
      StepKeepsInv(View(), Retain(c));
      DropHost(c);
    }
  }
}
