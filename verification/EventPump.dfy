// One transport's event pump, its subscribers, and the hand-over from replay to live
// delivery. Each action is one critical section or one queue operation.

module EventPump {
  import opened Options
  import opened ReplayBuffer

  // `replay` and `since` record where a subscriber joined; `sole` that no other open
  // subscriber has had its filter meanwhile.
  datatype Sub = Sub(filter: Option<nat>, capacity: nat, queue: seq<SessionEvent>, consumed: seq<SessionEvent>,
                     open: bool, replay: seq<SessionEvent>, since: nat, sole: bool)
  {
    function Received(): seq<SessionEvent> { consumed + queue }
  }

  // Admitted: past the generation check. Registered: past the critical section, with
  // the subscribers it copied. Delivering: dead primaries dropped.
  datatype Pump =
    | Idle
    | Admitted(event: SessionEvent)
    | Registered(event: SessionEvent, targets: seq<nat>)
    | Delivering(event: SessionEvent, targets: seq<nat>)

  datatype State = State(
    own: nat,                                // the generation this pump was started for
    generation: nat,                         // the session's current generation
    incoming: seq<SessionEvent>,
    pump: Pump,
    subs: seq<Sub>,
    listed: seq<nat>,                        // the session's subscriber list
    pending: map<nat, seq<SessionEvent>>,
    primaries: map<Option<nat>, nat>,
    dropped: nat,
    history: seq<SessionEvent>,              // events whose critical section has run
    unclaimed: map<nat, seq<SessionEvent>>)  // per channel, those no pane subscriber was there for

  datatype Action =
    | Arrive(event: SessionEvent)
    | Admit
    | Register
    | DropDeadPrimaries
    | Deliver
    | Finish
    | Subscribe(filter: Option<nat>)
    | Consume(i: nat)
    | Close(i: nat)
    | NewGeneration
    | ClearSession

  const EVENT_BUFFER := 512

  function Max(a: nat, b: nat): nat { if a < b then b else a }

  predicate Matches(filter: Option<nat>, event: SessionEvent) {
    filter.None? || event.Channel() == filter
  }

  function Matching(events: seq<SessionEvent>, filter: Option<nat>): seq<SessionEvent> {
    if events == [] then []
    else
      var last := events[|events| - 1];
      Matching(events[..|events| - 1], filter) + (if Matches(filter, last) then [last] else [])
  }

  function Get(m: map<nat, seq<SessionEvent>>, channel: nat): seq<SessionEvent> {
    if channel in m then m[channel] else []
  }

  function OpenOnly(subs: seq<Sub>, ids: seq<nat>): seq<nat> {
    if ids == [] then []
    else
      var last := ids[|ids| - 1];
      OpenOnly(subs, ids[..|ids| - 1]) + (if last < |subs| && subs[last].open then [last] else [])
  }

  predicate HasSubscriber(subs: seq<Sub>, ids: seq<nat>, filter: Option<nat>) {
    exists k | 0 <= k < |ids| :: ids[k] < |subs| && subs[ids[k]].open && subs[ids[k]].filter == filter
  }

  function SendTo(sub: Sub, event: SessionEvent): Sub { sub.(queue := sub.queue + [event]) }

  // A newcomer ends the time another open subscriber had its filter for itself.
  function Unsole(subs: seq<Sub>, filter: Option<nat>): seq<Sub> {
    seq(|subs|, i requires 0 <= i < |subs| =>
      if subs[i].open && subs[i].filter == filter then subs[i].(sole := false) else subs[i])
  }

  predicate Full(sub: Sub) { |sub.queue| >= sub.capacity }

  // The target at hand is sent to with backpressure, not as a best-effort mirror.
  predicate Reliable(s: State, target: nat)
    requires target < |s.subs|
  {
    var filter := s.subs[target].filter;
    filter in s.primaries ==> s.primaries[filter] == target
  }

  predicate Enabled(s: State, a: Action) {
    match a
    case Arrive(_) => true
    case Admit => s.pump.Idle? && s.incoming != []
    case Register => s.pump.Admitted?
    case DropDeadPrimaries => s.pump.Registered?
    case Deliver =>
      && s.pump.Delivering? && s.pump.targets != [] && s.pump.targets[0] < |s.subs|
      // A reliable send to an open, full queue waits.
      && var sub := s.subs[s.pump.targets[0]];
      && (Matches(sub.filter, s.pump.event) && sub.open && Full(sub) ==> !Reliable(s, s.pump.targets[0]))
    case Finish => s.pump.Delivering? && s.pump.targets == []
    case Subscribe(_) => true
    case Consume(i) => i < |s.subs| && s.subs[i].open && s.subs[i].queue != []
    case Close(i) => i < |s.subs| && s.subs[i].open
    case NewGeneration => true
    case ClearSession => s.generation > s.own
  }

  function RegisterEvent(s: State): State
    requires s.pump.Admitted?
  {
    var event := s.pump.event;
    var listed := OpenOnly(s.subs, s.listed);
    var buffered := event.Channel().Some? && !HasSubscriber(s.subs, listed, event.Channel());
    State(s.own, s.generation, s.incoming, Registered(event, listed), s.subs, listed,
          if buffered then s.pending[event.channel := Window(Get(s.pending, event.channel) + [event])] else s.pending,
          s.primaries, s.dropped, s.history + [event],
          if buffered then s.unclaimed[event.channel := Get(s.unclaimed, event.channel) + [event]] else s.unclaimed)
  }

  function DeliverNext(s: State): State
    requires Enabled(s, Deliver)
  {
    var event, target := s.pump.event, s.pump.targets[0];
    var sub := s.subs[target];
    var t := s.(pump := Delivering(event, s.pump.targets[1..]));
    if !Matches(sub.filter, event) then t
    else if Reliable(s, target) then
      if sub.open then t.(subs := s.subs[target := SendTo(sub, event)], primaries := s.primaries[sub.filter := target])
      else t.(primaries := s.primaries - {sub.filter})
    else if sub.open && !Full(sub) then t.(subs := s.subs[target := SendTo(sub, event)])
    else t.(dropped := s.dropped + 1)
  }

  function SubscribeTo(s: State, filter: Option<nat>): State {
    var replay := if filter.Some? then Get(s.pending, filter.value) else [];
    var sole := !HasSubscriber(s.subs, s.listed, filter);
    var sub := Sub(filter, Max(EVENT_BUFFER, |replay| + 8), replay, [], true, replay, |s.history|, sole);
    var keep := if filter.Some? then {filter.value} else {};
    s.(subs := Unsole(s.subs, filter) + [sub], listed := s.listed + [|s.subs|],
       pending := s.pending - keep, unclaimed := s.unclaimed - keep)
  }

  function Step(s: State, a: Action): State {
    if !Enabled(s, a) then s else
    match a
    case Arrive(event) => s.(incoming := s.incoming + [event])
    case Admit =>
      s.(incoming := s.incoming[1..], pump := if s.generation == s.own then Admitted(s.incoming[0]) else Idle)
    case Register => RegisterEvent(s)
    case DropDeadPrimaries =>
      s.(pump := Delivering(s.pump.event, s.pump.targets),
         primaries := map filter | filter in s.primaries && s.primaries[filter] < |s.subs|
                                && s.subs[s.primaries[filter]].open :: s.primaries[filter])
    case Deliver => DeliverNext(s)
    case Finish => s.(pump := Idle)
    case Subscribe(filter) => SubscribeTo(s, filter)
    case Consume(i) =>
      var sub := s.subs[i];
      s.(subs := s.subs[i := sub.(queue := sub.queue[1..], consumed := sub.consumed + [sub.queue[0]])])
    case Close(i) => s.(subs := s.subs[i := s.subs[i].(open := false)])
    case NewGeneration => s.(generation := s.generation + 1)
    case ClearSession => s.(listed := [], pending := map[], unclaimed := map[])
  }

  function Exec(s: State, run: seq<Action>): State
    decreases |run|
  {
    if run == [] then s else Exec(Step(s, run[0]), run[1..])
  }

  function Init(generation: nat): State {
    State(generation, generation, [], Idle, [], [], map[], map[], 0, [], map[])
  }

  // ---------------------------------------------------------------- exactly once

  // What is still on its way to subscriber `i`.
  function InFlight(s: State, i: nat): seq<SessionEvent>
    requires i < |s.subs|
  {
    if (s.pump.Registered? || s.pump.Delivering?) && i in s.pump.targets && Matches(s.subs[i].filter, s.pump.event)
    then [s.pump.event] else []
  }

  function Expected(s: State, i: nat): seq<SessionEvent>
    requires i < |s.subs| && s.subs[i].since <= |s.history|
  {
    s.subs[i].replay + Matching(s.history[s.subs[i].since..], s.subs[i].filter)
  }

  ghost predicate Claimed(s: State, i: nat) {
    i < |s.subs| && s.subs[i].open && s.subs[i].sole
  }

  ghost predicate DeliveredOnce(s: State, i: nat) {
    && i < |s.subs| && s.subs[i].since <= |s.history|
    && s.subs[i].Received() + InFlight(s, i) == Expected(s, i)
  }

  function Targets(s: State): seq<nat> {
    if s.pump.Registered? || s.pump.Delivering? then s.pump.targets else []
  }

  ghost predicate DistinctIds(count: nat, ids: seq<nat>) {
    && (forall k | 0 <= k < |ids| :: ids[k] < count)
    && (forall j, k | 0 <= j < k < |ids| :: ids[j] != ids[k])
  }

  ghost predicate IdsInv(s: State) {
    DistinctIds(|s.subs|, s.listed) && DistinctIds(|s.subs|, Targets(s))
  }

  ghost predicate OpenListed(s: State) {
    forall i | 0 <= i < |s.subs| && s.subs[i].open :: i in s.listed
  }

  // A sole subscriber is the only open one with its filter.
  ghost predicate SoleAlone(s: State) {
    forall i: nat, j: nat | Claimed(s, i) && j < |s.subs| && s.subs[j].open && j != i ::
      s.subs[j].filter != s.subs[i].filter
  }

  ghost predicate PrimariesInv(s: State) {
    forall filter | filter in s.primaries ::
      s.primaries[filter] < |s.subs| && s.subs[s.primaries[filter]].filter == filter
  }

  // Among the targets of the event on its way it is the only one, open or not.
  ghost predicate TargetsAlone(s: State) {
    forall i: nat, j: nat | Claimed(s, i) && i in Targets(s) && j in Targets(s) && j != i && j < |s.subs| ::
      s.subs[j].filter != s.subs[i].filter
  }

  // Nothing stands between a sole target and a reliable send.
  ghost predicate TargetsReliable(s: State) {
    s.pump.Delivering? ==> forall i: nat | Claimed(s, i) && i in Targets(s) :: Reliable(s, i)
  }

  ghost predicate ListInv(s: State) {
    && IdsInv(s) && OpenListed(s) && SoleAlone(s) && PrimariesInv(s) && TargetsAlone(s) && TargetsReliable(s)
  }

  ghost predicate OnceInv(s: State) {
    forall i: nat | Claimed(s, i) :: DeliveredOnce(s, i)
  }

  // Each pane buffer is the longest fitting suffix of what nobody has claimed yet.
  ghost predicate BufferInv(s: State) {
    && s.pending.Keys == s.unclaimed.Keys
    && forall channel | channel in s.pending :: s.pending[channel] == Window(s.unclaimed[channel])
  }

  ghost predicate Inv(s: State) {
    ListInv(s) && OnceInv(s) && BufferInv(s)
  }

  lemma {:induction false} OpenOnlyIs(subs: seq<Sub>, ids: seq<nat>)
    requires DistinctIds(|subs|, ids)
    ensures var r := OpenOnly(subs, ids);
            && DistinctIds(|subs|, r)
            && forall i: nat :: i in r <==> i in ids && i < |subs| && subs[i].open
  {
    if ids != [] {
      OpenOnlyIs(subs, ids[..|ids| - 1]);
      assert ids == ids[..|ids| - 1] + [ids[|ids| - 1]];
    }
  }

  lemma MatchingSnoc(history: seq<SessionEvent>, since: nat, event: SessionEvent, filter: Option<nat>)
    requires since <= |history|
    ensures Matching((history + [event])[since..], filter)
         == Matching(history[since..], filter) + (if Matches(filter, event) then [event] else [])
  {
    var later := (history + [event])[since..];
    assert later[..|later| - 1] == history[since..];
  }

  // No step but Subscribe adds a subscriber, none changes a filter, reopens one or
  // makes one sole again.
  ghost predicate SameSubs(s: State, t: State) {
    && |s.subs| <= |t.subs|
    && forall i | 0 <= i < |s.subs| ::
         && t.subs[i].filter == s.subs[i].filter
         && (t.subs[i].open ==> s.subs[i].open) && (t.subs[i].sole ==> s.subs[i].sole)
  }

  lemma StepKeepsSubs(s: State, a: Action)
    ensures SameSubs(s, Step(s, a))
    ensures !(Enabled(s, a) && a.Subscribe?) ==> |Step(s, a).subs| == |s.subs|
  {
  }

  lemma StepKeepsIds(s: State, a: Action)
    requires IdsInv(s)
    ensures IdsInv(Step(s, a))
  {
    StepKeepsSubs(s, a);
    if a.Register? && Enabled(s, a) {
      OpenOnlyIs(s.subs, s.listed);
    } else {
      TargetsOrTail(s, a);
    }
  }

  lemma TargetsOrTail(s: State, a: Action)
    requires !(a.Register? && Enabled(s, a))
    ensures || Targets(Step(s, a)) == Targets(s) || Targets(Step(s, a)) == []
            || (Targets(s) != [] && Targets(Step(s, a)) == Targets(s)[1..])
  {
  }

  lemma StepKeepsOpenListed(s: State, a: Action)
    requires IdsInv(s) && OpenListed(s) && !(Enabled(s, a) && a.ClearSession?)
    ensures OpenListed(Step(s, a))
  {
    var t := Step(s, a);
    StepKeepsSubs(s, a);
    if a.Register? && Enabled(s, a) { OpenOnlyIs(s.subs, s.listed); }
    if a.Subscribe? { assert t.listed[|s.listed|] == |s.subs|; }
    forall i | 0 <= i < |t.subs| && t.subs[i].open ensures i in t.listed {
      if i < |s.subs| { assert i in s.listed; }
    }
  }

  lemma StepKeepsSoleAlone(s: State, a: Action)
    requires OpenListed(s) && SoleAlone(s)
    ensures SoleAlone(Step(s, a))
  {
    var t := Step(s, a);
    StepKeepsSubs(s, a);
    forall i: nat, j: nat | Claimed(t, i) && j < |t.subs| && t.subs[j].open && j != i
      ensures t.subs[j].filter != t.subs[i].filter
    {
      if i < |s.subs| && j < |s.subs| {
        assert Claimed(s, i) && s.subs[j].open;
      } else if a.Subscribe? {
        NewcomerEndsSole(s, a.filter, i, j);
      }
    }
  }

  lemma NewcomerEndsSole(s: State, filter: Option<nat>, i: nat, j: nat)
    requires OpenListed(s) && i != j && (i == |s.subs| || j == |s.subs|)
    requires var t := SubscribeTo(s, filter); Claimed(t, i) && j < |t.subs| && t.subs[j].open
    ensures var t := SubscribeTo(s, filter); t.subs[j].filter != t.subs[i].filter
  {
    if i == |s.subs| {
      assert s.subs[j].open && j in s.listed;
    }
  }

  lemma StepKeepsPrimaries(s: State, a: Action)
    requires PrimariesInv(s)
    ensures PrimariesInv(Step(s, a))
  {
    var t := Step(s, a);
    StepKeepsSubs(s, a);
    forall filter | filter in t.primaries
      ensures t.primaries[filter] < |t.subs| && t.subs[t.primaries[filter]].filter == filter
    {
      PrimaryIsOldOrSent(s, a, filter);
    }
  }

  lemma PrimaryIsOldOrSent(s: State, a: Action, filter: Option<nat>)
    requires filter in Step(s, a).primaries
    ensures var primary := Step(s, a).primaries[filter];
            || (filter in s.primaries && primary == s.primaries[filter])
            || (primary < |s.subs| && s.subs[primary].filter == filter)
  {
  }

  lemma StepKeepsTargetsAlone(s: State, a: Action)
    requires IdsInv(s) && SoleAlone(s) && TargetsAlone(s)
    ensures TargetsAlone(Step(s, a))
  {
    var t := Step(s, a);
    StepKeepsSubs(s, a);
    if a.Register? && Enabled(s, a) {
      OpenOnlyIs(s.subs, s.listed);
    } else {
      TargetsOnlyShrink(s, a);
    }
    forall i: nat, j: nat | Claimed(t, i) && i in Targets(t) && j in Targets(t) && j != i && j < |t.subs|
      ensures t.subs[j].filter != t.subs[i].filter
    {
      assert i < |s.subs| && j < |s.subs| && Claimed(s, i);
    }
  }

  lemma TargetsOnlyShrink(s: State, a: Action)
    requires IdsInv(s) && !(a.Register? && Enabled(s, a))
    ensures forall i: nat | i in Targets(Step(s, a)) :: i in Targets(s) && i < |s.subs|
  {
  }

  // Dropping dead primaries leaves a sole target with no rival.
  lemma NoRivalPrimary(s: State, i: nat)
    requires SoleAlone(s) && PrimariesInv(s) && s.pump.Registered? && Claimed(s, i)
    ensures Reliable(Step(s, DropDeadPrimaries), i)
  {
    var t := Step(s, DropDeadPrimaries);
    var filter := s.subs[i].filter;
    if filter in t.primaries {
      var rival := s.primaries[filter];
      assert s.subs[rival].open && s.subs[rival].filter == filter;
    }
  }

  lemma StaysReliable(s: State, i: nat)
    requires TargetsAlone(s) && Enabled(s, Deliver) && Claimed(s, i) && i in Targets(s)
    requires i != s.pump.targets[0] && Reliable(s, i)
    ensures Reliable(DeliverNext(s), i)
  {
    assert s.pump.targets[0] in Targets(s);
    assert DeliverNext(s).subs[i] == s.subs[i];
  }

  lemma StepKeepsTargetsReliable(s: State, a: Action)
    requires IdsInv(s) && SoleAlone(s) && PrimariesInv(s) && TargetsAlone(s) && TargetsReliable(s)
    ensures TargetsReliable(Step(s, a))
  {
    var t := Step(s, a);
    StepKeepsSubs(s, a);
    if t.pump.Delivering? && Enabled(s, a) {
      TargetsOnlyShrink(s, a);
      forall i: nat | Claimed(t, i) && i in Targets(t) ensures Reliable(t, i) {
        assert i < |s.subs| && Claimed(s, i) && i in Targets(s);
        if a.DropDeadPrimaries? { NoRivalPrimary(s, i); }
        else if a.Deliver? { StaysReliable(s, i); }
        else { assert t.primaries == s.primaries && s.pump.Delivering?; }
      }
    }
  }

  // ---- the event on its way, subscriber by subscriber

  lemma RegisterKeepsOnce(s: State, i: nat)
    requires IdsInv(s) && OpenListed(s) && s.pump.Admitted? && Claimed(s, i) && DeliveredOnce(s, i)
    ensures DeliveredOnce(RegisterEvent(s), i)
  {
    var t := RegisterEvent(s);
    OpenOnlyIs(s.subs, s.listed);
    assert i in s.listed && i in t.listed;
    MatchingSnoc(s.history, s.subs[i].since, s.pump.event, s.subs[i].filter);
    assert Expected(t, i) == Expected(s, i) + InFlight(t, i);
    assert s.subs[i].Received() + [] == s.subs[i].Received();
  }

  // A sole subscriber is sent to reliably: it gets the event exactly here.
  lemma DeliverKeepsOnce(s: State, i: nat)
    requires IdsInv(s) && TargetsReliable(s) && Enabled(s, Deliver) && Claimed(s, i) && DeliveredOnce(s, i)
    ensures DeliveredOnce(DeliverNext(s), i)
  {
    var t := DeliverNext(s);
    var target := s.pump.targets[0];
    assert s.pump.targets == [target] + t.pump.targets;
    if i == target {
      assert i in Targets(s) && Reliable(s, i);
      assert i !in t.pump.targets;
    } else {
      assert InFlight(t, i) == InFlight(s, i) && t.subs[i] == s.subs[i];
    }
  }

  lemma SubscribeKeepsOnce(s: State, filter: Option<nat>, i: nat)
    requires IdsInv(s) && OnceInv(s) && Claimed(SubscribeTo(s, filter), i)
    ensures DeliveredOnce(SubscribeTo(s, filter), i)
  {
    var t := SubscribeTo(s, filter);
    if i < |s.subs| {
      assert Claimed(s, i) && DeliveredOnce(s, i);
      assert InFlight(t, i) == InFlight(s, i);
    } else {
      assert i !in Targets(t);
      assert Matching(t.history[|t.history|..], filter) == [];
    }
  }

  lemma OtherKeepsOnce(s: State, a: Action, i: nat)
    requires !a.Register? && !a.Deliver? && !a.Subscribe? && i < |s.subs| && DeliveredOnce(s, i)
    ensures DeliveredOnce(Step(s, a), i)
  {
    OtherKeepsReceived(s, a, i);
  }

  lemma OtherKeepsReceived(s: State, a: Action, i: nat)
    requires !a.Register? && !a.Deliver? && !a.Subscribe? && i < |s.subs|
    ensures var t := Step(s, a);
            && |t.subs| == |s.subs| && t.history == s.history
            && t.subs[i].Received() == s.subs[i].Received() && t.subs[i].filter == s.subs[i].filter
            && t.subs[i].replay == s.subs[i].replay && t.subs[i].since == s.subs[i].since
            && InFlight(t, i) == InFlight(s, i)
  {
    if a.Consume? && a.i == i && Enabled(s, a) {
      assert s.subs[i].queue == [s.subs[i].queue[0]] + s.subs[i].queue[1..];
    }
  }

  lemma StepKeepsOnce(s: State, a: Action)
    requires ListInv(s) && OnceInv(s)
    ensures OnceInv(Step(s, a))
  {
    var t := Step(s, a);
    StepKeepsSubs(s, a);
    forall i: nat | Claimed(t, i) ensures DeliveredOnce(t, i) {
      assert i < |s.subs| ==> Claimed(s, i) && DeliveredOnce(s, i);
      if Enabled(s, a) {
        if a.Register? { RegisterKeepsOnce(s, i); }
        else if a.Deliver? { DeliverKeepsOnce(s, i); }
        else if a.Subscribe? { SubscribeKeepsOnce(s, a.filter, i); }
        else { OtherKeepsOnce(s, a, i); }
      }
    }
  }

  lemma StepKeepsBuffer(s: State, a: Action)
    requires BufferInv(s)
    ensures BufferInv(Step(s, a))
  {
    if a.Register? && Enabled(s, a) && s.pump.event.Channel().Some? {
      var event := s.pump.event;
      WindowOfWindow(Get(s.unclaimed, event.channel), event);
    }
  }

  lemma StepKeepsInv(s: State, a: Action)
    requires Inv(s) && !(Enabled(s, a) && a.ClearSession?)
    ensures Inv(Step(s, a))
  {
    StepKeepsIds(s, a);
    StepKeepsOpenListed(s, a);
    StepKeepsSoleAlone(s, a);
    StepKeepsPrimaries(s, a);
    StepKeepsTargetsAlone(s, a);
    StepKeepsTargetsReliable(s, a);
    StepKeepsOnce(s, a);
    StepKeepsBuffer(s, a);
  }

  ghost predicate WhileCurrent(s: State) {
    s.own <= s.generation && (s.own == s.generation ==> Inv(s))
  }

  lemma StepKeepsGenerations(s: State, a: Action)
    ensures Step(s, a).own == s.own && s.generation <= Step(s, a).generation
    ensures Enabled(s, a) && a.ClearSession? ==> s.own < s.generation
  {
  }

  lemma {:induction false} RunKeepsInv(s: State, run: seq<Action>)
    requires WhileCurrent(s)
    ensures WhileCurrent(Exec(s, run))
    decreases |run|
  {
    if run != [] {
      StepKeepsGenerations(s, run[0]);
      if s.own == s.generation { StepKeepsInv(s, run[0]); }
      RunKeepsInv(Step(s, run[0]), run[1..]);
    }
  }

  // ---------------------------------------------------------------- what a run delivers

  predicate Listening(s: State, filter: Option<nat>) {
    exists i | 0 <= i < |s.subs| :: s.subs[i].open && s.subs[i].filter == filter
  }

  // The channel's events that no pane subscriber was there for, since one last subscribed:
  // told from the steps of the run and who was listening.
  function UnclaimedIn(s: State, run: seq<Action>, channel: nat, unclaimed: seq<SessionEvent>): seq<SessionEvent>
    decreases |run|
  {
    if run == [] then unclaimed
    else UnclaimedIn(Step(s, run[0]), run[1..], channel, UnclaimedAfter(s, run[0], channel, unclaimed))
  }

  function UnclaimedAfter(s: State, a: Action, channel: nat, unclaimed: seq<SessionEvent>): seq<SessionEvent> {
    if a == Action.Subscribe(Some(channel)) then []
    else if a.Register? && Enabled(s, a) && s.pump.event.Channel() == Some(channel) && !Listening(s, Some(channel)) then
      unclaimed + [s.pump.event]
    else unclaimed
  }

  lemma ListenerIsListed(s: State, filter: Option<nat>)
    requires IdsInv(s) && OpenListed(s)
    ensures HasSubscriber(s.subs, s.listed, filter) <==> Listening(s, filter)
    ensures HasSubscriber(s.subs, OpenOnly(s.subs, s.listed), filter) <==> Listening(s, filter)
  {
    OpenOnlyIs(s.subs, s.listed);
    if i: nat :| i < |s.subs| && s.subs[i].open && s.subs[i].filter == filter {
      assert i in s.listed && i in OpenOnly(s.subs, s.listed);
    }
  }

  lemma StepUnclaimed(s: State, a: Action, channel: nat)
    requires IdsInv(s) && OpenListed(s) && !(Enabled(s, a) && a.ClearSession?)
    ensures Get(Step(s, a).unclaimed, channel) == UnclaimedAfter(s, a, channel, Get(s.unclaimed, channel))
  {
    ListenerIsListed(s, Some(channel));
  }

  lemma {:induction false} GenerationsGrow(s: State, run: seq<Action>)
    ensures Exec(s, run).own == s.own && s.generation <= Exec(s, run).generation
    decreases |run|
  {
    if run != [] {
      StepKeepsGenerations(s, run[0]);
      GenerationsGrow(Step(s, run[0]), run[1..]);
    }
  }

  ghost predicate StaysCurrent(s: State, run: seq<Action>) {
    s.own <= s.generation && Exec(s, run).own == Exec(s, run).generation
  }

  lemma CurrentNow(s: State, run: seq<Action>)
    requires StaysCurrent(s, run)
    ensures s.own == s.generation
    ensures run != [] ==> StaysCurrent(Step(s, run[0]), run[1..]) && !(Enabled(s, run[0]) && run[0].ClearSession?)
  {
    GenerationsGrow(s, run);
    if run != [] { StepKeepsGenerations(s, run[0]); }
  }

  lemma {:induction false} RunUnclaimed(s: State, run: seq<Action>, channel: nat)
    requires WhileCurrent(s) && StaysCurrent(s, run)
    ensures Get(Exec(s, run).unclaimed, channel) == UnclaimedIn(s, run, channel, Get(s.unclaimed, channel))
    decreases |run|
  {
    CurrentNow(s, run);
    if run != [] {
      StepKeepsInv(s, run[0]);
      StepUnclaimed(s, run[0], channel);
      RunUnclaimed(Step(s, run[0]), run[1..], channel);
    }
  }

  ghost predicate NeverSubscribes(run: seq<Action>, filter: Option<nat>) {
    forall k | 0 <= k < |run| :: run[k] != Action.Subscribe(filter)
  }

  // With no subscriber ever, everything of the channel is unclaimed.
  lemma {:induction false} NobodyYet(s: State, run: seq<Action>, channel: nat)
    requires NeverSubscribes(run, Some(channel)) && forall i | 0 <= i < |s.subs| :: s.subs[i].filter != Some(channel)
    ensures UnclaimedIn(s, run, channel, Matching(s.history, Some(channel)))
            == Matching(Exec(s, run).history, Some(channel))
    decreases |run|
  {
    if run != [] {
      var t := Step(s, run[0]);
      StepKeepsSubs(s, run[0]);
      HistoryStep(s, run[0], channel);
      assert forall k | 0 <= k < |run[1..]| :: run[1..][k] == run[k + 1];
      NobodyYet(t, run[1..], channel);
    }
  }

  lemma HistoryStep(s: State, a: Action, channel: nat)
    requires a != Action.Subscribe(Some(channel)) && !Listening(s, Some(channel))
    ensures UnclaimedAfter(s, a, channel, Matching(s.history, Some(channel)))
            == Matching(Step(s, a).history, Some(channel))
  {
    if a.Register? && Enabled(s, a) {
      MatchingSnoc(s.history, 0, s.pump.event, Some(channel));
      assert (s.history + [s.pump.event])[0..] == s.history + [s.pump.event] && s.history[0..] == s.history;
    }
  }

  // The events that reach the transport in a run, and where the pump has them.
  function Arrivals(run: seq<Action>): seq<SessionEvent>
    decreases |run|
  {
    if run == [] then [] else (if run[0].Arrive? then [run[0].event] else []) + Arrivals(run[1..])
  }

  function Seen(s: State): seq<SessionEvent> {
    s.history + (if s.pump.Admitted? then [s.pump.event] else []) + s.incoming
  }

  lemma StepSees(s: State, a: Action)
    requires s.own == s.generation
    ensures Seen(Step(s, a)) == Seen(s) + (if a.Arrive? then [a.event] else [])
  {
    if a.Arrive? {
      assert Seen(s) + [a.event] == Seen(Step(s, a));
    } else if a.Admit? && Enabled(s, a) {
      assert s.incoming == [s.incoming[0]] + s.incoming[1..];
    } else if !a.Register? {
      OthersSeeNothing(s, a);
    }
  }

  lemma OthersSeeNothing(s: State, a: Action)
    requires !a.Arrive? && !(a.Admit? && Enabled(s, a)) && !a.Register?
    ensures Seen(Step(s, a)) == Seen(s)
  {
  }

  lemma Associative(a: seq<SessionEvent>, b: seq<SessionEvent>, c: seq<SessionEvent>)
    ensures a + b + c == a + (b + c)
  {
  }

  // A pump that stays current passes on all that arrives, in order.
  lemma {:induction false} RunSees(s: State, run: seq<Action>)
    requires StaysCurrent(s, run)
    ensures Seen(Exec(s, run)) == Seen(s) + Arrivals(run)
    decreases |run|
  {
    CurrentNow(s, run);
    if run != [] {
      var t := Step(s, run[0]);
      StepSees(s, run[0]);
      RunSees(t, run[1..]);
      Associative(Seen(s), if run[0].Arrive? then [run[0].event] else [], Arrivals(run[1..]));
    }
  }

  lemma StepKeepsSub(s: State, a: Action, i: nat)
    requires i < |s.subs| && a != Action.Subscribe(s.subs[i].filter)
    ensures var t := Step(s, a);
            && i < |t.subs| && t.subs[i].filter == s.subs[i].filter && t.subs[i].sole == s.subs[i].sole
            && t.subs[i].replay == s.subs[i].replay && t.subs[i].since == s.subs[i].since
  {
  }

  lemma StepKeepsHistory(s: State, a: Action)
    ensures |s.history| <= |Step(s, a).history| && Step(s, a).history[..|s.history|] == s.history
  {
  }

  lemma {:induction false} RunKeepsSub(s: State, run: seq<Action>, i: nat)
    requires i < |s.subs| && NeverSubscribes(run, s.subs[i].filter)
    ensures var t := Exec(s, run);
            && i < |t.subs| && t.subs[i].filter == s.subs[i].filter && t.subs[i].sole == s.subs[i].sole
            && t.subs[i].replay == s.subs[i].replay && t.subs[i].since == s.subs[i].since
            && |s.history| <= |t.history| && t.history[..|s.history|] == s.history
    decreases |run|
  {
    if run != [] {
      var t := Step(s, run[0]);
      StepKeepsSub(s, run[0], i);
      StepKeepsHistory(s, run[0]);
      assert forall k | 0 <= k < |run[1..]| :: run[1..][k] == run[k + 1];
      RunKeepsSub(t, run[1..], i);
    }
  }

  // What a new subscriber is handed: for a pane, the bounded suffix of what nobody was there for.
  function Replayed(generation: nat, before: seq<Action>, filter: Option<nat>): seq<SessionEvent> {
    if filter.Some? then Window(UnclaimedIn(Init(generation), before, filter.value, [])) else []
  }

  // Replay never overflows the new queue, and is that suffix.
  lemma ReplayIsBoundedWindow(generation: nat, before: seq<Action>, filter: Option<nat>)
    requires StaysCurrent(Init(generation), before)
    ensures var s := Exec(Init(generation), before);
            var t := Step(s, Action.Subscribe(filter));
            && |t.subs| == |s.subs| + 1 && t.dropped == s.dropped
            && t.subs[|s.subs|].filter == filter && t.subs[|s.subs|].open
            && t.subs[|s.subs|].queue == t.subs[|s.subs|].replay == Replayed(generation, before, filter)
            && |t.subs[|s.subs|].queue| < t.subs[|s.subs|].capacity && t.subs[|s.subs|].capacity >= 512
  {
    RunKeepsInv(Init(generation), before);
    if filter.Some? { RunUnclaimed(Init(generation), before, filter.value); }
  }

  // A subscriber that nobody else shares its filter with, for as long as it is open and the
  // pump current, has received, with what is on its way to it, its replay and then every event
  // of its filter handled since, in order, none lost and none twice; and all that arrived has
  // been handled or still waits, in order.
  lemma ExactlyOnceDelivery(generation: nat, before: seq<Action>, filter: Option<nat>, after: seq<Action>)
    requires var s := Exec(Init(generation), before);
             var t := Exec(Step(s, Action.Subscribe(filter)), after);
             && !Listening(s, filter) && NeverSubscribes(after, filter)
             && t.own == t.generation && (|s.subs| < |t.subs| ==> t.subs[|s.subs|].open)
    ensures var s := Exec(Init(generation), before);
            var t, i := Exec(Step(s, Action.Subscribe(filter)), after), |s.subs|;
            && i < |t.subs| && |s.history| <= |t.history|
            && t.subs[i].Received() + InFlight(t, i)
               == Replayed(generation, before, filter) + Matching(t.history[|s.history|..], filter)
            && Seen(s) == Arrivals(before) && Seen(t) == Arrivals(before) + Arrivals(after)
  {
    var s := Exec(Init(generation), before);
    var u, i := Step(s, Action.Subscribe(filter)), |s.subs|;
    var t := Exec(u, after);
    GenerationsGrow(Init(generation), before);
    GenerationsGrow(u, after);
    ReplayIsBoundedWindow(generation, before, filter);
    RunKeepsInv(Init(generation), before);
    StepKeepsInv(s, Action.Subscribe(filter));
    SubscribedAlone(s, filter);
    RunKeepsInv(u, after);
    RunKeepsSub(u, after, i);
    assert DeliveredOnce(t, i);
    RunSees(Init(generation), before);
    StepSees(s, Action.Subscribe(filter));
    RunSees(u, after);
  }

  lemma SubscribedAlone(s: State, filter: Option<nat>)
    requires IdsInv(s) && OpenListed(s) && !Listening(s, filter)
    ensures var u := Step(s, Action.Subscribe(filter));
            u.subs[|s.subs|].sole && u.subs[|s.subs|].since == |s.history| && u.history == s.history
  {
    ListenerIsListed(s, filter);
  }

  // So a pane's first subscriber gets the bounded suffix of all the channel's events before it,
  // and all of them after it.
  lemma FirstSubscriberMissesOnlyTheOldest(generation: nat, before: seq<Action>, channel: nat, after: seq<Action>)
    requires NeverSubscribes(before, Some(channel)) && NeverSubscribes(after, Some(channel))
    requires var s := Exec(Init(generation), before);
             var t := Exec(Step(s, Action.Subscribe(Some(channel))), after);
             t.own == t.generation && (|s.subs| < |t.subs| ==> t.subs[|s.subs|].open)
    ensures var s := Exec(Init(generation), before);
            var t, i := Exec(Step(s, Action.Subscribe(Some(channel))), after), |s.subs|;
            && i < |t.subs| && |s.history| <= |t.history|
            && t.subs[i].Received() + InFlight(t, i)
               == Window(Matching(s.history, Some(channel))) + Matching(t.history[|s.history|..], Some(channel))
  {
    NobodyYet(Init(generation), before, channel);
    NoSuchSubscriber(Init(generation), before, Some(channel));
    ExactlyOnceDelivery(generation, before, Some(channel), after);
  }

  lemma {:induction false} NoSuchSubscriber(s: State, run: seq<Action>, filter: Option<nat>)
    requires NeverSubscribes(run, filter) && forall i | 0 <= i < |s.subs| :: s.subs[i].filter != filter
    ensures forall i | 0 <= i < |Exec(s, run).subs| :: Exec(s, run).subs[i].filter != filter
    decreases |run|
  {
    if run != [] {
      var t := Step(s, run[0]);
      StepKeepsSubs(s, run[0]);
      assert forall k | 0 <= k < |run[1..]| :: run[1..][k] == run[k + 1];
      NoSuchSubscriber(t, run[1..], filter);
    }
  }

  // Consuming takes the oldest event of the queue; closing ends one subscription; a new
  // generation counts up; clearing the session forgets its subscribers and buffers.
  lemma SubscriberSteps(s: State, i: nat)
    ensures Enabled(s, Consume(i)) ==>
              var t := Step(s, Consume(i));
              && t.subs[i].consumed == s.subs[i].consumed + [s.subs[i].queue[0]]
              && t.subs[i].queue == s.subs[i].queue[1..]
    ensures Enabled(s, Close(i)) ==> Step(s, Close(i)).subs == s.subs[i := s.subs[i].(open := false)]
    ensures Step(s, NewGeneration).generation == s.generation + 1
    ensures Enabled(s, ClearSession) ==>
              var t := Step(s, ClearSession); t.listed == [] && t.pending == map[] && t.subs == s.subs
  {
  }

  lemma {:induction false} ExecAppend(s: State, first: seq<Action>, second: seq<Action>)
    ensures Exec(s, first + second) == Exec(Exec(s, first), second)
    decreases |first|
  {
    if first == [] {
      assert first + second == second;
    } else {
      assert (first + second)[1..] == first[1..] + second;
      ExecAppend(Step(s, first[0]), first[1..], second);
    }
  }

  lemma And(s: State, before: seq<Action>, t: State, a: Action) returns (run: seq<Action>, u: State)
    requires t == Exec(s, before)
    ensures run == before + [a] && u == Step(t, a) == Exec(s, run)
  {
    run, u := before + [a], Step(t, a);
    ExecAppend(s, before, [a]);
    assert [a][1..] == [];
    assert Exec(t, [a]) == Exec(Step(t, a), []) == u;
  }

  // No queue ever holds more than its capacity.
  ghost predicate Roomy(s: State) {
    IdsInv(s) && forall i | 0 <= i < |s.subs| ::
      |s.subs[i].queue| <= s.subs[i].capacity && s.subs[i].capacity > 0
  }

  lemma StepKeepsRoomy(s: State, a: Action)
    requires Roomy(s)
    ensures Roomy(Step(s, a))
  {
    StepKeepsIds(s, a);
  }

  lemma {:induction false} RunKeepsRoomy(s: State, run: seq<Action>)
    requires Roomy(s)
    ensures Roomy(Exec(s, run))
    decreases |run|
  {
    if run != [] {
      StepKeepsRoomy(s, run[0]);
      RunKeepsRoomy(Step(s, run[0]), run[1..]);
    }
  }

  // One delivery goes through, after its target has taken an event if it must make room.
  lemma DeliveryCanGoOn(s: State) returns (run: seq<Action>)
    requires Roomy(s) && s.pump.Delivering? && s.pump.targets != []
    ensures var t := Exec(s, run);
            && Roomy(t) && t.pump == Delivering(s.pump.event, s.pump.targets[1..]) && t.incoming == s.incoming
            && t.own == s.own && t.generation == s.generation
  {
    run := [];
    var t, i := s, s.pump.targets[0];
    assert i in Targets(s) && i < |s.subs|;
    if !Enabled(s, Deliver) {
      StepKeepsRoomy(t, Consume(i));
      run, t := And(s, run, t, Consume(i));
      assert t.subs[i].capacity == s.subs[i].capacity && |t.subs[i].queue| == |s.subs[i].queue| - 1 && t.pump == s.pump;
    }
    StepKeepsRoomy(t, Deliver);
    DeliveryIs(t);
    run, t := And(s, run, t, Deliver);
  }

  // The pump never stays stuck on an event: from every such state it can come to be idle.
  lemma {:induction false} DeliveriesCanEnd(s: State) returns (run: seq<Action>)
    requires Roomy(s) && s.pump.Delivering?
    ensures var t := Exec(s, run);
            Roomy(t) && t.pump == Idle && t.incoming == s.incoming && t.own == s.own && t.generation == s.generation
    decreases |s.pump.targets|
  {
    if s.pump.targets == [] {
      var t;
      StepKeepsRoomy(s, Finish);
      run, t := And(s, [], s, Finish);
    } else {
      var first := DeliveryCanGoOn(s);
      var rest := DeliveriesCanEnd(Exec(s, first));
      ExecAppend(s, first, rest);
      run := first + rest;
    }
  }

  lemma PumpCanBeIdle(s: State) returns (run: seq<Action>)
    requires Roomy(s)
    ensures var t := Exec(s, run);
            Roomy(t) && t.pump == Idle && t.incoming == s.incoming && t.own == s.own && t.generation == s.generation
  {
    run := [];
    var t := s;
    if t.pump.Admitted? {
      StepKeepsRoomy(t, Register);
      run, t := And(s, run, t, Register);
    }
    if t.pump.Registered? {
      StepKeepsRoomy(t, DropDeadPrimaries);
      run, t := And(s, run, t, DropDeadPrimaries);
    }
    if t.pump.Delivering? {
      var rest := DeliveriesCanEnd(t);
      ExecAppend(s, run, rest);
      run := run + rest;
    }
  }

  // From every reachable state the pump can catch up with all that has arrived.
  lemma PumpCanCatchUp(generation: nat, before: seq<Action>) returns (run: seq<Action>)
    ensures var t := Exec(Exec(Init(generation), before), run); t.pump == Idle && t.incoming == []
  {
    RunKeepsRoomy(Init(generation), before);
    run := CatchesUp(Exec(Init(generation), before));
  }

  lemma {:induction false} CatchesUp(s: State) returns (run: seq<Action>)
    requires Roomy(s)
    ensures var t := Exec(s, run); t.pump == Idle && t.incoming == []
    decreases |s.incoming|
  {
    run := PumpCanBeIdle(s);
    var t := Exec(s, run);
    if t.incoming != [] {
      StepKeepsRoomy(t, Admit);
      run, t := And(s, run, t, Admit);
      var rest := CatchesUp(t);
      ExecAppend(s, run, rest);
      run := run + rest;
    }
  }

  // What one delivery does to its target and to nobody else: a target of another pane gets
  // nothing, a reliable one the event unless it is gone, a mirror the event if it has room;
  // what a mirror misses is counted.
  lemma DeliveryIs(s: State)
    requires Enabled(s, Deliver)
    ensures var t, i, event := Step(s, Deliver), s.pump.targets[0], s.pump.event;
            var sub := s.subs[i];
            var mirror := sub.filter in s.primaries && s.primaries[sub.filter] != i;
            var wanted := sub.filter.None? || event.Channel() == sub.filter;
            var got := wanted && sub.open && (mirror ==> |sub.queue| < sub.capacity);
            && t.pump == Delivering(event, s.pump.targets[1..]) && |t.subs| == |s.subs|
            && t.subs[i].Received() == sub.Received() + (if got then [event] else [])
            && (forall j | 0 <= j < |s.subs| && j != i :: t.subs[j] == s.subs[j])
            && t.dropped == s.dropped + (if wanted && mirror && !got then 1 else 0)
            && (got && !mirror ==> sub.filter in t.primaries && t.primaries[sub.filter] == i)
            && (wanted && !mirror && !sub.open ==> sub.filter !in t.primaries)
            && (forall filter | filter != sub.filter ::
                  && (filter in t.primaries <==> filter in s.primaries)
                  && (filter in s.primaries ==> t.primaries[filter] == s.primaries[filter]))
  {
  }

  // ---------------------------------------------------------------- stale pumps

  // The one event a pump past its admission check may still hand to subscriber `i`.
  function Owed(s: State, i: nat): seq<SessionEvent> {
    if s.pump.Admitted? || i in Targets(s) then [s.pump.event] else []
  }

  ghost predicate AtMostOwed(s: State, t: State, i: nat) {
    && i < |s.subs| && i < |t.subs|
    && (|| (t.subs[i].Received() == s.subs[i].Received() && (Owed(t, i) == Owed(s, i) || Owed(t, i) == []))
        || (t.subs[i].Received() == s.subs[i].Received() + Owed(s, i) && Owed(t, i) == []))
  }

  lemma StaleDeliver(s: State, i: nat)
    requires IdsInv(s) && Enabled(s, Deliver) && i < |s.subs|
    ensures AtMostOwed(s, DeliverNext(s), i)
  {
    var t := DeliverNext(s);
    assert s.pump.targets == [s.pump.targets[0]] + t.pump.targets;
    if i == s.pump.targets[0] {
      assert i in Targets(s) && i !in Targets(t);
    } else {
      assert t.subs[i] == s.subs[i] && Owed(t, i) == Owed(s, i);
    }
  }

  lemma StaleOther(s: State, a: Action, i: nat)
    requires s.own < s.generation && i < |s.subs| && !a.Deliver?
    ensures AtMostOwed(s, Step(s, a), i)
  {
  }

  lemma StaleStepHistory(s: State, a: Action)
    requires s.own < s.generation
    ensures var t := Step(s, a);
            || (t.history == s.history && (t.pump.Admitted? ==> s.pump == t.pump))
            || (s.pump.Admitted? && t.history == s.history + [s.pump.event] && !t.pump.Admitted?)
  {
    if !(a.Register? && Enabled(s, a)) { OnlyRegisterRecords(s, a); }
  }

  lemma OnlyRegisterRecords(s: State, a: Action)
    requires s.own < s.generation && !(a.Register? && Enabled(s, a))
    ensures Step(s, a).history == s.history && (Step(s, a).pump.Admitted? ==> s.pump == Step(s, a).pump)
  {
  }

  // Once the generation has moved on, whatever happens next: the pump buffers or
  // registers at most the event it had admitted, and no subscriber gets more than that.
  lemma {:induction false} StalePumpIsInert(s: State, run: seq<Action>, i: nat)
    requires s.own < s.generation && IdsInv(s) && i < |s.subs|
    ensures var t := Exec(s, run);
            && i < |t.subs|
            && (|| t.subs[i].Received() == s.subs[i].Received()
                || t.subs[i].Received() == s.subs[i].Received() + Owed(s, i))
            && (|| t.history == s.history
                || (s.pump.Admitted? && t.history == s.history + [s.pump.event]))
    decreases |run|
  {
    if run != [] {
      StepKeepsGenerations(s, run[0]);
      StepKeepsSubs(s, run[0]);
      StepKeepsIds(s, run[0]);
      if !run[0].Deliver? {
        StaleOther(s, run[0], i);
      } else if Enabled(s, Deliver) {
        StaleDeliver(s, i);
      }
      StaleStepHistory(s, run[0]);
      StalePumpIsInert(Step(s, run[0]), run[1..], i);
    }
  }

  lemma {:induction false} RunKeepsIds(s: State, run: seq<Action>)
    requires IdsInv(s)
    ensures IdsInv(Exec(s, run))
    decreases |run|
  {
    if run != [] {
      StepKeepsIds(s, run[0]);
      RunKeepsIds(Step(s, run[0]), run[1..]);
    }
  }

  lemma StalePumpIsInertInEveryRun(generation: nat, before: seq<Action>, after: seq<Action>, i: nat)
    requires var s := Exec(Init(generation), before); s.own < s.generation && i < |s.subs|
    ensures var s := Exec(Init(generation), before);
            var t := Exec(s, after);
            && i < |t.subs|
            && (t.subs[i].Received() == s.subs[i].Received()
                || t.subs[i].Received() == s.subs[i].Received() + Owed(s, i))
            && (t.history == s.history || (s.pump.Admitted? && t.history == s.history + [s.pump.event]))
  {
    RunKeepsIds(Init(generation), before);
    StalePumpIsInert(Exec(Init(generation), before), after, i);
  }

  // ---------------------------------------------------------------- the session

  // The same steps on the session's and the pump's own fields. `history`, `unclaimed`
  // and the last fields of `Sub` only record what happened.
  class ActiveSession {
    const own: nat
    var generation: nat
    var incoming: seq<SessionEvent>
    var pump: Pump
    var subs: seq<Sub>
    var listed: seq<nat>
    var pending: map<nat, seq<SessionEvent>>
    var primaries: map<Option<nat>, nat>
    var dropped: nat
    var history: seq<SessionEvent>
    var unclaimed: map<nat, seq<SessionEvent>>

    ghost function View(): State
      reads this
    {
      State(own, generation, incoming, pump, subs, listed, pending, primaries, dropped, history, unclaimed)
    }

    constructor (generation: nat)
      ensures View() == Init(generation)
    {
      own, this.generation, incoming, pump, subs, listed := generation, generation, [], Idle, [], [];
      pending, primaries, dropped, history, unclaimed := map[], map[], 0, [], map[];
    }

    // `subscribe`: takes the replay and registers in one critical section.
    method Subscribe(filter: Option<nat>) returns (i: nat)
      modifies this
      ensures View() == Step(old(View()), Action.Subscribe(filter))
      ensures i == |old(subs)|
    {
      var replay := if filter.Some? then Get(pending, filter.value) else [];
      if filter.Some? {
        pending, unclaimed := pending - {filter.value}, unclaimed - {filter.value};
      } else {
        assert pending - {} == pending && unclaimed - {} == unclaimed;
      }
      var capacity := Max(EVENT_BUFFER, |replay| + 8);
      var queue := [];
      var k := 0;
      while k < |replay|
        invariant k <= |replay| && queue == replay[..k]
      {
        // The send cannot find the queue full, so nothing is counted as dropped.
        assert |queue| < capacity;
        queue := queue + [replay[k]];
        k := k + 1;
      }
      assert queue == replay;
      var sole := !HasSubscriber(subs, listed, filter);
      i := |subs|;
      subs := Unsole(subs, filter) + [Sub(filter, capacity, queue, [], true, replay, |history|, sole)];
      listed := listed + [i];
    }

    // The pump's critical section: drop closed subscribers, buffer the event if its pane
    // has none, copy the list.
    method RegisterEvent()
      requires pump.Admitted? && pump.event.Size() <= ISIZE_MAX
      requires BufferInv(View())
      modifies this
      ensures View() == Step(old(View()), Register)
    {
      var event := pump.event;
      listed := OpenOnly(subs, listed);
      if event.Channel().Some? && !HasSubscriber(subs, listed, event.Channel()) {
        Buffer(event);
      }
      history := history + [event];
      pump := Registered(event, listed);
    }

    // Keeps an event nobody listens to for the pane's first subscriber.
    method Buffer(event: SessionEvent)
      requires event.Channel().Some? && event.Size() <= ISIZE_MAX
      requires pending.Keys == unclaimed.Keys
      requires event.channel in pending ==> pending[event.channel] == Window(unclaimed[event.channel])
      modifies this`pending, this`unclaimed
      ensures pending == old(pending)[event.channel := Window(Get(old(pending), event.channel) + [event])]
      ensures unclaimed == old(unclaimed)[event.channel := Get(old(unclaimed), event.channel) + [event]]
    {
      var channel := event.channel;
      var buffered := Get(pending, channel);
      WindowIsLongestSuffix(Get(unclaimed, channel));
      var entry := new PendingPaneEvents(buffered);
      entry.Push(event);
      pending := pending[channel := entry.events];
      unclaimed := unclaimed[channel := Get(unclaimed, channel) + [event]];
    }

    // One round of the pump's delivery loop; `false` when a full reliable queue makes it wait.
    method DeliverToNext() returns (sent: bool)
      requires pump.Delivering? && pump.targets != [] && pump.targets[0] < |subs|
      modifies this
      ensures sent == Enabled(old(View()), Deliver)
      ensures View() == Step(old(View()), Deliver)
    {
      var event, target := pump.event, pump.targets[0];
      var sub := subs[target];
      if !Matches(sub.filter, event) {
        pump := Delivering(event, pump.targets[1..]);
        return true;
      }
      if sub.filter !in primaries || primaries[sub.filter] == target {
        if sub.open && Full(sub) { return false; }
        if sub.open {
          subs := subs[target := SendTo(sub, event)];
          primaries := primaries[sub.filter := target];
        } else {
          primaries := primaries - {sub.filter};
        }
      } else if sub.open && !Full(sub) {
        subs := subs[target := SendTo(sub, event)];
      } else {
        dropped := dropped + 1;
      }
      pump := Delivering(event, pump.targets[1..]);
      return true;
    }
  }
}
