// One-shot approval prompts: a table of senders, a queue of visible prompts, waiters.
//
// The host-key and the keyboard-interactive broker are the same protocol over different
// answers. Every lock acquisition, send and wake-up is one step, so calls interleave freely.

module Prompts {
  import opened Options

  type Host = nat

  // How waiting ends. A deadline can fire after an answer was delivered.
  datatype Outcome<+V> = Got(value: V) | Cancelled | TimedOut | Aborted

  // The asking task; from Ended on its receiver is gone and its guard cleans up.
  datatype Waiter<+V> =
    | Asked
    | Inserted
    | Waiting
    | Ended(outcome: Outcome<V>)
    | Forgetting(outcome: Outcome<V>)
    | Gone(outcome: Outcome<V>)
  {
    predicate Listening() { Inserted? || Waiting? }
    predicate Over() { Ended? || Forgetting? || Gone? }
  }

  // `cell` is the one-shot channel's content.
  datatype Prompt<+V> = Prompt(owner: Option<Host>, waiter: Waiter<V>, cell: Option<V>)

  // An answer, or without a value a cancellation that drops the sender; `asker` is the
  // workstation it was checked for.
  datatype Stage = Ready | Holding | Sweeping(applied: bool) | Finished(applied: bool)
  datatype Call<+V> = Call(id: nat, asker: Option<Host>, value: Option<V>, stage: Stage)
  {
    predicate Applied() { (stage.Sweeping? || stage.Finished?) && stage.applied }
  }

  // Request ids count prompts.
  datatype State<V> = State(prompts: seq<Prompt<V>>, requests: set<nat>, pending: seq<nat>, calls: seq<Call<V>>)

  function Init<V>(): State<V> { State([], {}, [], []) }

  datatype Action<+V> =
    | Ask(owner: Option<Host>)
    | Insert(id: nat)
    | Push(id: nat)
    | Scoped(asker: Host, id: nat, value: V)
    | Unscoped(id: nat, value: V)
    | Cancel(asker: Host, id: nat)
    | Take(call: nat)
    | Deliver(call: nat)
    | Sweep(call: nat)
    | Receive(id: nat)
    | Disconnected(id: nat)
    | Expire(id: nat)
    | Abort(id: nat)
    | ForgetSender(id: nat)
    | ForgetPending(id: nat)
    | Drain

  function Without(ids: seq<nat>, id: nat): (r: seq<nat>)
    ensures forall j :: j in r <==> j in ids && j != id
  {
    if ids == [] then [] else
    var rest := Without(ids[1..], id);
    if ids[0] == id then rest else
    assert forall j :: j in [ids[0]] + rest <==> j == ids[0] || j in rest;
    [ids[0]] + rest
  }

  lemma {:induction false} WithoutStaysDistinct(ids: seq<nat>, id: nat)
    requires Distinct(ids)
    ensures Distinct(Without(ids, id))
  {
    if ids != [] {
      WithoutStaysDistinct(ids[1..], id);
      var rest := Without(ids[1..], id);
      assert forall j | 0 <= j < |rest| :: rest[j] in rest;
    }
  }

  ghost predicate Distinct(ids: seq<nat>) {
    forall i, j | 0 <= i < j < |ids| :: ids[i] != ids[j]
  }

  predicate Owned<V>(s: State<V>, asker: Host, id: nat) {
    id in s.pending && id < |s.prompts| && s.prompts[id].owner == Some(asker)
  }

  predicate Held<V>(s: State<V>, id: nat) {
    exists c | 0 <= c < |s.calls| :: s.calls[c].stage.Holding? && s.calls[c].id == id
  }

  predicate Enabled<V>(s: State<V>, a: Action<V>) {
    match a
    case Ask(_) => true
    case Insert(id) => id < |s.prompts| && s.prompts[id].waiter.Asked?
    case Push(id) => id < |s.prompts| && s.prompts[id].waiter.Inserted?
    case Scoped(asker, id, _) => Owned(s, asker, id)
    case Unscoped(_, _) => true
    case Cancel(asker, id) => Owned(s, asker, id)
    case Take(c) => c < |s.calls| && s.calls[c].stage.Ready?
    case Deliver(c) =>
      && c < |s.calls| && s.calls[c].stage.Holding?
      && s.calls[c].value.Some? && s.calls[c].id < |s.prompts|
    case Sweep(c) => c < |s.calls| && s.calls[c].stage.Sweeping?
    case Receive(id) => id < |s.prompts| && s.prompts[id].waiter.Waiting? && s.prompts[id].cell.Some?
    case Disconnected(id) =>
      && id < |s.prompts| && s.prompts[id].waiter.Waiting? && s.prompts[id].cell.None?
      && id !in s.requests && !Held(s, id)
    case Expire(id) => id < |s.prompts| && s.prompts[id].waiter.Waiting?
    case Abort(id) => id < |s.prompts| && s.prompts[id].waiter.Waiting?
    case ForgetSender(id) => id < |s.prompts| && s.prompts[id].waiter.Ended?
    case ForgetPending(id) => id < |s.prompts| && s.prompts[id].waiter.Forgetting?
    case Drain => true
  }

  function Moved<V>(s: State<V>, id: nat, waiter: Waiter<V>): seq<Prompt<V>>
    requires id < |s.prompts|
  {
    s.prompts[id := s.prompts[id].(waiter := waiter)]
  }

  function Staged<V>(s: State<V>, c: nat, stage: Stage): seq<Call<V>>
    requires c < |s.calls|
  {
    s.calls[c := s.calls[c].(stage := stage)]
  }

  function Step<V>(s: State<V>, a: Action<V>): State<V> {
    if !Enabled(s, a) then s else
    match a
    case Ask(owner) => s.(prompts := s.prompts + [Prompt(owner, Asked, None)])
    case Insert(id) => s.(prompts := Moved(s, id, Inserted), requests := s.requests + {id})
    case Push(id) => s.(prompts := Moved(s, id, Waiting), pending := s.pending + [id])
    case Scoped(asker, id, value) => s.(calls := s.calls + [Call(id, Some(asker), Some(value), Ready)])
    case Unscoped(id, value) => s.(calls := s.calls + [Call(id, None, Some(value), Ready)])
    case Cancel(asker, id) => s.(calls := s.calls + [Call(id, Some(asker), None, Ready)])
    case Take(c) =>
      if s.calls[c].value.None? then
        s.(requests := s.requests - {s.calls[c].id}, calls := Staged(s, c, Sweeping(false)))
      else if s.calls[c].id in s.requests then
        s.(requests := s.requests - {s.calls[c].id}, calls := Staged(s, c, Holding))
      else
        s.(calls := Staged(s, c, Finished(false)))
    case Deliver(c) =>
      var id := s.calls[c].id;
      if s.prompts[id].waiter.Listening() then
        s.(prompts := s.prompts[id := s.prompts[id].(cell := s.calls[c].value)], calls := Staged(s, c, Sweeping(true)))
      else
        s.(calls := Staged(s, c, Finished(false)))
    case Sweep(c) =>
      s.(pending := Without(s.pending, s.calls[c].id), calls := Staged(s, c, Finished(s.calls[c].stage.applied)))
    case Receive(id) => s.(prompts := Moved(s, id, Ended(Got(s.prompts[id].cell.value))))
    case Disconnected(id) => s.(prompts := Moved(s, id, Ended(Cancelled)))
    case Expire(id) => s.(prompts := Moved(s, id, Ended(TimedOut)))
    case Abort(id) => s.(prompts := Moved(s, id, Ended(Aborted)))
    case ForgetSender(id) =>
      s.(prompts := Moved(s, id, Forgetting(s.prompts[id].waiter.outcome)), requests := s.requests - {id})
    case ForgetPending(id) =>
      s.(prompts := Moved(s, id, Gone(s.prompts[id].waiter.outcome)), pending := Without(s.pending, id))
    case Drain => s.(pending := [])
  }

  function Exec<V>(s: State<V>, run: seq<Action<V>>): State<V>
    decreases |run|
  {
    if run == [] then s else Exec(Step(s, run[0]), run[1..])
  }

  // ---------------------------------------------------------------- invariant

  // A sender in the table is the prompt's only one and has sent nothing.
  ghost predicate TableInv<V>(s: State<V>) {
    forall id | id in s.requests ::
      && id < |s.prompts| && s.prompts[id].cell.None?
      && (s.prompts[id].waiter.Listening() || s.prompts[id].waiter.Ended?)
  }

  ghost predicate HeldInv<V>(s: State<V>) {
    forall c | 0 <= c < |s.calls| && s.calls[c].stage.Holding? ::
      && s.calls[c].id < |s.prompts| && s.calls[c].value.Some? && s.calls[c].id !in s.requests
      && s.prompts[s.calls[c].id].cell.None? && !s.prompts[s.calls[c].id].waiter.Asked?
      && forall d | 0 <= d < |s.calls| && s.calls[d].stage.Holding? && s.calls[d].id == s.calls[c].id :: d == c
  }

  ghost predicate QueueInv<V>(s: State<V>) {
    && Distinct(s.pending)
    && forall id | id in s.pending ::
         id < |s.prompts| && (s.prompts[id].waiter.Waiting? || s.prompts[id].waiter.Ended?
                              || s.prompts[id].waiter.Forgetting?)
  }

  // The cell holds what the one applied call delivered.
  ghost predicate AppliedInv<V>(s: State<V>) {
    && (forall c | 0 <= c < |s.calls| && s.calls[c].Applied() ::
          s.calls[c].id < |s.prompts| && s.calls[c].value.Some? && s.prompts[s.calls[c].id].cell == s.calls[c].value)
    && (forall c, d | 0 <= c < |s.calls| && 0 <= d < |s.calls| && s.calls[c].Applied() && s.calls[d].Applied()
          && s.calls[c].id == s.calls[d].id :: c == d)
  }

  ghost predicate DeliveredBy<V>(s: State<V>, id: nat) {
    exists c | 0 <= c < |s.calls| :: s.calls[c].id == id && s.calls[c].Applied()
  }

  ghost predicate CellInv<V>(s: State<V>) {
    forall id | 0 <= id < |s.prompts| && s.prompts[id].cell.Some? :: !s.prompts[id].waiter.Asked? && DeliveredBy(s, id)
  }

  ghost predicate OwnerInv<V>(s: State<V>) {
    forall c | 0 <= c < |s.calls| && s.calls[c].asker.Some? ::
      s.calls[c].id < |s.prompts| && s.prompts[s.calls[c].id].owner == s.calls[c].asker
  }

  ghost predicate OutcomeInv<V>(s: State<V>) {
    forall id | 0 <= id < |s.prompts| && s.prompts[id].waiter.Over() && s.prompts[id].waiter.outcome.Got? ::
      s.prompts[id].cell == Some(s.prompts[id].waiter.outcome.value)
  }

  ghost predicate Inv<V>(s: State<V>) {
    TableInv(s) && HeldInv(s) && QueueInv(s) && AppliedInv(s) && CellInv(s) && OwnerInv(s) && OutcomeInv(s)
  }

  // Ids and owners are for good; calls keep what they ask for and a verdict once reached.
  ghost predicate Grows<V>(s: State<V>, t: State<V>) {
    && |s.prompts| <= |t.prompts| && |s.calls| <= |t.calls|
    && (forall id | 0 <= id < |s.prompts| :: t.prompts[id].owner == s.prompts[id].owner)
    && (forall c | 0 <= c < |s.calls| ::
          && t.calls[c].id == s.calls[c].id && t.calls[c].asker == s.calls[c].asker
          && t.calls[c].value == s.calls[c].value
          && (s.calls[c].Applied() ==> t.calls[c].Applied()))
  }

  lemma StepGrows<V>(s: State<V>, a: Action<V>)
    ensures Grows(s, Step(s, a))
  {
  }

  lemma StepKeepsTable<V>(s: State<V>, a: Action<V>)
    requires Inv(s)
    ensures TableInv(Step(s, a))
  {
  }

  lemma TakeKeepsHeld<V>(s: State<V>, c: nat)
    requires TableInv(s) && HeldInv(s) && Enabled(s, Take(c))
    ensures HeldInv(Step(s, Take(c)))
  {
  }

  lemma DeliverKeepsHeld<V>(s: State<V>, c: nat)
    requires HeldInv(s) && Enabled(s, Deliver(c))
    ensures HeldInv(Step(s, Deliver(c)))
  {
  }

  lemma StepKeepsHeld<V>(s: State<V>, a: Action<V>)
    requires TableInv(s) && HeldInv(s)
    ensures HeldInv(Step(s, a))
  {
    if Enabled(s, a) {
      if a.Take? { TakeKeepsHeld(s, a.call); }
      else if a.Deliver? { DeliverKeepsHeld(s, a.call); }
      else {
        var t := Step(s, a);
        assert forall c | 0 <= c < |t.calls| && t.calls[c].stage.Holding? :: c < |s.calls| && t.calls[c] == s.calls[c];
      }
    }
  }

  lemma PushKeepsQueue<V>(s: State<V>, id: nat)
    requires QueueInv(s) && Enabled(s, Push(id))
    ensures QueueInv(Step(s, Push(id)))
  {
    assert id !in s.pending;
    assert forall i | 0 <= i < |s.pending| :: s.pending[i] in s.pending;
  }

  lemma StepKeepsQueue<V>(s: State<V>, a: Action<V>)
    requires QueueInv(s)
    ensures QueueInv(Step(s, a))
  {
    if a.Push? && Enabled(s, a) { PushKeepsQueue(s, a.id); }
    if a.Sweep? && Enabled(s, a) { WithoutStaysDistinct(s.pending, s.calls[a.call].id); }
    if a.ForgetPending? { WithoutStaysDistinct(s.pending, a.id); }
  }

  lemma AppliedOnlyByDelivery<V>(s: State<V>, a: Action<V>, c: nat)
    requires c < |Step(s, a).calls| && Step(s, a).calls[c].Applied()
    ensures c < |s.calls| && Step(s, a).calls[c].id == s.calls[c].id && Step(s, a).calls[c].value == s.calls[c].value
    ensures s.calls[c].Applied() || (a == Deliver(c) && Enabled(s, a) && s.prompts[s.calls[c].id].waiter.Listening())
  {
  }

  lemma CellOnlyByDelivery<V>(s: State<V>, a: Action<V>, id: nat)
    requires id < |s.prompts|
    ensures id < |Step(s, a).prompts|
    ensures Step(s, a).prompts[id].cell == s.prompts[id].cell
            || (a.Deliver? && Enabled(s, a) && s.calls[a.call].id == id
                && Step(s, a).prompts[id].cell == s.calls[a.call].value)
  {
  }

  lemma StepKeepsApplied<V>(s: State<V>, a: Action<V>)
    requires Inv(s)
    ensures AppliedInv(Step(s, a))
  {
    var t := Step(s, a);
    forall c | 0 <= c < |t.calls| && t.calls[c].Applied()
      ensures t.calls[c].id < |t.prompts| && t.calls[c].value.Some? && t.prompts[t.calls[c].id].cell == t.calls[c].value
    {
      AppliedOnlyByDelivery(s, a, c);
      CellOnlyByDelivery(s, a, t.calls[c].id);
    }
    forall c, d | 0 <= c < |t.calls| && 0 <= d < |t.calls| && t.calls[c].Applied() && t.calls[d].Applied()
           && t.calls[c].id == t.calls[d].id
      ensures c == d
    {
      AppliedOnlyByDelivery(s, a, c);
      AppliedOnlyByDelivery(s, a, d);
    }
  }

  lemma StepKeepsCells<V>(s: State<V>, a: Action<V>)
    requires Inv(s)
    ensures CellInv(Step(s, a))
  {
    var t := Step(s, a);
    forall id | 0 <= id < |t.prompts| && t.prompts[id].cell.Some?
      ensures !t.prompts[id].waiter.Asked? && DeliveredBy(t, id)
    {
      if id < |s.prompts| && s.prompts[id].cell.Some? {
        DeliveryStays(s, a, id);
        StaysAnswered(s, a, id);
      } else {
        FirstDelivery(s, a, id);
      }
    }
  }

  lemma DeliveryStays<V>(s: State<V>, a: Action<V>, id: nat)
    requires DeliveredBy(s, id)
    ensures DeliveredBy(Step(s, a), id)
  {
    var t := Step(s, a);
    StepGrows(s, a);
    var c: int :| 0 <= c < |s.calls| && s.calls[c].id == id && s.calls[c].Applied();
    assert t.calls[c].id == id && t.calls[c].Applied();
  }

  // An answered prompt keeps its answer, and a waiter that ends on it returns it.
  lemma StaysAnswered<V>(s: State<V>, a: Action<V>, id: nat)
    requires HeldInv(s) && id < |s.prompts| && s.prompts[id].cell.Some? && !s.prompts[id].waiter.Asked?
    ensures Step(s, a).prompts[id].cell == s.prompts[id].cell && !Step(s, a).prompts[id].waiter.Asked?
  {
  }

  lemma FirstDelivery<V>(s: State<V>, a: Action<V>, id: nat)
    requires HeldInv(s) && id < |Step(s, a).prompts| && Step(s, a).prompts[id].cell.Some?
    requires id < |s.prompts| ==> s.prompts[id].cell.None?
    ensures !Step(s, a).prompts[id].waiter.Asked? && DeliveredBy(Step(s, a), id)
  {
    var t := Step(s, a);
    assert a.Deliver? && t.calls[a.call].id == id && t.calls[a.call].Applied();
  }

  lemma StepKeepsOutcomes<V>(s: State<V>, a: Action<V>)
    requires HeldInv(s) && OutcomeInv(s)
    ensures OutcomeInv(Step(s, a))
  {
  }

  lemma StepKeepsOwners<V>(s: State<V>, a: Action<V>)
    requires OwnerInv(s)
    ensures OwnerInv(Step(s, a))
  {
  }

  lemma StepKeepsInv<V>(s: State<V>, a: Action<V>)
    requires Inv(s)
    ensures Inv(Step(s, a))
  {
    StepKeepsTable(s, a);
    StepKeepsHeld(s, a);
    StepKeepsQueue(s, a);
    StepKeepsApplied(s, a);
    StepKeepsCells(s, a);
    StepKeepsOutcomes(s, a);
    StepKeepsOwners(s, a);
  }

  lemma {:induction false} RunKeepsInv<V>(s: State<V>, run: seq<Action<V>>)
    requires Inv(s)
    ensures Inv(Exec(s, run)) && Grows(s, Exec(s, run))
    decreases |run|
  {
    if run != [] {
      StepKeepsInv(s, run[0]);
      StepGrows(s, run[0]);
      RunKeepsInv(Step(s, run[0]), run[1..]);
    }
  }

  // ---------------------------------------------------------------- what holds in every run

  // At most one call is ever told that its answer to a given prompt was accepted.
  lemma AcceptedAtMostOnce<V>(run: seq<Action<V>>, c: nat, d: nat)
    requires var s := Exec(Init(), run);
             && c < |s.calls| && d < |s.calls| && s.calls[c].Applied() && s.calls[d].Applied()
             && s.calls[c].id == s.calls[d].id
    ensures c == d
  {
    RunKeepsInv(Init(), run);
  }

  // A call made for a workstation is accepted only for that workstation's own prompt.
  lemma AcceptedOnlyFromOwner<V>(run: seq<Action<V>>, c: nat)
    requires var s := Exec(Init(), run); c < |s.calls| && s.calls[c].asker.Some? && s.calls[c].Applied()
    ensures var s := Exec(Init(), run);
            s.calls[c].id < |s.prompts| && s.prompts[s.calls[c].id].owner == s.calls[c].asker
  {
    RunKeepsInv(Init(), run);
  }

  // A waiter returns an answer only if exactly that answer to exactly that prompt was
  // accepted from some call. (The converse fails: the deadline may win after delivery.)
  lemma OnlyDeliveredAnswersReturn<V>(run: seq<Action<V>>, id: nat) returns (c: nat)
    requires var s := Exec(Init(), run);
             id < |s.prompts| && s.prompts[id].waiter.Over() && s.prompts[id].waiter.outcome.Got?
    ensures var s := Exec(Init(), run);
            && c < |s.calls| && s.calls[c].Applied() && s.calls[c].id == id
            && s.calls[c].value == Some(s.prompts[id].waiter.outcome.value)
            && (s.calls[c].asker.Some? ==> s.calls[c].asker == s.prompts[id].owner)
  {
    var s := Exec(Init(), run);
    RunKeepsInv(Init(), run);
    assert DeliveredBy(s, id);
    var d :| 0 <= d < |s.calls| && s.calls[d].id == id && s.calls[d].Applied();
    c := d;
  }

  // Once a waiter has ended: the same outcome forever, and nothing accepted any more.
  ghost predicate Closed<V>(s: State<V>, t: State<V>, id: nat)
    requires id < |s.prompts| && s.prompts[id].waiter.Over()
  {
    && id < |t.prompts| && t.prompts[id].waiter.Over() && t.prompts[id].waiter.outcome == s.prompts[id].waiter.outcome
    && (s.prompts[id].waiter.Forgetting? ==> t.prompts[id].waiter.Forgetting? || t.prompts[id].waiter.Gone?)
    && (s.prompts[id].waiter.Gone? ==> t.prompts[id].waiter.Gone?)
    && Grows(s, t)
    && forall c | 0 <= c < |t.calls| && t.calls[c].id == id && t.calls[c].Applied() ::
       c < |s.calls| && s.calls[c].Applied()
  }

  lemma StepStaysClosed<V>(s: State<V>, a: Action<V>, id: nat)
    requires Inv(s) && id < |s.prompts| && s.prompts[id].waiter.Over()
    ensures Closed(s, Step(s, a), id)
  {
    var t := Step(s, a);
    StepGrows(s, a);
    OverStaysOver(s, a, id);
    forall c | 0 <= c < |t.calls| && t.calls[c].id == id && t.calls[c].Applied()
      ensures c < |s.calls| && s.calls[c].Applied()
    {
      AppliedOnlyByDelivery(s, a, c);
    }
  }

  lemma OverStaysOver<V>(s: State<V>, a: Action<V>, id: nat)
    requires id < |s.prompts| && s.prompts[id].waiter.Over()
    ensures var was, now := s.prompts[id].waiter, Step(s, a).prompts[id].waiter;
            && now.Over() && now.outcome == was.outcome
            && (was.Forgetting? ==> now.Forgetting? || now.Gone?) && (was.Gone? ==> now.Gone?)
  {
  }

  lemma {:induction false} RunStaysClosed<V>(s: State<V>, run: seq<Action<V>>, id: nat)
    requires Inv(s) && id < |s.prompts| && s.prompts[id].waiter.Over()
    ensures Closed(s, Exec(s, run), id)
    decreases |run|
  {
    if run != [] {
      var t := Step(s, run[0]);
      StepKeepsInv(s, run[0]);
      StepStaysClosed(s, run[0], id);
      RunStaysClosed(t, run[1..], id);
    }
  }

  // However a waiter ended, from then on no answer to it is accepted; once its guard has
  // dropped the id is in neither table, and never comes back.
  lemma GoneForGood<V>(before: seq<Action<V>>, after: seq<Action<V>>, id: nat)
    requires var s := Exec(Init(), before); id < |s.prompts| && s.prompts[id].waiter.Over()
    ensures var s, t := Exec(Init(), before), Exec(Exec(Init(), before), after);
            && Closed(s, t, id)
            && (!s.prompts[id].waiter.Ended? ==> id !in t.requests)
            && (s.prompts[id].waiter.Gone? ==> id !in t.requests && id !in t.pending)
  {
    var s := Exec(Init(), before);
    RunKeepsInv(Init(), before);
    RunKeepsInv(s, after);
    RunStaysClosed(s, after, id);
  }

  // A sender that was dropped unsent, as a keyboard cancellation does.
  ghost predicate Orphaned<V>(s: State<V>, id: nat) {
    && id < |s.prompts| && !s.prompts[id].waiter.Asked? && s.prompts[id].cell.None?
    && id !in s.requests && !Held(s, id)
  }

  lemma StaysUnheld<V>(s: State<V>, a: Action<V>, id: nat)
    requires HeldInv(s) && !Held(s, id) && id !in s.requests
    ensures !Held(Step(s, a), id)
  {
    var t := Step(s, a);
    assert forall c | 0 <= c < |t.calls| && t.calls[c].stage.Holding? && t.calls[c].id == id ::
           c < |s.calls| && s.calls[c].stage.Holding?;
  }

  lemma CancelOrphans<V>(s: State<V>, c: nat)
    requires Inv(s) && Enabled(s, Take(c)) && s.calls[c].value.None? && s.calls[c].id in s.requests
    ensures Orphaned(Step(s, Take(c)), s.calls[c].id)
  {
    var t, id := Step(s, Take(c)), s.calls[c].id;
    assert forall d | 0 <= d < |t.calls| && t.calls[d].stage.Holding? ::
           s.calls[d].stage.Holding? && s.calls[d].id != id;
  }

  // Whatever runs afterwards, a cancelled prompt never returns an answer.
  lemma {:induction false} CancelledNeverAnswers<V>(s: State<V>, run: seq<Action<V>>, id: nat)
    requires Inv(s) && Orphaned(s, id)
    ensures Orphaned(Exec(s, run), id)
    ensures Exec(s, run).prompts[id].waiter.Over() ==> !Exec(s, run).prompts[id].waiter.outcome.Got?
    decreases |run|
  {
    if run != [] {
      StepKeepsInv(s, run[0]);
      StaysUnheld(s, run[0], id);
      CellOnlyByDelivery(s, run[0], id);
      CancelledNeverAnswers(Step(s, run[0]), run[1..], id);
    }
  }

  // ---------------------------------------------------------------- no prompt is stranded

  ghost predicate SweepInv<V>(s: State<V>) {
    forall c | 0 <= c < |s.calls| && (s.calls[c].stage.Sweeping? || s.calls[c].value.None?) ::
      && s.calls[c].id < |s.prompts| && !s.prompts[s.calls[c].id].waiter.Asked?
      && (s.calls[c].stage.Sweeping? ==> s.calls[c].id !in s.requests)
  }

  ghost predicate ShownInv<V>(s: State<V>) {
    forall id | 0 <= id < |s.prompts| && s.prompts[id].waiter.Waiting? && id in s.requests :: id in s.pending
  }

  lemma StepKeepsSwept<V>(s: State<V>, a: Action<V>)
    requires Inv(s) && SweepInv(s)
    ensures SweepInv(Step(s, a))
  {
    var t := Step(s, a);
    RequestsOnlyByInsert(s, a);
    forall c | 0 <= c < |t.calls| && (t.calls[c].stage.Sweeping? || t.calls[c].value.None?)
      ensures t.calls[c].id < |t.prompts| && !t.prompts[t.calls[c].id].waiter.Asked?
      ensures t.calls[c].stage.Sweeping? ==> t.calls[c].id !in t.requests
    {
      if c < |s.calls| { StepSweeps(s, a, c); }
    }
  }

  // A sender enters the table once, and a prompt is asked once.
  lemma RequestsOnlyByInsert<V>(s: State<V>, a: Action<V>)
    ensures forall id | 0 <= id < |s.prompts| && !s.prompts[id].waiter.Asked? ::
              !Step(s, a).prompts[id].waiter.Asked? && (id in Step(s, a).requests ==> id in s.requests)
  {
  }

  lemma StepSweeps<V>(s: State<V>, a: Action<V>, c: nat)
    requires c < |s.calls|
    ensures var t := Step(s, a);
            && c < |t.calls| && t.calls[c].id == s.calls[c].id && t.calls[c].value == s.calls[c].value
            && (t.calls[c].stage.Sweeping? && !s.calls[c].stage.Sweeping? ==>
                  && (s.calls[c].stage.Holding? || s.calls[c].value.None?)
                  && (s.calls[c].value.None? ==> s.calls[c].id !in t.requests || s.calls[c].stage.Holding?))
  {
  }

  lemma StepKeepsShown<V>(s: State<V>, a: Action<V>)
    requires Inv(s) && SweepInv(s) && ShownInv(s) && !a.Drain?
    ensures ShownInv(Step(s, a))
  {
  }

  lemma {:induction false} RunKeepsShown<V>(s: State<V>, run: seq<Action<V>>)
    requires Inv(s) && SweepInv(s) && ShownInv(s) && forall i | 0 <= i < |run| :: !run[i].Drain?
    ensures Inv(Exec(s, run)) && ShownInv(Exec(s, run))
    decreases |run|
  {
    if run != [] {
      StepKeepsInv(s, run[0]);
      StepKeepsSwept(s, run[0]);
      StepKeepsShown(s, run[0]);
      RunKeepsShown(Step(s, run[0]), run[1..]);
    }
  }

  // While nobody drains the queue, a prompt whose waiter still waits with its sender in
  // the table can be answered by its owner, whatever has run before.
  lemma OwnerCanAlwaysAnswer<V>(run: seq<Action<V>>, id: nat, value: V)
    requires forall i | 0 <= i < |run| :: !run[i].Drain?
    requires var s := Exec(Init(), run);
             id < |s.prompts| && s.prompts[id].waiter.Waiting? && id in s.requests && s.prompts[id].owner.Some?
    ensures var s := Exec(Init(), run); Accepted(s, Scoped(s.prompts[id].owner.value, id, value))
  {
    var s := Exec(Init(), run);
    RunKeepsShown(Init(), run);
    AcceptedAnswer(s, Scoped(s.prompts[id].owner.value, id, value));
  }

  // Draining takes that away: a prompt that was shown once is never shown again.
  lemma {:induction false} HiddenStaysHidden<V>(s: State<V>, run: seq<Action<V>>, id: nat)
    requires id < |s.prompts| && !s.prompts[id].waiter.Asked? && !s.prompts[id].waiter.Inserted? && id !in s.pending
    ensures id !in Exec(s, run).pending && forall host :: !Owned(Exec(s, run), host, id)
    decreases |run|
  {
    if run != [] { HiddenStaysHidden(Step(s, run[0]), run[1..], id); }
  }

  // A drained prompt still waits with its sender in the table, and refuses its owner for good.
  lemma DrainedPromptRefusesOwner<V>(owner: Host, value: V, later: seq<Action<V>>) returns (run: seq<Action<V>>)
    ensures var s := Exec(Init(), run);
            && |s.prompts| == 1 && s.prompts[0] == Prompt(Some(owner), Waiting, None) && Reaches(s, 0)
            && !Accepted(s, Scoped(owner, 0, value)) && !Accepted(Exec(s, later), Scoped(owner, 0, value))
  {
    run := [Ask(Some(owner))] + ([Insert(0)] + ([Push(0)] + [Drain]));
    var s0: State<V> := Init();
    var s1 := Step(s0, run[0]);
    var s2 := Step(s1, run[1]);
    var s3 := Step(s2, run[2]);
    var s4 := Step(s3, run[3]);
    assert s4 == State([Prompt(Some(owner), Waiting, None)], {0}, [], []);
    ExecCons(s3, run[3], []);
    ExecCons(s2, run[2], [run[3]]);
    ExecCons(s1, run[1], [run[2]] + [run[3]]);
    ExecCons(s0, run[0], [run[1]] + ([run[2]] + [run[3]]));
    assert run == [run[0]] + ([run[1]] + ([run[2]] + [run[3]]));
    HiddenStaysHidden(s4, later, 0);
  }

  lemma ExecCons<V>(s: State<V>, a: Action<V>, rest: seq<Action<V>>)
    ensures Exec(s, [a] + rest) == Exec(Step(s, a), rest)
    ensures rest == [] ==> Exec(s, [a]) == Step(s, a)
  {
    assert ([a] + rest)[1..] == rest;
    if rest == [] { assert [a] + rest == [a]; }
  }

  // ---------------------------------------------------------------- every prompt comes to an end

  // A waiter wakes up with the answer if there is one, as cancelled if its sender is gone, and
  // can run out of time or be aborted at any moment; nobody else notices.
  lemma WaiterWakes<V>(s: State<V>, id: nat)
    requires id < |s.prompts| && s.prompts[id].waiter.Waiting?
    ensures s.prompts[id].cell.Some? ==> Step(s, Receive(id)) == EndedWith(s, id, Got(s.prompts[id].cell.value))
    ensures Orphaned(s, id) ==> Step(s, Disconnected(id)) == EndedWith(s, id, Cancelled)
    ensures Step(s, Expire(id)) == EndedWith(s, id, TimedOut)
    ensures Step(s, Abort(id)) == EndedWith(s, id, Aborted)
  {
  }

  function EndedWith<V>(s: State<V>, id: nat, outcome: Outcome<V>): State<V>
    requires id < |s.prompts|
  {
    s.(prompts := s.prompts[id := s.prompts[id].(waiter := Ended(outcome))])
  }

  // A cancellation that has reached the table.
  ghost predicate DroppedBy<V>(s: State<V>, id: nat, c: nat) {
    c < |s.calls| && s.calls[c].id == id && s.calls[c].value.None? && !s.calls[c].stage.Ready?
  }

  // Until a waiter ends its sender is in the table, on its way, used, or was dropped by a
  // cancellation; and only the last lets the wait end as cancelled.
  ghost predicate SenderInv<V>(s: State<V>) {
    && (forall id: nat | id < |s.prompts| && s.prompts[id].waiter.Listening() ::
          id in s.requests || Held(s, id) || s.prompts[id].cell.Some? || exists c: nat :: DroppedBy(s, id, c))
    && (forall id: nat | id < |s.prompts| && s.prompts[id].waiter.Over() && s.prompts[id].waiter.outcome.Cancelled? ::
          exists c: nat :: DroppedBy(s, id, c))
  }

  lemma CancellationStays<V>(s: State<V>, a: Action<V>, id: nat, c: nat)
    requires DroppedBy(s, id, c)
    ensures DroppedBy(Step(s, a), id, c)
  {
  }

  lemma TakenOrDropped<V>(s: State<V>, c: nat)
    requires Enabled(s, Take(c)) && s.calls[c].id in s.requests
    ensures Held(Step(s, Take(c)), s.calls[c].id) || DroppedBy(Step(s, Take(c)), s.calls[c].id, c)
  {
    var t := Step(s, Take(c));
    assert s.calls[c].value.Some? ==> t.calls[c].stage.Holding?;
  }

  // A sender in the table leaves it for a call or a cancellation only; one on its way is used.
  lemma TableSenderGoes<V>(s: State<V>, a: Action<V>, id: nat)
    requires id < |s.prompts| && id in s.requests && Step(s, a).prompts[id].waiter.Listening()
    ensures var t := Step(s, a); id in t.requests || Held(t, id) || exists c: nat :: DroppedBy(t, id, c)
  {
    if a.Take? && Enabled(s, a) && s.calls[a.call].id == id { TakenOrDropped(s, a.call); }
  }

  lemma HeldSenderIsUsed<V>(s: State<V>, a: Action<V>, id: nat)
    requires HeldInv(s) && id < |s.prompts| && Held(s, id) && s.prompts[id].waiter.Listening()
    ensures Held(Step(s, a), id) || Step(s, a).prompts[id].cell.Some?
  {
    var t := Step(s, a);
    var c: int :| 0 <= c < |s.calls| && s.calls[c].stage.Holding? && s.calls[c].id == id;
    assert a == Deliver(c) || t.calls[c] == s.calls[c];
  }

  lemma SenderStays<V>(s: State<V>, a: Action<V>, id: nat)
    requires Inv(s) && SenderInv(s) && id < |Step(s, a).prompts| && Step(s, a).prompts[id].waiter.Listening()
    ensures var t := Step(s, a);
            id in t.requests || Held(t, id) || t.prompts[id].cell.Some? || exists c: nat :: DroppedBy(t, id, c)
  {
    if id < |s.prompts| && s.prompts[id].waiter.Listening() {
      if id in s.requests {
        TableSenderGoes(s, a, id);
      } else if Held(s, id) {
        HeldSenderIsUsed(s, a, id);
      } else if s.prompts[id].cell.Some? {
        StaysAnswered(s, a, id);
      } else {
        var c: nat :| DroppedBy(s, id, c);
        CancellationStays(s, a, id, c);
      }
    }
  }

  lemma StepKeepsSender<V>(s: State<V>, a: Action<V>)
    requires Inv(s) && SenderInv(s)
    ensures SenderInv(Step(s, a))
  {
    var t := Step(s, a);
    forall id: nat | id < |t.prompts| && t.prompts[id].waiter.Listening()
      ensures id in t.requests || Held(t, id) || t.prompts[id].cell.Some? || exists c: nat :: DroppedBy(t, id, c)
    {
      SenderStays(s, a, id);
    }
    forall id: nat | id < |t.prompts| && t.prompts[id].waiter.Over() && t.prompts[id].waiter.outcome.Cancelled?
      ensures exists c: nat :: DroppedBy(t, id, c)
    {
      var c: nat :| DroppedBy(s, id, c);
      CancellationStays(s, a, id, c);
    }
  }

  lemma {:induction false} RunKeepsSender<V>(s: State<V>, run: seq<Action<V>>)
    requires Inv(s) && SenderInv(s)
    ensures SenderInv(Exec(s, run))
    decreases |run|
  {
    if run != [] {
      StepKeepsInv(s, run[0]);
      StepKeepsSender(s, run[0]);
      RunKeepsSender(Step(s, run[0]), run[1..]);
    }
  }

  // In every run a wait ends as cancelled only if the prompt's owner cancelled it.
  lemma CancelledOnlyByOwner<V>(run: seq<Action<V>>, id: nat) returns (c: nat)
    requires var s := Exec(Init(), run);
             id < |s.prompts| && s.prompts[id].waiter.Over() && s.prompts[id].waiter.outcome.Cancelled?
    ensures var s := Exec(Init(), run);
            DroppedBy(s, id, c) && (s.calls[c].asker.Some? ==> s.calls[c].asker == s.prompts[id].owner)
  {
    RunKeepsInv(Init(), run);
    RunKeepsSender(Init(), run);
    var d: nat :| DroppedBy(Exec(Init(), run), id, d);
    c := d;
  }

  // From every state a prompt can come to its end: its waiter gone, its id in neither table.
  lemma PromptCanEnd<V>(s: State<V>, id: nat) returns (run: seq<Action<V>>)
    requires id < |s.prompts|
    ensures id < |Exec(s, run).prompts| && Exec(s, run).prompts[id].waiter.Gone?
  {
    run := WaitCanEnd(s, id);
    var t := Exec(s, run);
    if t.prompts[id].waiter.Ended? { run, t := And(s, run, t, ForgetSender(id)); }
    if t.prompts[id].waiter.Forgetting? { run, t := And(s, run, t, ForgetPending(id)); }
  }

  lemma WaitCanEnd<V>(s: State<V>, id: nat) returns (run: seq<Action<V>>)
    requires id < |s.prompts|
    ensures id < |Exec(s, run).prompts| && Exec(s, run).prompts[id].waiter.Over()
  {
    run := [];
    var t := s;
    if t.prompts[id].waiter.Asked? { run, t := And(s, run, t, Insert(id)); }
    if t.prompts[id].waiter.Inserted? { run, t := And(s, run, t, Push(id)); }
    if t.prompts[id].waiter.Waiting? { run, t := And(s, run, t, Expire(id)); }
  }

  // And so can every call.
  lemma CallCanFinish<V>(s: State<V>, c: nat) returns (run: seq<Action<V>>)
    requires Inv(s) && c < |s.calls|
    ensures c < |Exec(s, run).calls| && Exec(s, run).calls[c].stage.Finished?
  {
    run := [];
    var t := s;
    if t.calls[c].stage.Ready? {
      StepKeepsInv(t, Take(c));
      run, t := And(s, run, t, Take(c));
    }
    if t.calls[c].stage.Holding? { run, t := And(s, run, t, Deliver(c)); }
    if t.calls[c].stage.Sweeping? { run, t := And(s, run, t, Sweep(c)); }
  }

  lemma And<V>(s: State<V>, before: seq<Action<V>>, t: State<V>, a: Action<V>)
      returns (run: seq<Action<V>>, u: State<V>)
    requires t == Exec(s, before)
    ensures run == before + [a] && u == Step(t, a) == Exec(s, run)
  {
    run, u := before + [a], Step(t, a);
    ExecSnoc(s, before, a);
  }

  lemma {:induction false} ExecSnoc<V>(s: State<V>, before: seq<Action<V>>, a: Action<V>)
    ensures Exec(s, before + [a]) == Step(Exec(s, before), a)
    decreases |before|
  {
    if before == [] {
      assert before + [a] == [a];
      ExecCons(s, a, []);
    } else {
      assert (before + [a])[1..] == before[1..] + [a];
      ExecSnoc(Step(s, before[0]), before[1..], a);
    }
  }

  // ---------------------------------------------------------------- isolation of owners

  // A step that is part of a call made for workstation `asker`.
  predicate StepBy<V>(s: State<V>, a: Action<V>, asker: Host) {
    match a
    case Scoped(host, _, _) => host == asker
    case Cancel(host, _) => host == asker
    case Take(c) => c < |s.calls| && s.calls[c].asker == Some(asker)
    case Deliver(c) => c < |s.calls| && s.calls[c].asker == Some(asker)
    case Sweep(c) => c < |s.calls| && s.calls[c].asker == Some(asker)
    case _ => false
  }

  ghost predicate RunBy<V>(s: State<V>, run: seq<Action<V>>, asker: Host)
    decreases |run|
  {
    run != [] ==> StepBy(s, run[0], asker) && RunBy(Step(s, run[0]), run[1..], asker)
  }

  ghost predicate Untouched<V>(s: State<V>, t: State<V>, id: nat) {
    && id < |s.prompts| && id < |t.prompts| && t.prompts[id] == s.prompts[id]
    && (id in t.requests <==> id in s.requests) && (id in t.pending <==> id in s.pending)
  }

  // Whatever calls are made for one workstation, in any interleaving among themselves,
  // every prompt of anyone else stays exactly as it was.
  lemma {:induction false} OwnersAreIsolated<V>(s: State<V>, run: seq<Action<V>>, asker: Host, id: nat)
    requires Inv(s) && RunBy(s, run, asker) && id < |s.prompts| && s.prompts[id].owner != Some(asker)
    ensures Untouched(s, Exec(s, run), id)
    decreases |run|
  {
    if run != [] {
      StepKeepsInv(s, run[0]);
      OwnersAreIsolated(Step(s, run[0]), run[1..], asker, id);
    }
  }

  // ---------------------------------------------------------------- uninterrupted calls

  // One answer run back to back; a refused ownership check ends the call.
  function Answered<V>(s: State<V>, first: Action<V>): State<V> {
    if !Enabled(s, first) then s else
    var c := |s.calls|;
    Step(Step(Step(Step(s, first), Take(c)), Deliver(c)), Sweep(c))
  }

  predicate Accepted<V>(s: State<V>, first: Action<V>) {
    && Enabled(s, first) && |Answered(s, first).calls| > |s.calls| && Answered(s, first).calls[|s.calls|].Applied()
  }

  predicate Reaches<V>(s: State<V>, id: nat) {
    id in s.requests && id < |s.prompts| && s.prompts[id].waiter.Listening()
  }

  lemma AnswerKeepsInv<V>(s: State<V>, first: Action<V>)
    requires Inv(s)
    ensures Inv(Answered(s, first))
  {
    if Enabled(s, first) {
      var c := |s.calls|;
      StepKeepsInv(s, first);
      StepKeepsInv(Step(s, first), Take(c));
      StepKeepsInv(Step(Step(s, first), Take(c)), Deliver(c));
      StepKeepsInv(Step(Step(Step(s, first), Take(c)), Deliver(c)), Sweep(c));
    }
  }

  lemma MissedAnswer<V>(s: State<V>, first: Action<V>)
    requires TableInv(s) && (first.Unscoped? || first.Scoped?) && Enabled(s, first) && !Reaches(s, first.id)
    ensures !Accepted(s, first)
    ensures Answered(s, first).prompts == s.prompts && Answered(s, first).pending == s.pending
    ensures Answered(s, first).requests == s.requests - {first.id}
  {
    var c := |s.calls|;
    var s1 := Step(s, first);
    var s2 := Step(s1, Take(c));
    assert s2.calls[c].stage == if first.id in s.requests then Holding else Finished(false);
    var s3 := Step(s2, Deliver(c));
    assert s3.calls[c].stage == Finished(false) && |s3.calls| == c + 1;
    assert Step(s3, Sweep(c)) == s3;
  }

  lemma AcceptedAnswer<V>(s: State<V>, first: Action<V>)
    requires (first.Unscoped? || first.Scoped?) && Enabled(s, first) && Reaches(s, first.id)
    ensures Accepted(s, first)
    ensures Answered(s, first).prompts == s.prompts[first.id := s.prompts[first.id].(cell := Some(first.value))]
    ensures Answered(s, first).pending == Without(s.pending, first.id)
    ensures Answered(s, first).requests == s.requests - {first.id}
  {
    var c := |s.calls|;
    var s1 := Step(s, first);
    var s2 := Step(s1, Take(c));
    assert s2.calls[c].stage == Holding && s2.calls[c].id == first.id;
    var s3 := Step(s2, Deliver(c));
    assert s3.calls[c].stage == Sweeping(true) && s3.calls[c].id == first.id;
  }

  // The prompt's sender is used up; a waiter it reached has the value, and is not shown.
  ghost predicate Settled<V>(s: State<V>, t: State<V>, id: nat, value: V) {
    && id < |s.prompts| && id < |t.prompts| && id !in t.requests
    && if Reaches(s, id) then t.prompts[id] == s.prompts[id].(cell := Some(value)) && id !in t.pending
       else t.prompts[id] == s.prompts[id]
  }

  lemma AnswerSettles<V>(s: State<V>, first: Action<V>)
    requires TableInv(s) && (first.Unscoped? || first.Scoped?) && Enabled(s, first) && first.id < |s.prompts|
    ensures Settled(s, Answered(s, first), first.id, first.value)
    ensures |Answered(s, first).prompts| == |s.prompts|
    ensures forall id | 0 <= id < |s.prompts| && id != first.id :: Untouched(s, Answered(s, first), id)
  {
    if Reaches(s, first.id) { AcceptedAnswer(s, first); } else { MissedAnswer(s, first); }
  }

  // An uninterrupted answer is accepted exactly when the ownership check passes, the
  // sender is still in the table and the waiter still listens.
  lemma AcceptedIff<V>(s: State<V>, first: Action<V>)
    requires Inv(s) && (first.Unscoped? || first.Scoped?)
    ensures Accepted(s, first) <==> Enabled(s, first) && Reaches(s, first.id)
  {
    if Enabled(s, first) {
      if Reaches(s, first.id) { AcceptedAnswer(s, first); } else { MissedAnswer(s, first); }
    }
  }

  // ---------------------------------------------------------------- the brokers

  // HostKeyBroker and KeyboardInteractiveBroker. `prompts` holds each request's waiter and
  // one-shot cell; a method runs without interleaving, the steps above say what calls do
  // to each other.
  class Broker<V(==)> {
    var prompts: seq<Prompt<V>>
    var requests: set<nat>
    var pending: seq<nat>
    ghost var calls: seq<Call<V>>

    ghost function View(): State<V>
      reads this
    {
      State(prompts, requests, pending, calls)
    }

    constructor ()
      ensures View() == Init() && Inv(View())
    {
      prompts, requests, pending := [], {}, [];
      calls := [];
    }

    // The asking side up to its wait.
    method Register(owner: Option<Host>) returns (id: nat)
      requires Inv(View())
      modifies this
      ensures id == |old(prompts)| && Inv(View())
      ensures View() == Registered(old(View()), owner)
    {
      id := |prompts|;
      RegisteringKeepsInv(View(), owner);
      RegisteredIs(View(), owner);
      requests := requests + {id};
      pending := pending + [id];
      prompts := prompts + [Prompt(owner, Waiting, None)];
    }

    method PendingForOwner(host: Host) returns (ids: seq<nat>)
      ensures forall id :: id in ids <==> Owned(View(), host, id)
      ensures Distinct(pending) ==> Distinct(ids)
    {
      ids := [];
      var i := 0;
      while i < |pending|
        invariant i <= |pending|
        invariant forall id :: id in ids <==> id in pending[..i] && Owned(View(), host, id)
        invariant Distinct(pending) ==> Distinct(ids)
      {
        assert pending[..i + 1] == pending[..i] + [pending[i]];
        if pending[i] < |prompts| && prompts[pending[i]].owner == Some(host) {
          assert Distinct(pending) ==> pending[i] !in ids;
          ids := ids + [pending[i]];
        }
        i := i + 1;
      }
      assert pending[..i] == pending;
    }

    method Answer(id: nat, value: V) returns (applied: bool)
      requires Inv(View())
      modifies this
      ensures Inv(View()) && View() == Answered(old(View()), Unscoped(id, value))
      ensures applied == Reaches(old(View()), id)
    {
      applied := Deliver(Unscoped(id, value));
    }

    // Takes the sender, sends, and hides the prompt if the waiter got it.
    method Deliver(first: Action<V>) returns (applied: bool)
      requires Inv(View()) && (first.Unscoped? || first.Scoped?) && Enabled(View(), first)
      modifies this
      ensures Inv(View()) && View() == Answered(old(View()), first)
      ensures applied == Reaches(old(View()), first.id)
    {
      var id := first.id;
      ghost var s := View();
      AnswerKeepsInv(s, first);
      applied := false;
      if id in requests {
        requests := requests - {id};
        if prompts[id].waiter.Listening() {
          prompts := prompts[id := prompts[id].(cell := Some(first.value))];
          pending := Without(pending, id);
          applied := true;
        }
      }
      if applied { AcceptedAnswer(s, first); } else { MissedAnswer(s, first); }
      calls := Answered(s, first).calls;
    }

    method AnswerForOwner(host: Host, id: nat, value: V) returns (applied: bool)
      requires Inv(View())
      modifies this
      ensures Inv(View()) && View() == Answered(old(View()), Scoped(host, id, value))
      ensures applied == (Owned(old(View()), host, id) && Reaches(old(View()), id))
    {
      if id in pending && id < |prompts| && prompts[id].owner == Some(host) {
        applied := Deliver(Scoped(host, id, value));
      } else {
        applied := false;
      }
    }

    // Host keys: a disconnect rejects every prompt of the workstation.
    method RejectForOwner(host: Host, reject: V)
      requires Inv(View())
      modifies this
      ensures Inv(View())
      ensures forall id :: Owned(old(View()), host, id) ==> Settled(old(View()), View(), id, reject)
      ensures forall id | 0 <= id < |old(prompts)| && old(prompts)[id].owner != Some(host) ::
              Untouched(old(View()), View(), id)
    {
      var ids := PendingForOwner(host);
      ghost var s := View();
      var i := 0;
      while i < |ids|
        invariant i <= |ids| && Inv(View())
        invariant SettledUpTo(s, View(), ids[..i], reject)
      {
        assert ids[..i + 1] == ids[..i] + [ids[i]] && ids[i] in ids;
        SettleNext(s, View(), ids[..i], host, ids[i], reject);
        var applied := AnswerForOwner(host, ids[i], reject);
        i := i + 1;
      }
      assert ids[..i] == ids;
    }

    // Keyboard-interactive: a disconnect drops the senders instead.
    method CancelForOwner(host: Host)
      requires Inv(View())
      modifies this
      ensures Inv(View()) && prompts == old(prompts)
      ensures forall id :: id in requests <==> id in old(requests) && !Owned(old(View()), host, id)
      ensures forall id :: id in pending <==> id in old(pending) && !Owned(old(View()), host, id)
    {
      var ids := PendingForOwner(host);
      ghost var s := View();
      var i := 0;
      while i < |ids|
        invariant i <= |ids| && Inv(View()) && prompts == s.prompts
        invariant forall id :: id in requests <==> id in s.requests && id !in ids[..i]
        invariant forall id :: id in pending <==> id in s.pending && id !in ids[..i]
      {
        assert ids[..i + 1] == ids[..i] + [ids[i]];
        assert ids[i] in ids;
        assert ids[i] !in ids[..i];
        ghost var before := View();
        CancelKeepsInv(before, host, ids[i]);
        CancelledIs(before, host, ids[i]);
        requests := requests - {ids[i]};
        pending := Without(pending, ids[i]);
        calls := CancelledBy(before, host, ids[i]).calls;
        i := i + 1;
      }
      assert ids[..i] == ids;
    }

    // The guard's clean-up.
    method Forget(id: nat)
      requires Inv(View()) && id < |prompts| && prompts[id].waiter.Ended?
      modifies this
      ensures Inv(View()) && View() == Forgotten(old(View()), id)
      ensures id !in requests && id !in pending
    {
      ForgettingKeepsInv(View(), id);
      ForgottenIs(View(), id);
      requests := requests - {id};
      pending := Without(pending, id);
      prompts := prompts[id := prompts[id].(waiter := Gone(prompts[id].waiter.outcome))];
    }
  }

  function Registered<V>(s: State<V>, owner: Option<Host>): State<V> {
    Step(Step(Step(s, Ask(owner)), Insert(|s.prompts|)), Push(|s.prompts|))
  }

  lemma RegisteringKeepsInv<V>(s: State<V>, owner: Option<Host>)
    requires Inv(s)
    ensures Inv(Registered(s, owner))
  {
    var id := |s.prompts|;
    StepKeepsInv(s, Ask(owner));
    StepKeepsInv(Step(s, Ask(owner)), Insert(id));
    StepKeepsInv(Step(Step(s, Ask(owner)), Insert(id)), Push(id));
  }

  lemma RegisteredIs<V>(s: State<V>, owner: Option<Host>)
    ensures var id := |s.prompts|;
            Registered(s, owner) == State(s.prompts + [Prompt(owner, Waiting, None)], s.requests + {id},
                                          s.pending + [id], s.calls)
  {
  }

  function Forgotten<V>(s: State<V>, id: nat): State<V> { Step(Step(s, ForgetSender(id)), ForgetPending(id)) }

  lemma ForgettingKeepsInv<V>(s: State<V>, id: nat)
    requires Inv(s)
    ensures Inv(Forgotten(s, id))
  {
    StepKeepsInv(s, ForgetSender(id));
    StepKeepsInv(Step(s, ForgetSender(id)), ForgetPending(id));
  }

  lemma ForgottenIs<V>(s: State<V>, id: nat)
    requires id < |s.prompts| && s.prompts[id].waiter.Ended?
    ensures var t := Forgotten(s, id);
            && t.requests == s.requests - {id} && t.pending == Without(s.pending, id) && t.calls == s.calls
            && t.prompts == s.prompts[id := s.prompts[id].(waiter := Gone(s.prompts[id].waiter.outcome))]
  {
  }

  ghost predicate SettledUpTo<V>(s: State<V>, t: State<V>, done: seq<nat>, value: V) {
    && |t.prompts| == |s.prompts|
    && (forall id | id in done :: Settled(s, t, id, value))
    && (forall id | 0 <= id < |s.prompts| && id !in done :: Untouched(s, t, id))
  }

  lemma SettleNext<V>(s: State<V>, t: State<V>, done: seq<nat>, host: Host, id: nat, value: V)
    requires TableInv(t) && SettledUpTo(s, t, done, value) && Owned(s, host, id) && id !in done
    ensures SettledUpTo(s, Answered(t, Scoped(host, id, value)), done + [id], value)
  {
    assert Untouched(s, t, id) && Enabled(t, Scoped(host, id, value));
    AnswerSettles(t, Scoped(host, id, value));
    var u := Answered(t, Scoped(host, id, value));
    forall j | j in done ensures Settled(s, u, j, value) {
      assert Untouched(t, u, j);
    }
    forall j | 0 <= j < |s.prompts| && j !in done + [id] ensures Untouched(s, u, j) {
      assert Untouched(t, u, j);
    }
  }

  // One keyboard cancellation run back to back.
  function CancelledBy<V>(s: State<V>, host: Host, id: nat): State<V> {
    Step(Step(Step(s, Cancel(host, id)), Take(|s.calls|)), Sweep(|s.calls|))
  }

  lemma CancelKeepsInv<V>(s: State<V>, host: Host, id: nat)
    requires Inv(s)
    ensures Inv(CancelledBy(s, host, id))
  {
    var s1 := Step(s, Cancel(host, id));
    StepKeepsInv(s, Cancel(host, id));
    StepKeepsInv(s1, Take(|s.calls|));
    StepKeepsInv(Step(s1, Take(|s.calls|)), Sweep(|s.calls|));
  }

  lemma CancelledIs<V>(s: State<V>, host: Host, id: nat)
    requires Owned(s, host, id)
    ensures CancelledBy(s, host, id).prompts == s.prompts && CancelledBy(s, host, id).requests == s.requests - {id}
    ensures CancelledBy(s, host, id).pending == Without(s.pending, id)
  {
  }
}
