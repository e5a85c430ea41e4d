// Host keys end to end: verifications that ask, the prompts they ask with, and the store.
//
// Each step is a step of the prompt protocol or of the verification protocol; a
// verification that has to ask registers its own prompt and waits for that one.

module HostKeys {
  import opened Options
  import P = Prompts
  import K = KnownHosts

  datatype State = State(
    prompts: P.State<K.Decision>,
    known: K.State,
    asked: map<nat, nat>)        // the prompt of each verification that had to ask

  const Init := State(P.Init(), K.State(K.Nothing, []), map[])

  datatype Action =
    | Begin(host: Option<K.Host>, owner: Option<P.Host>, info: K.KeyInfo, works: bool)
    | Prompt(action: P.Action<K.Decision>)
    | Resume(v: nat)
    | Write(v: nat, works: bool)

  predicate Enabled(s: State, a: Action) {
    match a
    case Begin(_, _, _, _) => true
    case Prompt(action) => !action.Ask?
    // The verification wakes up with what its own prompt's wait came to.
    case Resume(v) =>
      && v in s.asked && s.asked[v] < |s.prompts.prompts| && s.prompts.prompts[s.asked[v]].waiter.Over()
      && K.Enabled(s.known, K.Decide(v, s.prompts.prompts[s.asked[v]].waiter.outcome))
    case Write(v, works) => K.Enabled(s.known, K.Write(v, works))
  }

  function Step(s: State, a: Action): State {
    if !Enabled(s, a) then s else
    match a
    case Begin(host, owner, info, works) =>
      var t := s.(known := K.Step(s.known, K.Begin(host, info, works)));
      if K.Begun(s.known.store, host, info, works).Asking? then
        t.(prompts := P.Step(s.prompts, P.Ask(owner)), asked := s.asked[|s.known.verifications| := |s.prompts.prompts|])
      else t
    case Prompt(action) => s.(prompts := P.Step(s.prompts, action))
    case Resume(v) =>
      s.(known := K.Step(s.known, K.Decide(v, s.prompts.prompts[s.asked[v]].waiter.outcome)))
    case Write(v, works) => s.(known := K.Step(s.known, K.Write(v, works)))
  }

  function Exec(s: State, run: seq<Action>): State
    decreases |run|
  {
    if run == [] then s else Exec(Step(s, run[0]), run[1..])
  }

  // A decided verification has its own prompt's outcome.
  ghost predicate Linked(s: State, v: nat) {
    v < |s.known.verifications| && s.known.verifications[v].decided.Some? ==>
      && v in s.asked && s.asked[v] < |s.prompts.prompts|
      && s.prompts.prompts[s.asked[v]].waiter.Over()
      && s.known.verifications[v].decided == Some(s.prompts.prompts[s.asked[v]].waiter.outcome)
  }

  ghost predicate LinkInv(s: State) {
    && (forall v | v in s.asked :: v < |s.known.verifications| && s.asked[v] < |s.prompts.prompts|)
    && (forall v, w | v in s.asked && w in s.asked && s.asked[v] == s.asked[w] :: v == w)
    && (forall v: nat :: Linked(s, v))
    && (forall v | v in s.asked && v < |s.known.verifications| ::
          s.known.verifications[v].stage.Asking? || s.known.verifications[v].decided.Some?)
  }

  ghost predicate Inv(s: State) {
    P.Inv(s.prompts) && K.TrustInv(s.known) && LinkInv(s)
  }

  lemma StepKeepsParts(s: State, a: Action)
    requires P.Inv(s.prompts) && K.TrustInv(s.known)
    ensures P.Inv(Step(s, a).prompts) && K.TrustInv(Step(s, a).known)
  {
    match a
    case Begin(host, owner, info, works) =>
      K.StepKeepsTrust(s.known, K.Begin(host, info, works));
      P.StepKeepsInv(s.prompts, P.Ask(owner));
    case Prompt(action) => P.StepKeepsInv(s.prompts, action);
    case Resume(v) =>
      if Enabled(s, a) {
        K.StepKeepsTrust(s.known, K.Decide(v, s.prompts.prompts[s.asked[v]].waiter.outcome));
      }
    case Write(v, works) => K.StepKeepsTrust(s.known, K.Write(v, works));
  }

  lemma PromptStepKeepsLinks(s: State, action: P.Action<K.Decision>)
    requires LinkInv(s)
    ensures LinkInv(s.(prompts := P.Step(s.prompts, action)))
  {
    var t := s.(prompts := P.Step(s.prompts, action));
    P.StepGrows(s.prompts, action);
    forall v: nat ensures Linked(t, v) {
      assert Linked(s, v);
      if v < |s.known.verifications| && s.known.verifications[v].decided.Some? {
        P.OverStaysOver(s.prompts, action, s.asked[v]);
      }
    }
  }

  lemma KnownStepKeepsLinks(s: State, a: Action)
    requires LinkInv(s) && !a.Prompt?
    ensures LinkInv(Step(s, a))
  {
    var t := Step(s, a);
    if a.Begin? { P.StepGrows(s.prompts, P.Ask(a.owner)); }
    forall v: nat ensures Linked(t, v) {
      assert Linked(s, v);
    }
  }

  lemma {:induction false} RunKeepsInv(s: State, run: seq<Action>)
    requires Inv(s)
    ensures Inv(Exec(s, run))
    decreases |run|
  {
    if run != [] {
      StepKeepsParts(s, run[0]);
      if run[0].Prompt? { PromptStepKeepsLinks(s, run[0].action); } else { KnownStepKeepsLinks(s, run[0]); }
      RunKeepsInv(Step(s, run[0]), run[1..]);
    }
  }

  // Verification `w` was decided by an accepted call that answered its own prompt, and if
  // the call was made for a workstation, for the one that owns the prompt.
  ghost predicate DecidedByCall(s: State, w: nat, c: nat, decision: K.Decision) {
    && w in s.asked && c < |s.prompts.calls| && s.asked[w] < |s.prompts.prompts|
    && s.prompts.calls[c].Applied() && s.prompts.calls[c].id == s.asked[w]
    && s.prompts.calls[c].value == Some(decision)
    && (s.prompts.calls[c].asker.Some? ==> s.prompts.calls[c].asker == s.prompts.prompts[s.asked[w]].owner)
  }

  lemma DecisionWasDelivered(s: State, w: nat, decision: K.Decision) returns (c: nat)
    requires Inv(s) && w < |s.known.verifications| && s.known.verifications[w].decided == Some(P.Got(decision))
    ensures DecidedByCall(s, w, c, decision)
  {
    assert Linked(s, w);
    var id := s.asked[w];
    assert s.prompts.prompts[id].cell == Some(decision);
    assert P.DeliveredBy(s.prompts, id);
    var d: int :| 0 <= d < |s.prompts.calls| && s.prompts.calls[d].id == id && s.prompts.calls[d].Applied();
    c := d;
  }

  // Its own prompt was answered with a decision to trust the key.
  ghost predicate TrustedByCall(s: State, v: nat, c: nat) {
    DecidedByCall(s, v, c, K.TrustOnce) || DecidedByCall(s, v, c, K.TrustAndSave)
  }

  lemma AskedWasTrusted(s: State, v: nat) returns (c: nat)
    requires Inv(s) && v in s.asked && v < |s.known.verifications|
    requires s.known.verifications[v].stage == K.Ended(K.Accepted)
    ensures TrustedByCall(s, v, c)
  {
    assert K.Justified(s.known, v);
    c := DecisionWasDelivered(s, v, s.known.verifications[v].decided.value.value);
  }

  // From an empty store, in every interleaving of verifications, prompts and answers: a
  // verification that had to ask accepts its key only if a call delivered a decision to trust
  // it to that verification's own prompt; one that did not, only if a call delivered a decision
  // to save the same key to the prompt of another for the same host and algorithm, or endpoint.
  lemma AcceptedKeysWereApproved(run: seq<Action>, v: nat) returns (w: nat, c: nat)
    requires v < |Exec(Init, run).known.verifications|
    requires Exec(Init, run).known.verifications[v].stage == K.Ended(K.Accepted)
    ensures var s := Exec(Init, run);
            if v in s.asked then TrustedByCall(s, v, c)
            else K.ChosenElsewhere(s.known, v, w) && DecidedByCall(s, w, c, K.TrustAndSave)
  {
    var s := Exec(Init, run);
    RunKeepsInv(Init, run);
    w := v;
    if v in s.asked {
      c := AskedWasTrusted(s, v);
    } else {
      assert K.Justified(s.known, v) && Linked(s, v);
      w := K.RecognisedWasChosen(s.known, v);
      c := DecisionWasDelivered(s, w, K.TrustAndSave);
    }
  }

  lemma {:induction false} AskedStays(s: State, run: seq<Action>, v: nat)
    requires Inv(s) && v in s.asked
    ensures var t := Exec(s, run);
            v in t.asked && t.asked[v] == s.asked[v] && v < |t.known.verifications|
    decreases |run|
  {
    if run != [] {
      StepKeepsParts(s, run[0]);
      if run[0].Prompt? { PromptStepKeepsLinks(s, run[0].action); } else { KnownStepKeepsLinks(s, run[0]); }
      AskedStays(Step(s, run[0]), run[1..], v);
    }
  }

  lemma UnknownIsAsked(s: State, host: Option<K.Host>, owner: Option<P.Host>, info: K.KeyInfo)
    requires Inv(s) && K.Lookup(s.known.store, host, info).None?
    ensures var t, v := Step(s, Begin(host, owner, info, true)), |s.known.verifications|;
            Inv(t) && v in t.asked && t.asked[v] == |s.prompts.prompts|
  {
    StepKeepsParts(s, Begin(host, owner, info, true));
    KnownStepKeepsLinks(s, Begin(host, owner, info, true));
  }

  // A key that is unknown when its verification looks it up gets a prompt, and is accepted in
  // no continuation without a decision to trust it delivered to that very prompt.
  lemma UnknownKeyNeedsItsOwnDecision(before: seq<Action>, host: Option<K.Host>, owner: Option<P.Host>, info: K.KeyInfo,
                                      after: seq<Action>) returns (c: nat)
    requires K.Lookup(Exec(Init, before).known.store, host, info).None?
    ensures var s := Exec(Init, before);
            var t := Exec(Step(s, Begin(host, owner, info, true)), after);
            var v, id := |s.known.verifications|, |s.prompts.prompts|;
            && v < |t.known.verifications| && v in t.asked && t.asked[v] == id
            && (t.known.verifications[v].stage == K.Ended(K.Accepted) ==> TrustedByCall(t, v, c))
  {
    var s := Exec(Init, before);
    var begun := Step(s, Begin(host, owner, info, true));
    var t, v := Exec(begun, after), |s.known.verifications|;
    RunKeepsInv(Init, before);
    UnknownIsAsked(s, host, owner, info);
    AskedStays(begun, after, v);
    RunKeepsInv(begun, after);
    c := 0;
    if t.known.verifications[v].stage == K.Ended(K.Accepted) { c := AskedWasTrusted(t, v); }
  }

  // ---------------------------------------------------------------- and approval is possible

  lemma {:induction false} ExecSnoc(s: State, before: seq<Action>, a: Action)
    ensures Exec(s, before + [a]) == Step(Exec(s, before), a)
    decreases |before|
  {
    if before == [] {
      assert before + [a] == [a] && [a][1..] == [];
      assert Exec(Step(s, a), []) == Step(s, a);
    } else {
      assert (before + [a])[1..] == before[1..] + [a];
      ExecSnoc(Step(s, before[0]), before[1..], a);
    }
  }

  lemma And(s: State, before: seq<Action>, t: State, a: Action) returns (run: seq<Action>, u: State)
    requires t == Exec(s, before)
    ensures run == before + [a] && u == Step(t, a) == Exec(s, run)
  {
    run, u := before + [a], Step(t, a);
    ExecSnoc(s, before, a);
  }

  // A prompt that was just asked can be shown, answered and received.
  lemma AnswerCanArrive(s: State, id: nat, decision: K.Decision) returns (run: seq<Action>)
    requires id < |s.prompts.prompts| && s.prompts.prompts[id].waiter.Asked?
    requires id !in s.prompts.requests && s.prompts.prompts[id].cell.None?
    ensures var t := Exec(s, run);
            && t.known == s.known && t.asked == s.asked && id < |t.prompts.prompts|
            && t.prompts.prompts[id].waiter == P.Ended(P.Got(decision))
  {
    var c := |s.prompts.calls|;
    var t := s;
    run := [];
    run, t := And(s, run, t, Prompt(P.Insert(id)));
    run, t := And(s, run, t, Prompt(P.Push(id)));
    run, t := And(s, run, t, Prompt(P.Unscoped(id, decision)));
    assert t.prompts.prompts[id].waiter == P.Waiting && id in t.prompts.requests && t.prompts.calls[c].stage == P.Ready;
    run, t := And(s, run, t, Prompt(P.Take(c)));
    run, t := And(s, run, t, Prompt(P.Deliver(c)));
    assert t.prompts.prompts[id].cell == Some(decision) && t.prompts.prompts[id].waiter == P.Waiting;
    run, t := And(s, run, t, Prompt(P.Receive(id)));
  }

  // A decision that has arrived is taken, and written if it is to be saved.
  lemma DecisionCanBeTaken(s: State, v: nat, save: bool) returns (run: seq<Action>)
    requires v in s.asked && s.asked[v] < |s.prompts.prompts| && v < |s.known.verifications|
    requires s.prompts.prompts[s.asked[v]].waiter == P.Ended(P.Got(if save then K.TrustAndSave else K.TrustOnce))
    requires s.known.verifications[v].stage == K.Asking
    ensures var t := Exec(s, run);
            && v < |t.known.verifications| && t.known.verifications[v].stage == K.Ended(K.Accepted)
            && (save ==> K.At(t.known.store, s.known.verifications[v].Slot()) == Some(s.known.verifications[v].info))
            && (!save ==> t.known.store == s.known.store)
  {
    run := [];
    var t := s;
    K.VerificationEnds(s.known, v, s.prompts.prompts[s.asked[v]].waiter.outcome, true);
    run, t := And(s, run, t, Resume(v));
    if save {
      K.VerificationEnds(t.known, v, P.Aborted, true);
      run, t := And(s, run, t, Write(v, true));
    }
  }

  // From every reachable state an unknown key can come to be accepted, once or for good; saved,
  // it is in the store for its scope.
  lemma UnknownKeyCanBeTrusted(before: seq<Action>, host: Option<K.Host>, owner: Option<P.Host>, info: K.KeyInfo,
                               save: bool) returns (run: seq<Action>)
    requires K.Lookup(Exec(Init, before).known.store, host, info).None?
    ensures var s := Exec(Init, before);
            var t, v := Exec(Step(s, Begin(host, owner, info, true)), run), |s.known.verifications|;
            && v < |t.known.verifications| && t.known.verifications[v].stage == K.Ended(K.Accepted)
            && (save ==> K.At(t.known.store, K.SlotOf(host, info)) == Some(info))
            && (!save ==> t.known.store == s.known.store)
  {
    var s := Exec(Init, before);
    var id := |s.prompts.prompts|;
    var begun := Step(s, Begin(host, owner, info, true));
    RunKeepsInv(Init, before);
    UnknownIsAsked(s, host, owner, info);
    JustAsked(s, host, owner, info);
    var first := AnswerCanArrive(begun, id, if save then K.TrustAndSave else K.TrustOnce);
    var second := DecisionCanBeTaken(Exec(begun, first), |s.known.verifications|, save);
    ExecAppend(begun, first, second);
    run := first + second;
  }

  lemma JustAsked(s: State, host: Option<K.Host>, owner: Option<P.Host>, info: K.KeyInfo)
    requires Inv(s) && K.Lookup(s.known.store, host, info).None?
    ensures var t, v, id := Step(s, Begin(host, owner, info, true)), |s.known.verifications|, |s.prompts.prompts|;
            && v < |t.known.verifications| && t.known.store == s.known.store
            && t.known.verifications[v] == K.Verification(host, info, None, K.Asking)
            && id < |t.prompts.prompts| && t.prompts.prompts[id] == P.Prompt(owner, P.Asked, None)
               && id !in t.prompts.requests
  {
    assert P.TableInv(s.prompts);
  }

  lemma {:induction false} ExecAppend(s: State, first: seq<Action>, second: seq<Action>)
    ensures Exec(s, first + second) == Exec(Exec(s, first), second)
    decreases |first|
  {
    if first == [] {
      assert first + second == second;
    } else {
      assert (first + second)[1..] == first[1..] + second;
      ExecAppend(Step(s, first[0]), first[1..], second);
    }
  }
}
