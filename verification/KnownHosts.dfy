// Host-key verification: what is trusted, what is asked, what is remembered.
//
// A verification reads the store, may wait for the user, and writes the store: three
// separate critical sections, so verifications interleave.

module KnownHosts {
  import opened Options
  import P = Prompts

  type Host = nat
  type Outcome = P.Outcome<Decision>

  datatype KeyInfo = KeyInfo(hostname: string, port: nat, algorithm: string, fingerprint: string, blob: string)

  datatype Decision = TrustOnce | TrustAndSave | Reject

  // The endpoint records, and the records of a logical host by algorithm.
  datatype Store = Store(keys: map<(string, nat), KeyInfo>, hostKeys: map<(Host, string), KeyInfo>)

  datatype Match = HostScoped(key: KeyInfo) | LegacyEndpoint(key: KeyInfo)

  datatype Slot = ForHost(host: Host, algorithm: string) | ForEndpoint(hostname: string, port: nat)

  const Nothing := Store(map[], map[])

  // Where a verification reads first and writes.
  function SlotOf(host: Option<Host>, info: KeyInfo): Slot {
    if host.Some? then ForHost(host.value, info.algorithm) else ForEndpoint(info.hostname, info.port)
  }

  function At(store: Store, slot: Slot): Option<KeyInfo> {
    match slot
    case ForHost(host, algorithm) =>
      if (host, algorithm) in store.hostKeys then Some(store.hostKeys[(host, algorithm)]) else None
    case ForEndpoint(hostname, port) =>
      if (hostname, port) in store.keys then Some(store.keys[(hostname, port)]) else None
  }

  function Put(store: Store, slot: Slot, info: KeyInfo): Store {
    match slot
    case ForHost(host, algorithm) => store.(hostKeys := store.hostKeys[(host, algorithm) := info])
    case ForEndpoint(hostname, port) => store.(keys := store.keys[(hostname, port) := info])
  }

  // A host's own record of the algorithm, else the endpoint's if of that algorithm.
  function Lookup(store: Store, host: Option<Host>, info: KeyInfo): Option<Match> {
    var own := At(store, SlotOf(host, info));
    var endpoint := At(store, ForEndpoint(info.hostname, info.port));
    if own.Some? then Some(HostScoped(own.value))
    else if host.Some? && endpoint.Some? && endpoint.value.algorithm == info.algorithm
        then Some(LegacyEndpoint(endpoint.value))
    else None
  }

  // What decides a verification, told from the records: without a host the endpoint's; of a
  // host its own of that algorithm, and only without one the endpoint's, if of that algorithm.
  lemma LookupIs(store: Store, host: Option<Host>, info: KeyInfo)
    ensures var found, endpoint := Lookup(store, host, info), (info.hostname, info.port);
            && (host.None? ==> (found.Some? <==> endpoint in store.keys)
                               && (found.Some? ==> found.value == HostScoped(store.keys[endpoint])))
            && (host.Some? && (host.value, info.algorithm) in store.hostKeys ==>
                  found == Some(HostScoped(store.hostKeys[(host.value, info.algorithm)])))
            && (host.Some? && (host.value, info.algorithm) !in store.hostKeys ==>
                  && (found.Some? <==> endpoint in store.keys && store.keys[endpoint].algorithm == info.algorithm)
                  && (found.Some? ==> found.value == LegacyEndpoint(store.keys[endpoint])))
  {
  }

  // Records without a blob are compared by fingerprint alone.
  predicate SameKey(saved: KeyInfo, info: KeyInfo) {
    saved.fingerprint == info.fingerprint && (saved.blob == "" || saved.blob == info.blob)
  }

  datatype Verdict = Accept | Promote | Changed | Ask

  function Judge(store: Store, host: Option<Host>, info: KeyInfo): Verdict {
    match Lookup(store, host, info)
    case None => Ask
    case Some(found) =>
      if !SameKey(found.key, info) then Changed
      else if found.LegacyEndpoint? && found.key.blob != "" then Promote
      else Accept
  }

  // What the record found means for a key, told from the two tables: a key that differs from it
  // is changed; the same key is accepted, and copied to the host if found for its endpoint by
  // the whole key.
  lemma JudgeIs(store: Store, host: Option<Host>, info: KeyInfo)
    ensures var verdict, found := Judge(store, host, info), Lookup(store, host, info);
            && (verdict == Ask <==> found.None?)
            && (verdict == Changed <==>
                  && found.Some?
                  && (found.value.key.fingerprint != info.fingerprint
                      || (found.value.key.blob != "" && found.value.key.blob != info.blob)))
            && (verdict == Promote <==>
                  && host.Some? && (host.value, info.algorithm) !in store.hostKeys
                  && (info.hostname, info.port) in store.keys
                  && var endpoint := store.keys[(info.hostname, info.port)];
                  && endpoint.algorithm == info.algorithm && endpoint.fingerprint == info.fingerprint
                  && endpoint.blob == info.blob != "")
  {
    LookupIs(store, host, info);
  }

  datatype Result =
    | Accepted | HostKeyChanged | HostKeyRejected | DecisionTimeout | Aborted | StoreUnavailable | SaveFailed

  function AfterWait(outcome: Outcome): Result {
    match outcome
    case Got(decision) => if decision == Reject then HostKeyRejected else Accepted
    case Cancelled => HostKeyRejected
    case TimedOut => DecisionTimeout
    case Aborted => Aborted
  }

  // ---------------------------------------------------------------- verifications as steps

  datatype Stage = Asking | Saving | Promoting | Ended(result: Result)

  datatype Verification = Verification(host: Option<Host>, info: KeyInfo, decided: Option<Outcome>, stage: Stage)
  {
    function Slot(): Slot { SlotOf(host, info) }
    predicate Saves() { decided == Some(P.Got(TrustAndSave)) }
    predicate Trusts() { Saves() || decided == Some(P.Got(TrustOnce)) }
  }

  datatype State = State(store: Store, verifications: seq<Verification>)

  // `works`: the store access does not fail.
  datatype Action =
    | Begin(host: Option<Host>, info: KeyInfo, works: bool)
    | Decide(v: nat, outcome: Outcome)
    | Write(v: nat, works: bool)

  predicate Enabled(s: State, a: Action) {
    match a
    case Begin(_, _, _) => true
    case Decide(v, _) => v < |s.verifications| && s.verifications[v].stage.Asking?
    case Write(v, _) =>
      v < |s.verifications| && (s.verifications[v].stage.Saving? || s.verifications[v].stage.Promoting?)
  }

  function Begun(store: Store, host: Option<Host>, info: KeyInfo, works: bool): Stage {
    if !works then Ended(StoreUnavailable) else
    match Judge(store, host, info)
    case Accept => Ended(Accepted)
    case Promote => Promoting
    case Changed => Ended(HostKeyChanged)
    case Ask => Asking
  }

  // A failed save and a failed promotion are different errors.
  function Written(stage: Stage, works: bool): Result {
    if works then Accepted else if stage.Saving? then SaveFailed else StoreUnavailable
  }

  function Step(s: State, a: Action): State {
    if !Enabled(s, a) then s else
    match a
    case Begin(host, info, works) =>
      s.(verifications := s.verifications + [Verification(host, info, None, Begun(s.store, host, info, works))])
    case Decide(v, outcome) =>
      var stage := if outcome == P.Got(TrustAndSave) then Saving else Ended(AfterWait(outcome));
      s.(verifications := s.verifications[v := s.verifications[v].(decided := Some(outcome), stage := stage)])
    case Write(v, works) =>
      State(if works then Put(s.store, s.verifications[v].Slot(), s.verifications[v].info) else s.store,
            s.verifications[v := s.verifications[v].(stage := Ended(Written(s.verifications[v].stage, works)))])
  }

  function Exec(s: State, run: seq<Action>): State
    decreases |run|
  {
    if run == [] then s else Exec(Step(s, run[0]), run[1..])
  }

  // What becomes of a verification, decision by decision and write by write.
  lemma VerificationEnds(s: State, v: nat, outcome: Outcome, works: bool)
    ensures Enabled(s, Decide(v, outcome)) ==>
              var t := Step(s, Decide(v, outcome)).verifications[v];
              && t.decided == Some(outcome)
              && (outcome == P.Got(TrustOnce) ==> t.stage == Ended(Accepted))
              && (outcome == P.Got(TrustAndSave) ==> t.stage == Saving)
              && (outcome == P.Got(Reject) || outcome.Cancelled? ==> t.stage == Ended(HostKeyRejected))
              && (outcome.TimedOut? ==> t.stage == Ended(DecisionTimeout))
              && (outcome.Aborted? ==> t.stage == Ended(Result.Aborted))
    ensures Enabled(s, Write(v, works)) ==>
              var t, was := Step(s, Write(v, works)), s.verifications[v];
              && (works ==> t.verifications[v].stage == Ended(Accepted) && At(t.store, was.Slot()) == Some(was.info))
              && (!works ==> t.store == s.store)
              && (!works && was.stage.Saving? ==> t.verifications[v].stage == Ended(SaveFailed))
              && (!works && was.stage.Promoting? ==> t.verifications[v].stage == Ended(StoreUnavailable))
  {
  }

  // ---------------------------------------------------------------- every accepted key was trusted

  // Verifications of one logical host and algorithm, or without a host of one endpoint.
  predicate SameScope(a: Verification, b: Verification) {
    a.host == b.host &&
    if a.host.Some? then a.info.algorithm == b.info.algorithm
    else a.info.hostname == b.info.hostname && a.info.port == b.info.port
  }

  // A verification without a host, of the endpoint `b` is at.
  predicate OfEndpoint(a: Verification, b: Verification) {
    a.host.None? && a.info.hostname == b.info.hostname && a.info.port == b.info.port
  }

  // A user decision in verification `v` saved exactly this key.
  ghost predicate ChosenBy(s: State, v: nat, key: KeyInfo) {
    && v < |s.verifications| && s.verifications[v].Saves()
    && s.verifications[v].info.fingerprint == key.fingerprint && s.verifications[v].info.blob == key.blob
    && s.verifications[v].info.algorithm == key.algorithm
  }

  ghost predicate ChosenFor(s: State, scope: Verification, key: KeyInfo) {
    exists v: nat :: ChosenBy(s, v, key) && SameScope(s.verifications[v], scope)
  }

  ghost predicate ChosenAtEndpoint(s: State, at: Verification, key: KeyInfo) {
    exists v: nat :: ChosenBy(s, v, key) && OfEndpoint(s.verifications[v], at)
  }

  // Verification `u` of the host met an endpoint the user had chosen the key for.
  ghost predicate Inherited(s: State, scope: Verification, u: nat, key: KeyInfo) {
    && u < |s.verifications| && scope.host.Some? && SameScope(s.verifications[u], scope)
    && ChosenAtEndpoint(s, s.verifications[u], key)
  }

  // The user chose this key for this very scope, or for an endpoint of the host's.
  ghost predicate Origin(s: State, scope: Verification, key: KeyInfo) {
    ChosenFor(s, scope, key) || exists u: nat :: Inherited(s, scope, u, key)
  }

  ghost predicate Justified(s: State, v: nat)
    requires v < |s.verifications|
  {
    var verification := s.verifications[v];
    match verification.stage
    case Asking => verification.decided.None?
    case Saving => verification.Saves()
    case Promoting =>
      && verification.decided.None? && verification.host.Some?
      && ChosenAtEndpoint(s, verification, verification.info)
    case Ended(result) => result.Accepted? ==> verification.Trusts() || Recognised(s, verification)
  }

  // Accepted without asking, for a key with an origin.
  ghost predicate Recognised(s: State, v: Verification) {
    v.decided.None? && exists key :: Origin(s, v, key) && SameKey(key, v.info)
  }

  // Whatever verification may read a record, the record has an origin for it.
  ghost predicate RecordsInv(s: State) {
    && (forall hostname, port, scope: Verification | (hostname, port) in s.store.keys
          && scope.info.hostname == hostname && scope.info.port == port ::
          ChosenAtEndpoint(s, scope, s.store.keys[(hostname, port)]))
    && (forall host, algorithm, scope: Verification | (host, algorithm) in s.store.hostKeys
          && scope.host == Some(host) && scope.info.algorithm == algorithm ::
          Origin(s, scope, s.store.hostKeys[(host, algorithm)]))
  }

  ghost predicate TrustInv(s: State) {
    RecordsInv(s) && forall v: nat | v < |s.verifications| :: Justified(s, v)
  }

  // Verifications keep what they are for, and decisions once taken.
  lemma VerificationsStay(s: State, a: Action, v: nat)
    requires TrustInv(s) && v < |s.verifications|
    ensures v < |Step(s, a).verifications|
    ensures Step(s, a).verifications[v].host == s.verifications[v].host
    ensures Step(s, a).verifications[v].info == s.verifications[v].info
    ensures s.verifications[v].Saves() ==> Step(s, a).verifications[v].Saves()
  {
    assert Justified(s, v);
  }

  lemma ChosenForStays(s: State, a: Action, scope: Verification, key: KeyInfo)
    requires TrustInv(s) && ChosenFor(s, scope, key)
    ensures ChosenFor(Step(s, a), scope, key)
  {
    var v: nat :| ChosenBy(s, v, key) && SameScope(s.verifications[v], scope);
    VerificationsStay(s, a, v);
    assert ChosenBy(Step(s, a), v, key);
  }

  lemma ChosenAtEndpointStays(s: State, a: Action, at: Verification, key: KeyInfo)
    requires TrustInv(s) && ChosenAtEndpoint(s, at, key)
    ensures ChosenAtEndpoint(Step(s, a), at, key)
  {
    var v: nat :| ChosenBy(s, v, key) && OfEndpoint(s.verifications[v], at);
    VerificationsStay(s, a, v);
    assert ChosenBy(Step(s, a), v, key);
  }

  // Who looks at an endpoint is told by its name and port alone.
  lemma SameEndpoint(s: State, at: Verification, other: Verification, key: KeyInfo)
    requires ChosenAtEndpoint(s, at, key)
    requires at.info.hostname == other.info.hostname && at.info.port == other.info.port
    ensures ChosenAtEndpoint(s, other, key)
  {
    var v: nat :| ChosenBy(s, v, key) && OfEndpoint(s.verifications[v], at);
    assert OfEndpoint(s.verifications[v], other);
  }

  lemma OriginStays(s: State, a: Action, scope: Verification, key: KeyInfo)
    requires TrustInv(s) && Origin(s, scope, key)
    ensures Origin(Step(s, a), scope, key)
  {
    var t := Step(s, a);
    if ChosenFor(s, scope, key) {
      ChosenForStays(s, a, scope, key);
    } else {
      var u: nat :| Inherited(s, scope, u, key);
      ChosenAtEndpointStays(s, a, s.verifications[u], key);
      VerificationsStay(s, a, u);
      SameEndpoint(t, s.verifications[u], t.verifications[u], key);
      assert Inherited(t, scope, u, key);
    }
  }

  lemma JustifiedStays(s: State, a: Action, v: nat)
    requires TrustInv(s) && v < |s.verifications| && Step(s, a).verifications[v] == s.verifications[v]
    ensures Justified(Step(s, a), v)
  {
    var verification := s.verifications[v];
    assert Justified(s, v);
    if verification.stage.Promoting? { ChosenAtEndpointStays(s, a, verification, verification.info); }
    if verification.stage == Ended(Accepted) && !verification.Trusts() {
      var key :| Origin(s, verification, key) && SameKey(key, verification.info);
      OriginStays(s, a, verification, key);
    }
  }

  // A record found for a verification has an origin for it.
  lemma FoundHasOrigin(s: State, v: nat, key: KeyInfo)
    requires RecordsInv(s) && v < |s.verifications|
    requires var verification := s.verifications[v];
             var found := Lookup(s.store, verification.host, verification.info);
             found.Some? && found.value.key == key
    ensures Origin(s, s.verifications[v], key)
    ensures Lookup(s.store, s.verifications[v].host, s.verifications[v].info).value.LegacyEndpoint? ==>
              ChosenAtEndpoint(s, s.verifications[v], key)
  {
    var verification := s.verifications[v];
    var found := Lookup(s.store, verification.host, verification.info).value;
    if found.LegacyEndpoint? {
      assert Inherited(s, verification, v, key);
    } else if verification.host.None? {
      var w: nat :| ChosenBy(s, w, key) && OfEndpoint(s.verifications[w], verification);
      assert SameScope(s.verifications[w], verification);
    }
  }

  // Promoting keeps the key and its algorithm.
  lemma BegunIsJustified(s: State, host: Option<Host>, info: KeyInfo, works: bool)
    requires TrustInv(s)
    ensures var t := Step(s, Begin(host, info, works)); Justified(t, |s.verifications|)
  {
    var a := Begin(host, info, works);
    var t, v := Step(s, a), |s.verifications|;
    StepKeepsRecords(s, a);
    if works && Lookup(s.store, host, info).Some? {
      var key := Lookup(s.store, host, info).value.key;
      FoundHasOrigin(t, v, key);
      if Judge(s.store, host, info).Promote? {
        var w: nat :| ChosenBy(t, w, key) && OfEndpoint(t.verifications[w], t.verifications[v]);
        assert ChosenBy(t, w, info);
      }
    }
  }

  lemma WrittenIsJustified(s: State, v: nat, works: bool)
    requires TrustInv(s) && Enabled(s, Write(v, works))
    ensures Justified(Step(s, Write(v, works)), v)
  {
    var t, verification := Step(s, Write(v, works)), s.verifications[v];
    assert Justified(s, v);
    if verification.stage.Promoting? && works {
      ChosenAtEndpointStays(s, Write(v, works), verification, verification.info);
      SameEndpoint(t, verification, t.verifications[v], verification.info);
      assert Inherited(t, t.verifications[v], v, verification.info);
      assert SameKey(verification.info, t.verifications[v].info);
    }
  }

  // What a verification writes has an origin for whoever reads that record.
  lemma WrittenHasOrigin(s: State, v: nat, scope: Verification)
    requires TrustInv(s) && Enabled(s, Write(v, true)) && SameScope(s.verifications[v], scope)
    ensures Origin(s, scope, s.verifications[v].info)
    ensures scope.host.None? ==> ChosenFor(s, scope, s.verifications[v].info)
  {
    var verification := s.verifications[v];
    assert Justified(s, v);
    if verification.stage.Saving? {
      assert ChosenBy(s, v, verification.info);
    } else {
      assert Inherited(s, scope, v, verification.info);
    }
  }

  lemma StepKeepsEndpointRecord(s: State, a: Action, hostname: string, port: nat, scope: Verification)
    requires TrustInv(s) && (hostname, port) in Step(s, a).store.keys
    requires scope.info.hostname == hostname && scope.info.port == port
    ensures ChosenAtEndpoint(Step(s, a), scope, Step(s, a).store.keys[(hostname, port)])
  {
    var key := Step(s, a).store.keys[(hostname, port)];
    if (hostname, port) in s.store.keys && s.store.keys[(hostname, port)] == key {
      ChosenAtEndpointStays(s, a, scope, key);
    } else {
      assert Justified(s, a.v);
      assert ChosenBy(s, a.v, key) && OfEndpoint(s.verifications[a.v], scope);
      ChosenAtEndpointStays(s, a, scope, key);
    }
  }

  lemma StepKeepsHostRecord(s: State, a: Action, host: Host, algorithm: string, scope: Verification)
    requires TrustInv(s) && (host, algorithm) in Step(s, a).store.hostKeys
    requires scope.host == Some(host) && scope.info.algorithm == algorithm
    ensures Origin(Step(s, a), scope, Step(s, a).store.hostKeys[(host, algorithm)])
  {
    var key := Step(s, a).store.hostKeys[(host, algorithm)];
    if (host, algorithm) in s.store.hostKeys && s.store.hostKeys[(host, algorithm)] == key {
      OriginStays(s, a, scope, key);
    } else {
      WrittenHasOrigin(s, a.v, scope);
      OriginStays(s, a, scope, key);
    }
  }

  lemma StepKeepsRecords(s: State, a: Action)
    requires TrustInv(s)
    ensures RecordsInv(Step(s, a))
  {
    var t := Step(s, a);
    forall hostname, port, scope: Verification | (hostname, port) in t.store.keys
        && scope.info.hostname == hostname && scope.info.port == port
      ensures ChosenAtEndpoint(t, scope, t.store.keys[(hostname, port)])
    {
      StepKeepsEndpointRecord(s, a, hostname, port, scope);
    }
    forall host, algorithm, scope: Verification | (host, algorithm) in t.store.hostKeys
        && scope.host == Some(host) && scope.info.algorithm == algorithm
      ensures Origin(t, scope, t.store.hostKeys[(host, algorithm)])
    {
      StepKeepsHostRecord(s, a, host, algorithm, scope);
    }
  }

  lemma StepKeepsTrust(s: State, a: Action)
    requires TrustInv(s)
    ensures TrustInv(Step(s, a))
  {
    var t := Step(s, a);
    StepKeepsRecords(s, a);
    forall v: nat | v < |t.verifications| ensures Justified(t, v) {
      if v < |s.verifications| && t.verifications[v] == s.verifications[v] {
        JustifiedStays(s, a, v);
      } else {
        assert v < |s.verifications| ==> Justified(s, v);
        match a
        case Begin(host, info, works) => BegunIsJustified(s, host, info, works);
        case Decide(_, _) =>
        case Write(w, works) => WrittenIsJustified(s, w, works);
      }
    }
  }

  lemma {:induction false} RunKeepsTrust(s: State, run: seq<Action>)
    requires TrustInv(s)
    ensures TrustInv(Exec(s, run))
    decreases |run|
  {
    if run != [] {
      StepKeepsTrust(s, run[0]);
      RunKeepsTrust(Step(s, run[0]), run[1..]);
    }
  }

  // The key of verification `v` was chosen in verification `w`, for the scope of `v` or, of a
  // host's keys, for an endpoint that a verification of that host and algorithm was at.
  ghost predicate ChosenElsewhere(s: State, v: nat, w: nat) {
    && v < |s.verifications| && w < |s.verifications| && s.verifications[w].Saves()
    && SameKey(s.verifications[w].info, s.verifications[v].info)
    && (|| SameScope(s.verifications[w], s.verifications[v])
        || (s.verifications[v].host.Some? && exists u: nat ::
              u < |s.verifications| && SameScope(s.verifications[u], s.verifications[v])
              && OfEndpoint(s.verifications[w], s.verifications[u])))
  }

  lemma RecognisedWasChosen(s: State, v: nat) returns (w: nat)
    requires v < |s.verifications| && Recognised(s, s.verifications[v])
    ensures ChosenElsewhere(s, v, w)
  {
    var verification := s.verifications[v];
    var key :| Origin(s, verification, key) && SameKey(key, verification.info);
    if ChosenFor(s, verification, key) {
      var x: nat :| ChosenBy(s, x, key) && SameScope(s.verifications[x], verification);
      w := x;
    } else {
      var u: nat :| Inherited(s, verification, u, key);
      var x: nat :| ChosenBy(s, x, key) && OfEndpoint(s.verifications[x], s.verifications[u]);
      w := x;
    }
  }

  // From an empty store, in every interleaving: a key is accepted only if the user trusted it
  // in this very verification, or, without being asked, if the user chose to save the same
  // key in another one for the same host and algorithm, or endpoint.
  lemma EveryAcceptedKeyWasTrusted(run: seq<Action>, v: nat) returns (w: nat)
    requires v < |Exec(State(Nothing, []), run).verifications|
    requires Exec(State(Nothing, []), run).verifications[v].stage == Ended(Accepted)
    ensures var s := Exec(State(Nothing, []), run);
            || s.verifications[v].Trusts()
            || (s.verifications[v].decided.None? && ChosenElsewhere(s, v, w))
  {
    var s := Exec(State(Nothing, []), run);
    RunKeepsTrust(State(Nothing, []), run);
    assert Justified(s, v);
    w := v;
    if !s.verifications[v].Trusts() { w := RecognisedWasChosen(s, v); }
  }

  // ---------------------------------------------------------------- pinned keys

  ghost predicate KeepsPins(before: Store, after: Store) {
    forall slot | At(before, slot).Some? :: At(after, slot) == At(before, slot)
  }

  // Every record survives a step if and only if the step does not write a different key
  // over one: the write does not look again at what the verification read.
  lemma KeepsPinsIff(s: State, a: Action)
    requires Enabled(s, a)
    ensures KeepsPins(s.store, Step(s, a).store) <==>
            (a.Write? && a.works ==>
               At(s.store, s.verifications[a.v].Slot()) in {None, Some(s.verifications[a.v].info)})
  {
    if a.Write? && a.works {
      var slot := s.verifications[a.v].Slot();
      assert At(Step(s, a).store, slot) == Some(s.verifications[a.v].info);
    }
  }

  ghost predicate Open(v: Verification) { !v.stage.Ended? }

  // No verification begins while another for the same slot is open.
  ghost predicate Alone(s: State, a: Action) {
    a.Begin? ==> forall v | 0 <= v < |s.verifications| && Open(s.verifications[v]) ::
        s.verifications[v].Slot() != SlotOf(a.host, a.info)
  }

  ghost predicate AllAlone(s: State, run: seq<Action>)
    decreases |run|
  {
    run != [] ==> Alone(s, run[0]) && AllAlone(Step(s, run[0]), run[1..])
  }

  ghost predicate OpenInv(s: State) {
    && (forall v | 0 <= v < |s.verifications| && Open(s.verifications[v]) ::
        At(s.store, s.verifications[v].Slot()).None?)
    && (forall v, w | 0 <= v < |s.verifications| && 0 <= w < |s.verifications| && Open(s.verifications[v])
        && Open(s.verifications[w])
          && s.verifications[v].Slot() == s.verifications[w].Slot() :: v == w)
  }

  lemma StepKeepsOpen(s: State, a: Action)
    requires OpenInv(s) && Alone(s, a)
    ensures OpenInv(Step(s, a)) && KeepsPins(s.store, Step(s, a).store)
  {
  }

  // With one verification per slot at a time, a saved key is never replaced.
  lemma {:induction false} PinnedForever(s: State, run: seq<Action>)
    requires OpenInv(s) && AllAlone(s, run)
    ensures OpenInv(Exec(s, run)) && KeepsPins(s.store, Exec(s, run).store)
    decreases |run|
  {
    if run != [] {
      StepKeepsOpen(s, run[0]);
      PinnedForever(Step(s, run[0]), run[1..]);
    }
  }

  // A key the user chose to save decides every later verification of its slot without
  // asking: the same key is accepted, any other refused.
  lemma SavedKeyDecides(s: State, v: nat, run: seq<Action>, info: KeyInfo)
    requires OpenInv(s) && Enabled(s, Write(v, true)) && AllAlone(Step(s, Write(v, true)), run)
    requires SlotOf(s.verifications[v].host, info) == s.verifications[v].Slot()
    ensures var t := Exec(Step(s, Write(v, true)), run);
            Begun(t.store, s.verifications[v].host, info, true)
              == Ended(if SameKey(s.verifications[v].info, info) then Accepted else HostKeyChanged)
  {
    var t := Step(s, Write(v, true));
    StepKeepsOpen(s, Write(v, true));
    PinnedForever(t, run);
    var slot := s.verifications[v].Slot();
    assert At(t.store, slot) == Some(s.verifications[v].info);
    assert At(Exec(t, run).store, slot) == Some(s.verifications[v].info);
  }

  lemma NextTwo(s: State, run: seq<Action>)
    requires |run| >= 2
    ensures Exec(s, run) == Exec(Step(Step(s, run[0]), run[1]), run[2..])
  {
    assert run[1..][1..] == run[2..];
  }

  function BothSaved(first: KeyInfo, second: KeyInfo): seq<Action> {
    [Begin(None, first, true), Begin(None, second, true), Decide(0, P.Got(TrustAndSave)), Write(0, true),
     Decide(1, P.Got(TrustAndSave)), Write(1, true)]
  }

  // Two prompts for one endpoint open together, both answered "trust and save": the second
  // write replaces the first key, which is then refused as changed.
  lemma ConcurrentSavesReplace(first: KeyInfo, second: KeyInfo)
    requires first.hostname == second.hostname && first.port == second.port && first.fingerprint != second.fingerprint
    ensures var s := Exec(State(Nothing, []), BothSaved(first, second));
            && |s.verifications| == 2 && s.verifications[0].stage == Ended(Accepted)
            && Begun(s.store, None, first, true) == Ended(HostKeyChanged)
  {
    var s, run := State(Nothing, []), BothSaved(first, second);
    NextTwo(s, run);
    var s2 := Step(Step(s, run[0]), run[1]);
    assert |s2.verifications| == 2 && s2.verifications[0].stage == Asking && s2.verifications[1].stage == Asking;
    NextTwo(s2, run[2..]);
    var s4 := Step(Step(s2, run[2]), run[3]);
    assert |s4.verifications| == 2 && s4.verifications[0].stage == Ended(Accepted)
           && s4.verifications[1].stage == Asking;
    assert run[2..][2..] == run[4..];
    NextTwo(s4, run[4..]);
    var s6 := Step(Step(s4, run[4]), run[5]);
    assert At(s6.store, ForEndpoint(first.hostname, first.port)) == Some(second);
    assert run[4..][2..] == [];
  }

  // ---------------------------------------------------------------- the store and one verification

  class MemoryKnownHosts {
    var keys: map<(string, nat), KeyInfo>
    var hostKeys: map<(Host, string), KeyInfo>

    ghost function View(): Store
      reads this
    {
      Store(keys, hostKeys)
    }

    constructor ()
      ensures View() == Nothing
    {
      keys, hostKeys := map[], map[];
    }

    method LookupForHostMatchAlgorithm(host: Host, hostname: string, port: nat, algorithm: string)
        returns (found: Option<Match>)
      ensures forall info: KeyInfo | info.hostname == hostname && info.port == port && info.algorithm == algorithm ::
                found == Lookup(View(), Some(host), info)
    {
      if (host, algorithm) in hostKeys { return Some(HostScoped(hostKeys[(host, algorithm)])); }
      if (hostname, port) in keys && keys[(hostname, port)].algorithm == algorithm {
        return Some(LegacyEndpoint(keys[(hostname, port)]));
      }
      return None;
    }

    method LookupEndpoint(hostname: string, port: nat) returns (found: Option<KeyInfo>)
      ensures found == At(View(), ForEndpoint(hostname, port))
    {
      found := if (hostname, port) in keys then Some(keys[(hostname, port)]) else None;
    }

    method Save(hostname: string, port: nat, info: KeyInfo)
      modifies this`keys
      ensures View() == Put(old(View()), ForEndpoint(hostname, port), info)
    {
      keys := keys[(hostname, port) := info];
    }

    method SaveForHost(host: Host, info: KeyInfo)
      modifies this`hostKeys
      ensures View() == Put(old(View()), ForHost(host, info.algorithm), info)
    {
      hostKeys := hostKeys[(host, info.algorithm) := info];
    }
  }

  // A whole verification with nothing in between; `outcome` is how the prompt would end,
  // `readable` and `writable` whether the store's lookup and its save work.
  method VerifyForConnection(known: MemoryKnownHosts, host: Option<Host>, info: KeyInfo, outcome: Outcome,
                             readable: bool, writable: bool)
    returns (r: Result, asked: bool)
    modifies known
    ensures asked == (readable && Lookup(old(known.View()), host, info).None?)
    ensures !readable ==> r == StoreUnavailable && known.View() == old(known.View())
    ensures r.Accepted? <==>
            && readable
            && (if asked then outcome == P.Got(TrustOnce) || (outcome == P.Got(TrustAndSave) && writable)
                else SameKey(Lookup(old(known.View()), host, info).value.key, info)
                     && (Judge(old(known.View()), host, info).Promote? ==> writable))
    ensures readable && !asked && !r.Accepted? ==>
            r == if Judge(old(known.View()), host, info).Changed? then HostKeyChanged else StoreUnavailable
    ensures asked && !r.Accepted? ==>
            && (outcome == P.Got(TrustAndSave) ==> r == SaveFailed)
            && (outcome == P.Got(Reject) || outcome.Cancelled? ==> r == HostKeyRejected)
            && (outcome.TimedOut? ==> r == DecisionTimeout)
            && (outcome.Aborted? ==> r == Result.Aborted)
    // A key recognised at its endpoint becomes the host's own; so does, for its scope, a key saved.
    ensures r.Accepted? && host.Some? && !asked && (host.value, info.algorithm) !in old(known.hostKeys)
            && old(known.keys)[(info.hostname, info.port)].blob != "" ==>
              known.hostKeys == old(known.hostKeys)[(host.value, info.algorithm) := info]
                  && known.keys == old(known.keys)
    ensures r.Accepted? && asked && outcome == P.Got(TrustAndSave) ==>
              if host.Some? then known.hostKeys == old(known.hostKeys)[(host.value, info.algorithm) := info]
              else known.keys == old(known.keys)[(info.hostname, info.port) := info]
    ensures KeepsPins(old(known.View()), known.View())
    ensures At(known.View(), SlotOf(host, info)) == Some(info) <==>
            || At(old(known.View()), SlotOf(host, info)) == Some(info)
            || (writable && asked && outcome == P.Got(TrustAndSave))
            || (writable && readable && Judge(old(known.View()), host, info).Promote?)
    ensures forall slot | slot != SlotOf(host, info) :: At(known.View(), slot) == At(old(known.View()), slot)
  {
    if !readable { return StoreUnavailable, false; }
    var found: Option<Match>;
    if host.Some? {
      found := known.LookupForHostMatchAlgorithm(host.value, info.hostname, info.port, info.algorithm);
    } else {
      var key := known.LookupEndpoint(info.hostname, info.port);
      found := if key.Some? then Some(HostScoped(key.value)) else None;
    }
    asked := found.None?;
    if found.Some? {
      var saved := found.value.key;
      if saved.fingerprint == info.fingerprint && saved.blob != "" {
        if saved.blob == info.blob {
          if host.Some? && found.value.LegacyEndpoint? {
            if !writable { return StoreUnavailable, asked; }
            known.SaveForHost(host.value, info);
          }
          return Accepted, asked;
        }
      } else if saved.fingerprint == info.fingerprint {
        return Accepted, asked;
      }
      return HostKeyChanged, asked;
    }
    if outcome == P.Got(TrustAndSave) {
      if !writable { return SaveFailed, asked; }
      if host.Some? {
        known.SaveForHost(host.value, info);
      } else {
        known.Save(info.hostname, info.port, info);
      }
    }
    r := AfterWait(outcome);
  }
}
