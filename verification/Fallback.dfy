// The candidate loop of a connect: fall back on address failures only.

module Fallback {
  import opened Lifecycle

  datatype SshError =
    | HostKeyChanged | HostKeyRejected | HostKeyDecisionTimeout | HostKeyStoreUnavailable
    | AuthenticationFailed | CredentialRequired | AuthMethodUnavailable
    | Timeout | ConnectionRefused | Unreachable | NameResolution
    | SshCancelled | InvalidConfiguration | Protocol | Io | MissingExitStatus | ChannelClosed

  datatype ErrorKind =
    | Network | TimedOut | TailscaleDown | Authentication | NeedsCredential | HostKey
    | BadConfiguration | KindCancelled | BadProtocol | Internal
  {
    predicate Retryable() { this in {Network, TimedOut, TailscaleDown} }
  }

  predicate AddressFallbackIsRetryable(error: SshError) {
    error in {Timeout, ConnectionRefused, Unreachable, NameResolution}
  }

  function KindOf(error: SshError): ErrorKind {
    match error
    case Timeout => TimedOut
    case ConnectionRefused => Network
    case Unreachable => Network
    case NameResolution => Network
    case AuthenticationFailed => Authentication
    case CredentialRequired => NeedsCredential
    case HostKeyChanged => HostKey
    case HostKeyRejected => HostKey
    case HostKeyDecisionTimeout => HostKey
    case HostKeyStoreUnavailable => HostKey
    case SshCancelled => KindCancelled
    case InvalidConfiguration => BadConfiguration
    case AuthMethodUnavailable => BadConfiguration
    case Protocol => BadProtocol
    case MissingExitStatus => BadProtocol
    case ChannelClosed => BadProtocol
    case Io => Internal
  }

  // The errors each kind stands for.
  lemma KindsOf(error: SshError)
    ensures KindOf(error) == TimedOut <==> error == Timeout
    ensures KindOf(error) == Network <==> error in {ConnectionRefused, Unreachable, NameResolution}
    ensures KindOf(error) == Authentication <==> error == AuthenticationFailed
    ensures KindOf(error) == NeedsCredential <==> error == CredentialRequired
    ensures KindOf(error) == HostKey <==>
            error in {HostKeyChanged, HostKeyRejected, HostKeyDecisionTimeout, HostKeyStoreUnavailable}
    ensures KindOf(error) == KindCancelled <==> error == SshCancelled
    ensures KindOf(error) == BadConfiguration <==> error in {InvalidConfiguration, AuthMethodUnavailable}
    ensures KindOf(error) == BadProtocol <==> error in {Protocol, MissingExitStatus, ChannelClosed}
    ensures KindOf(error) == Internal <==> error == Io
  {
  }

  // The two policies, one for the next address and one for the next attempt, agree.
  lemma FallbackMatchesRetry(error: SshError)
    ensures AddressFallbackIsRetryable(error) <==> KindOf(error).Retryable()
  {
  }

  // What dialing a candidate would yield.
  datatype Dial = Connected | Failure(error: SshError)

  predicate Decisive(dial: Dial) {
    dial.Connected? || !AddressFallbackIsRetryable(dial.error)
  }

  // The first decisive outcome on the list, or its length.
  function FirstDecisive(dials: seq<Dial>): (n: nat)
    ensures n <= |dials|
    ensures forall i | 0 <= i < n :: !Decisive(dials[i])
    ensures n < |dials| ==> Decisive(dials[n])
  {
    if dials == [] || Decisive(dials[0]) then 0 else 1 + FirstDecisive(dials[1..])
  }

  datatype ConnectResult = Success(generation: nat) | Error(kind: ErrorKind, exhausted: bool)

  // One guarded connect, alone on its controller. `dials[i]` is what candidate i would
  // do; `tried` counts the candidates dialed.
  method Connect(controller: ConnectionStateController, dials: seq<Dial>, jumpNeeded: bool, jumpCredentials: bool)
    returns (r: ConnectResult, tried: nat)
    requires AtRest(controller.state)
    modifies controller
    // No transition on the way is refused, and the state ends where the result says.
    ensures controller.state == if r.Success? then Ready else Failed
    ensures controller.generation == old(controller.generation) + (if dials == [] then 0 else 1)
    // Nothing is dialed without candidates or without the jump host's own credentials.
    ensures dials == [] || (jumpNeeded && !jumpCredentials) ==> r == Error(BadConfiguration, false) && tried == 0
    // Otherwise the list is walked to its first decisive outcome and no further.
    ensures dials != [] && !(jumpNeeded && !jumpCredentials) ==>
              var n := FirstDecisive(dials);
              if n == |dials| then tried == n && r == Error(KindOf(dials[n - 1].error), true) && r.kind.Retryable()
              else
                && tried == n + 1
                && (dials[n].Connected? ==> r == Success(controller.generation))
                && (dials[n].Failure? ==> r == Error(KindOf(dials[n].error), false) && !r.kind.Retryable())
  {
    tried := 0;
    var resolving := controller.Transition(ResolvingAddress);
    assert resolving.Done?;
    if dials == [] {
      var failed := controller.Transition(Failed);
      assert failed.Done?;
      return Error(BadConfiguration, false), tried;
    }
    var generation := controller.ReserveGeneration();
    if jumpNeeded && !jumpCredentials {
      var failed := controller.Transition(Failed);
      assert failed.Done?;
      return Error(BadConfiguration, false), tried;
    }
    var last := Internal;
    while tried < |dials|
      invariant tried <= |dials| && tried <= FirstDecisive(dials)
      invariant controller.state in {ResolvingAddress, Connecting}
      invariant controller.generation == generation == old(controller.generation) + 1
      invariant tried > 0 ==> controller.state == Connecting
      invariant tried > 0 ==> dials[tried - 1].Failure? && last == KindOf(dials[tried - 1].error)
      invariant tried > 0 ==> last.Retryable()
    {
      var connecting := controller.Transition(Connecting);
      assert connecting.Done?;
      var dial := dials[tried];
      tried := tried + 1;
      if dial.Connected? {
        var installed := controller.InstallGeneration(generation);
        assert installed.Done?;
        var ready := controller.Transition(Ready);
        assert ready.Done?;
        return Success(generation), tried;
      }
      last := KindOf(dial.error);
      if !AddressFallbackIsRetryable(dial.error) {
        FallbackMatchesRetry(dial.error);
        var failed := controller.Transition(Failed);
        assert failed.Done?;
        return Error(last, false), tried;
      }
      FallbackMatchesRetry(dial.error);
      FirstDecisiveIs(dials, tried);
    }
    var failed := controller.Transition(Failed);
    assert failed.Done?;
    return Error(last, true), tried;
  }

  lemma {:induction false} FirstDecisiveIs(dials: seq<Dial>, n: nat)
    requires n <= |dials| && forall i | 0 <= i < n :: !Decisive(dials[i])
    ensures n <= FirstDecisive(dials)
  {
    if n > 0 {
      FirstDecisiveIs(dials[1..], n - 1);
    }
  }
}
