// The four credential commands over two stores that fail independently: the host
// database (transactional) and the OS secret store.

module Credentials {
  import opened Options

  type Id = nat
  type Secret = seq<int>

  datatype AuthMode = Password | PublicKey | SshAgent | KeyboardInteractive
  datatype Provider = Native | Foreign
  datatype Kind = SshPassword | SshKeyPassphrase | TailscaleAuth

  // An opaque reference: which store, and `kind/host`.
  datatype Ref = Ref(provider: Provider, kind: Kind, owner: Id)
  {
    predicate Managed() { provider == Native }
  }

  datatype Tailscale = Tailscale(enabled: bool, settings: string, authKeyRef: Option<Ref>)
  datatype Jump = Jump(authMode: AuthMode, authRef: Option<Ref>)
  datatype Host = Host(id: Id, authMode: AuthMode, authRef: Option<Ref>, tailscale: Option<Tailscale>,
                       jump: Option<Jump>, details: string)
  {
    function TailscaleRef(): Option<Ref> { if tailscale.Some? then tailscale.value.authKeyRef else None }
    function JumpRef(): Option<Ref> { if jump.Some? then jump.value.authRef else None }
  }

  datatype Stores = Stores(hosts: map<Id, Host>, secrets: map<Ref, Secret>)

  // Which of a command's store accesses succeed, and whether the host validates.
  datatype Faults = Faults(valid: bool, read: bool, write: bool, put: bool, rollback: bool,
                           delete: bool, deleteTailscale: bool, deleteJump: bool)

  datatype Command =
    | SaveHost(host: Host)
    | SaveHostPassword(id: Id, password: Secret)
    | SaveTailscaleAuthKey(id: Id, key: Secret, wellFormed: bool)
    | DeleteHost(id: Id, hasRuns: bool)

  function KindFor(mode: AuthMode): Option<Kind> {
    match mode
    case Password => Some(SshPassword)
    case PublicKey => Some(SshKeyPassphrase)
    case SshAgent => None
    case KeyboardInteractive => None
  }

  // ---------------------------------------------------------------- the commands

  // Deletes what `previous` pointed to when it is ours and no longer `current`.
  function DropStale(secrets: map<Ref, Secret>, previous: Option<Ref>, current: Option<Ref>, works: bool)
    : map<Ref, Secret>
  {
    if previous.Some? && previous != current && previous.value.Managed() && works
    then secrets - {previous.value} else secrets
  }

  // References are the server's: the renderer's copy never supplies one.
  function WithServerRefs(existing: Option<Host>, host: Host): Host {
    if existing.None? then
      host.(authRef := None,
            tailscale := if host.tailscale.Some? then Some(host.tailscale.value.(authKeyRef := None)) else None,
            jump := if host.jump.Some? then Some(host.jump.value.(authRef := None)) else None)
    else
      var e := existing.value;
      host.(authRef := if e.authMode == host.authMode then e.authRef else None,
            tailscale := if host.tailscale.None? then None
                         else Some(host.tailscale.value.(authKeyRef := e.TailscaleRef())),
            jump := if host.jump.None? then None
                    else Some(host.jump.value.(authRef := KeptJumpRef(e, host.jump.value))))
  }

  function KeptJumpRef(existing: Host, jump: Jump): Option<Ref> {
    if existing.jump.Some? && existing.jump.value.authMode == jump.authMode then existing.JumpRef() else None
  }

  function Get(s: Stores, id: Id): Option<Host> { if id in s.hosts then Some(s.hosts[id]) else None }

  function AfterSaveHost(s: Stores, host: Host, f: Faults): Stores {
    if !f.read || !f.valid || !f.write then s else
    var e := Get(s, host.id);
    var saved := WithServerRefs(e, host);
    var secrets1 := DropStale(s.secrets, if e.Some? then e.value.authRef else None, saved.authRef, f.delete);
    var secrets2 := DropStale(secrets1, if e.Some? then e.value.TailscaleRef() else None, saved.TailscaleRef(),
                              f.deleteTailscale);
    var secrets3 := DropStale(secrets2, if e.Some? then e.value.JumpRef() else None, saved.JumpRef(), f.deleteJump);
    Stores(s.hosts[host.id := saved], secrets3)
  }

  // Undo a put: the old bytes back if they were kept, else no entry.
  function RolledBack(secrets: map<Ref, Secret>, reference: Ref, previous: Option<Secret>, works: bool)
    : map<Ref, Secret>
  {
    if !works then secrets
    else if previous.Some? then secrets[reference := previous.value]
    else secrets - {reference}
  }

  // Put the secret, write the host that refers to it, clean up or roll back.
  function AfterCommit(s: Stores, host: Host, reference: Ref, secret: Secret, previous: Option<Secret>,
                       stale: Option<Ref>, f: Faults): Stores
  {
    if !f.put then s
    else if !f.write then s.(secrets := RolledBack(s.secrets[reference := secret], reference, previous, f.rollback))
    else Stores(s.hosts[host.id := host], DropStale(s.secrets[reference := secret], stale, Some(reference), f.delete))
  }

  function Lookup(secrets: map<Ref, Secret>, reference: Option<Ref>): Option<Secret> {
    if reference.Some? && reference.value in secrets then Some(secrets[reference.value]) else None
  }

  function PasswordRef(host: Host): Option<Ref> {
    if KindFor(host.authMode).Some? then Some(Ref(Native, KindFor(host.authMode).value, host.id)) else None
  }

  function AfterSaveHostPassword(s: Stores, id: Id, password: Secret, f: Faults): Stores {
    if !f.read || id !in s.hosts || !f.valid || password == [] || PasswordRef(s.hosts[id]).None? then s else
    var host := s.hosts[id];
    var reference := PasswordRef(host).value;
    var previous := if host.authRef == Some(reference) then Lookup(s.secrets, host.authRef) else None;
    AfterCommit(s, host.(authRef := Some(reference)), reference, password, previous, host.authRef, f)
  }

  function TailscaleKeyRef(id: Id): Ref { Ref(Native, TailscaleAuth, id) }

  function ManagedOnly(reference: Option<Ref>): Option<Ref> {
    if reference.Some? && reference.value.Managed() then reference else None
  }

  function AfterSaveTailscaleAuthKey(s: Stores, id: Id, key: Secret, wellFormed: bool, f: Faults): Stores {
    if !wellFormed || key == [] || !f.read || id !in s.hosts then s else
    var host := s.hosts[id];
    var config := if host.tailscale.Some? then host.tailscale.value else Tailscale(true, "", None);
    var reference := TailscaleKeyRef(id);
    var stale := ManagedOnly(config.authKeyRef);
    AfterCommit(s, host.(tailscale := Some(config.(enabled := true, authKeyRef := Some(reference)))), reference, key,
                Lookup(s.secrets, stale), stale, f)
  }

  function AfterDeleteHost(s: Stores, id: Id, hasRuns: bool, f: Faults): Stores {
    if !f.read || hasRuns || !f.write || id !in s.hosts then s else
    var host := s.hosts[id];
    var secrets1 := DropStale(s.secrets, host.authRef, None, f.delete);
    var secrets2 := DropStale(secrets1, host.TailscaleRef(), None, f.deleteTailscale);
    Stores(s.hosts - {id}, DropStale(secrets2, host.JumpRef(), None, f.deleteJump))
  }

  function Apply(s: Stores, c: Command, f: Faults): Stores {
    match c
    case SaveHost(host) => AfterSaveHost(s, host, f)
    case SaveHostPassword(id, password) => AfterSaveHostPassword(s, id, password, f)
    case SaveTailscaleAuthKey(id, key, wellFormed) => AfterSaveTailscaleAuthKey(s, id, key, wellFormed, f)
    case DeleteHost(id, hasRuns) => AfterDeleteHost(s, id, hasRuns, f)
  }

  function Exec(s: Stores, run: seq<(Command, Faults)>): Stores
    decreases |run|
  {
    if run == [] then s else Exec(Apply(s, run[0].0, run[0].1), run[1..])
  }

  const Empty := Stores(map[], map[])

  // ---------------------------------------------------------------- consistency

  // Every stored reference is the host's own, of the kind its mode calls for, and has a secret.
  ghost predicate HostConsistent(host: Host, secrets: map<Ref, Secret>) {
    && (host.authRef.Some? ==> host.authRef == PasswordRef(host) && host.authRef.value in secrets)
    && (host.TailscaleRef().Some? ==>
        host.TailscaleRef() == Some(TailscaleKeyRef(host.id)) && host.TailscaleRef().value in secrets)
    && host.JumpRef() == None
  }

  ghost predicate Consistent(s: Stores) {
    forall id | id in s.hosts :: s.hosts[id].id == id && HostConsistent(s.hosts[id], s.secrets)
  }

  ghost predicate Referenced(s: Stores, r: Ref) {
    r.owner in s.hosts && (s.hosts[r.owner].authRef == Some(r) || s.hosts[r.owner].TailscaleRef() == Some(r))
  }

  ghost predicate NoOrphans(s: Stores) {
    forall r | r in s.secrets :: Referenced(s, r)
  }

  // A host's references survive any change to secrets that are not its own.
  lemma OthersStayConsistent(s: Stores, id: Id, secrets: map<Ref, Secret>)
    requires Consistent(s)
    requires forall r | r in s.secrets && r.owner != id :: r in secrets
    ensures forall other | other in s.hosts && other != id :: HostConsistent(s.hosts[other], secrets)
  {
  }

  lemma SaveHostKeeps(s: Stores, host: Host, f: Faults)
    requires Consistent(s)
    ensures Consistent(AfterSaveHost(s, host, f))
  {
    OthersStayConsistent(s, host.id, AfterSaveHost(s, host, f).secrets);
  }

  lemma SavePasswordKeeps(s: Stores, id: Id, password: Secret, f: Faults)
    requires Consistent(s)
    ensures Consistent(AfterSaveHostPassword(s, id, password, f))
  {
    OthersStayConsistent(s, id, AfterSaveHostPassword(s, id, password, f).secrets);
  }

  lemma SaveTailscaleKeeps(s: Stores, id: Id, key: Secret, wellFormed: bool, f: Faults)
    requires Consistent(s)
    ensures Consistent(AfterSaveTailscaleAuthKey(s, id, key, wellFormed, f))
  {
    OthersStayConsistent(s, id, AfterSaveTailscaleAuthKey(s, id, key, wellFormed, f).secrets);
  }

  lemma DeleteKeeps(s: Stores, id: Id, hasRuns: bool, f: Faults)
    requires Consistent(s)
    ensures Consistent(AfterDeleteHost(s, id, hasRuns, f))
  {
    OthersStayConsistent(s, id, AfterDeleteHost(s, id, hasRuns, f).secrets);
  }

  lemma ApplyKeepsConsistent(s: Stores, c: Command, f: Faults)
    requires Consistent(s)
    ensures Consistent(Apply(s, c, f))
  {
    match c
    case SaveHost(host) => SaveHostKeeps(s, host, f);
    case SaveHostPassword(id, password) => SavePasswordKeeps(s, id, password, f);
    case SaveTailscaleAuthKey(id, key, wellFormed) => SaveTailscaleKeeps(s, id, key, wellFormed, f);
    case DeleteHost(id, hasRuns) => DeleteKeeps(s, id, hasRuns, f);
  }

  // After any commands, with anything failing anywhere, no stored reference dangles.
  lemma {:induction false} AlwaysConsistent(s: Stores, run: seq<(Command, Faults)>)
    requires Consistent(s)
    ensures Consistent(Exec(s, run))
    decreases |run|
  {
    if run != [] {
      ApplyKeepsConsistent(s, run[0].0, run[0].1);
      AlwaysConsistent(Apply(s, run[0].0, run[0].1), run[1..]);
    }
  }

  predicate DeletesWork(f: Faults) { f.rollback && f.delete && f.deleteTailscale && f.deleteJump }

  lemma ApplyKeepsNoOrphans(s: Stores, c: Command, f: Faults)
    requires Consistent(s) && NoOrphans(s) && DeletesWork(f)
    ensures NoOrphans(Apply(s, c, f))
  {
    var t := Apply(s, c, f);
    forall r | r in t.secrets ensures Referenced(t, r) {
      if r in s.secrets { assert Referenced(s, r); }
    }
  }

  // While deletes work, no secret outlives its last reference.
  lemma {:induction false} NeverOrphans(s: Stores, run: seq<(Command, Faults)>)
    requires Consistent(s) && NoOrphans(s) && forall i | 0 <= i < |run| :: DeletesWork(run[i].1)
    ensures NoOrphans(Exec(s, run))
    decreases |run|
  {
    if run != [] {
      ApplyKeepsConsistent(s, run[0].0, run[0].1);
      ApplyKeepsNoOrphans(s, run[0].0, run[0].1);
      NeverOrphans(Apply(s, run[0].0, run[0].1), run[1..]);
    }
  }

  // ---------------------------------------------------------------- what each command is for

  ghost predicate SameSecret(s: Stores, t: Stores, r: Ref) {
    (r in s.secrets <==> r in t.secrets) && (r in s.secrets ==> s.secrets[r] == t.secrets[r])
  }

  // Other hosts and their secrets are as they were.
  ghost predicate OthersUntouched(s: Stores, t: Stores, id: Id) {
    && (forall other | other != id :: other in s.hosts <==> other in t.hosts)
    && (forall other | other != id && other in s.hosts :: s.hosts[other] == t.hosts[other])
    && (forall r: Ref | r.owner != id :: SameSecret(s, t, r))
  }

  // The password is stored under the host's reference for its mode, and only the reference
  // changes in the host; of the host's other secrets at most the one it replaces goes.
  ghost predicate PasswordSaved(s: Stores, t: Stores, id: Id, password: Secret) {
    && OthersUntouched(s, t, id) && id in s.hosts && id in t.hosts
    && (s.hosts[id].authMode.Password? || s.hosts[id].authMode.PublicKey?)
    && var reference := Ref(Native, if s.hosts[id].authMode.Password? then SshPassword else SshKeyPassphrase, id);
    && t.hosts[id] == s.hosts[id].(authRef := Some(reference))
    && reference in t.secrets && t.secrets[reference] == password
    && forall r: Ref | r != reference && s.hosts[id].authRef != Some(r) :: SameSecret(s, t, r)
  }

  ghost predicate TailscaleKeySaved(s: Stores, t: Stores, id: Id, key: Secret) {
    && OthersUntouched(s, t, id) && id in s.hosts && id in t.hosts
    && var reference := Ref(Native, TailscaleAuth, id);
    && var settings := if s.hosts[id].tailscale.Some? then s.hosts[id].tailscale.value.settings else "";
    && t.hosts[id] == s.hosts[id].(tailscale := Some(Tailscale(true, settings, Some(reference))))
    && reference in t.secrets && t.secrets[reference] == key
    && forall r: Ref | r != reference && s.hosts[id].TailscaleRef() != Some(r) :: SameSecret(s, t, r)
  }

  // What the caller submits, with the references of the host as it was: kept where the mode
  // is the same, and none for a new host.
  ghost predicate DetailsSaved(s: Stores, t: Stores, host: Host) {
    && host.id in t.hosts
    && var now := t.hosts[host.id];
    && t.hosts == s.hosts[host.id := now]
    && now.id == host.id && now.authMode == host.authMode && now.details == host.details
    && (now.tailscale.Some? <==> host.tailscale.Some?) && (now.jump.Some? <==> host.jump.Some?)
    && (host.tailscale.Some? ==>
          && now.tailscale.value.enabled == host.tailscale.value.enabled
          && now.tailscale.value.settings == host.tailscale.value.settings)
    && (host.jump.Some? ==> now.jump.value.authMode == host.jump.value.authMode)
    && (host.id !in s.hosts ==>
          && now.authRef == None
          && (now.tailscale.Some? ==> now.tailscale.value.authKeyRef == None)
          && (now.jump.Some? ==> now.jump.value.authRef == None))
    && (host.id in s.hosts ==> ReferencesKept(s.hosts[host.id], now))
  }

  ghost predicate ReferencesKept(was: Host, now: Host) {
    && now.authRef == (if was.authMode == now.authMode then was.authRef else None)
    && (now.tailscale.Some? ==>
          now.tailscale.value.authKeyRef == if was.tailscale.Some? then was.tailscale.value.authKeyRef else None)
    && (now.jump.Some? ==>
          now.jump.value.authRef == if was.jump.Some? && was.jump.value.authMode == now.jump.value.authMode
                                    then was.jump.value.authRef else None)
  }

  // Of the secrets exactly those go that the host no longer refers to, if deletes work.
  ghost predicate StaleGone(s: Stores, t: Stores, id: Id, deletes: bool) {
    && OthersUntouched(s, t, id) && id in t.hosts
    && (forall r | Refers(t.hosts[id], r) :: SameSecret(s, t, r))
    && (id in s.hosts ==>
          && (forall r: Ref | !Refers(s.hosts[id], r) :: SameSecret(s, t, r))
          && (deletes ==> forall r | Refers(s.hosts[id], r) && !Refers(t.hosts[id], r) :: r !in t.secrets))
  }

  // Whatever the stores hold: a secret of another provider is never deleted or changed, and
  // with working deletes no reference that the host gave up keeps a secret of ours.
  ghost predicate ForeignKept(s: Stores, t: Stores) {
    forall r: Ref | r.provider.Foreign? :: SameSecret(s, t, r)
  }

  ghost predicate HadReference(host: Host, r: Ref) {
    || host.authRef == Some(r)
    || (host.tailscale.Some? && host.tailscale.value.authKeyRef == Some(r))
    || (host.jump.Some? && host.jump.value.authRef == Some(r))
  }

  ghost predicate NothingLeftBehind(s: Stores, t: Stores, id: Id) {
    id in s.hosts ==>
      forall r: Ref | r.provider.Native? && HadReference(s.hosts[id], r)
             && !(id in t.hosts && HadReference(t.hosts[id], r)) ::
        r !in t.secrets
  }

  ghost predicate Refers(host: Host, r: Ref) { host.authRef == Some(r) || host.TailscaleRef() == Some(r) }

  ghost predicate HostDeleted(s: Stores, t: Stores, id: Id, deletes: bool) {
    && OthersUntouched(s, t, id) && id in s.hosts && id !in t.hosts
    && (deletes ==> forall r | Refers(s.hosts[id], r) :: r !in t.secrets)
    && forall r: Ref | !Refers(s.hosts[id], r) :: SameSecret(s, t, r)
  }

  lemma SavePasswordSaves(s: Stores, id: Id, password: Secret, f: Faults)
    requires Consistent(s) && f.read && id in s.hosts && f.valid && password != [] && f.put && f.write
    requires s.hosts[id].authMode.Password? || s.hosts[id].authMode.PublicKey?
    ensures PasswordSaved(s, AfterSaveHostPassword(s, id, password, f), id, password)
  {
  }

  lemma SaveTailscaleSaves(s: Stores, id: Id, key: Secret, f: Faults)
    requires Consistent(s) && f.read && id in s.hosts && key != [] && f.put && f.write
    ensures TailscaleKeySaved(s, AfterSaveTailscaleAuthKey(s, id, key, true, f), id, key)
  {
  }

  lemma SaveHostSaves(s: Stores, host: Host, f: Faults)
    requires Consistent(s) && f.read && f.valid && f.write
    ensures StaleGone(s, AfterSaveHost(s, host, f), host.id, f.delete && f.deleteTailscale)
  {
  }

  lemma SaveHostSubmits(s: Stores, host: Host, f: Faults)
    requires f.read && f.valid && f.write
    ensures DetailsSaved(s, AfterSaveHost(s, host, f), host) && ForeignKept(s, AfterSaveHost(s, host, f))
  {
  }

  lemma SaveHostLeavesNothing(s: Stores, host: Host, f: Faults)
    requires f.read && f.valid && f.write && DeletesWork(f)
    ensures NothingLeftBehind(s, AfterSaveHost(s, host, f), host.id)
  {
  }

  lemma DeleteLeavesNothing(s: Stores, id: Id, f: Faults)
    requires f.read && f.write && id in s.hosts
    ensures ForeignKept(s, AfterDeleteHost(s, id, false, f))
    ensures DeletesWork(f) ==> NothingLeftBehind(s, AfterDeleteHost(s, id, false, f), id)
  {
  }

  lemma DeleteDeletes(s: Stores, id: Id, f: Faults)
    requires Consistent(s) && f.read && f.write && id in s.hosts
    ensures HostDeleted(s, AfterDeleteHost(s, id, false, f), id, f.delete && f.deleteTailscale)
  {
  }

  // ---------------------------------------------------------------- rollback

  // A password save whose database write fails and whose rollback succeeds leaves both
  // stores exactly as they were if and only if no unreferenced secret sat at the
  // reference: the rollback knows only secrets the host already refers to.
  lemma FailedPasswordSaveRestoresIff(s: Stores, id: Id, password: Secret, f: Faults)
    requires Consistent(s) && id in s.hosts && PasswordRef(s.hosts[id]).Some?
    requires f.read && f.valid && password != [] && f.put && !f.write && f.rollback
    ensures AfterSaveHostPassword(s, id, password, f) == s <==>
            s.hosts[id].authRef == PasswordRef(s.hosts[id]) || PasswordRef(s.hosts[id]).value !in s.secrets
  {
    var reference := PasswordRef(s.hosts[id]).value;
    var t := AfterSaveHostPassword(s, id, password, f);
    if s.hosts[id].authRef != Some(reference) && reference !in s.secrets {
      assert t.secrets == s.secrets;
    }
  }

  lemma FailedTailscaleSaveRestoresIff(s: Stores, id: Id, key: Secret, f: Faults)
    requires Consistent(s) && id in s.hosts && key != []
    requires f.read && f.put && !f.write && f.rollback
    ensures AfterSaveTailscaleAuthKey(s, id, key, true, f) == s <==>
            s.hosts[id].TailscaleRef() == Some(TailscaleKeyRef(id)) || TailscaleKeyRef(id) !in s.secrets
  {
    var t := AfterSaveTailscaleAuthKey(s, id, key, true, f);
    if s.hosts[id].TailscaleRef() == None && TailscaleKeyRef(id) !in s.secrets {
      assert t.secrets == s.secrets;
    }
  }

  // So where deletes have always worked, a failed save always restores both stores.
  lemma FailedSaveRestoresWithoutOrphans(s: Stores, id: Id, secret: Secret, f: Faults)
    requires Consistent(s) && NoOrphans(s) && id in s.hosts && secret != []
    requires f.read && f.valid && f.put && !f.write && f.rollback
    ensures PasswordRef(s.hosts[id]).Some? ==> AfterSaveHostPassword(s, id, secret, f) == s
    ensures AfterSaveTailscaleAuthKey(s, id, secret, true, f) == s
  {
    if PasswordRef(s.hosts[id]).Some? { FailedPasswordSaveRestoresIff(s, id, secret, f); }
    FailedTailscaleSaveRestoresIff(s, id, secret, f);
  }

  const AllWork := Faults(true, true, true, true, true, true, true, true)

  // How such a secret arises, and is then lost: a password is saved, the mode changes while
  // the store refuses the delete, the mode changes back, and a second save fails.
  lemma FailedSaveCanDropOrphan(host: Host, password: Secret)
    requires host.authMode == Password && host.tailscale == None && host.jump == None && password != []
    ensures var s := Exec(Empty, [(SaveHost(host), AllWork), (SaveHostPassword(host.id, password), AllWork),
                                  (SaveHost(host.(authMode := PublicKey)), AllWork.(delete := false)),
                                  (SaveHost(host), AllWork)]);
            AfterSaveHostPassword(s, host.id, password, AllWork.(write := false)) != s
  {
    var run := [(SaveHost(host), AllWork), (SaveHostPassword(host.id, password), AllWork),
                (SaveHost(host.(authMode := PublicKey)), AllWork.(delete := false)), (SaveHost(host), AllWork)];
    var reference := Ref(Native, SshPassword, host.id);
    var s1 := Apply(Empty, run[0].0, run[0].1);
    var s2 := Apply(s1, run[1].0, run[1].1);
    assert reference in s2.secrets;
    var s3 := Apply(s2, run[2].0, run[2].1);
    assert reference in s3.secrets && s3.hosts[host.id].authRef == None;
    var s4 := Apply(s3, run[3].0, run[3].1);
    assert reference in s4.secrets && s4.hosts[host.id].authRef == None;
    assert Exec(Empty, run) == Exec(s1, run[1..]) == Exec(s2, run[1..][1..]) == Exec(s3, run[1..][1..][1..]) == s4;
    assert reference !in AfterSaveHostPassword(s4, host.id, password, AllWork.(write := false)).secrets;
  }

  // ---------------------------------------------------------------- the application state

  class AppState {
    var hosts: map<Id, Host>
    var secrets: map<Ref, Secret>

    ghost function View(): Stores
      reads this
    {
      Stores(hosts, secrets)
    }

    constructor ()
      ensures View() == Empty
    {
      hosts, secrets := map[], map[];
    }

    method DeleteStale(previous: Option<Ref>, current: Option<Ref>, works: bool)
      modifies this`secrets
      ensures secrets == DropStale(old(secrets), previous, current, works)
    {
      if previous != current && previous.Some? && previous.value.Managed() && works {
        secrets := secrets - {previous.value};
      }
    }

    method SaveHost(host: Host, f: Faults) returns (ok: bool)
      modifies this
      ensures View() == AfterSaveHost(old(View()), host, f)
      ensures ok == (f.read && f.valid && f.write)
      ensures ok ==> DetailsSaved(old(View()), View(), host) && ForeignKept(old(View()), View())
      ensures ok && DeletesWork(f) ==> NothingLeftBehind(old(View()), View(), host.id)
      ensures ok && Consistent(old(View())) ==>
              StaleGone(old(View()), View(), host.id, f.delete && f.deleteTailscale)
      ensures !ok ==> View() == old(View())
    {
      if f.read && f.valid && f.write {
        SaveHostSubmits(View(), host, f);
        if Consistent(View()) { SaveHostSaves(View(), host, f); }
        if DeletesWork(f) { SaveHostLeavesNothing(View(), host, f); }
      }
      if !f.read { return false; }
      var existing := if host.id in hosts then Some(hosts[host.id]) else None;
      var saved := WithServerRefs(existing, host);
      if !f.valid || !f.write { return false; }
      hosts := hosts[host.id := saved];
      DeleteStale(if existing.Some? then existing.value.authRef else None, saved.authRef, f.delete);
      DeleteStale(if existing.Some? then existing.value.TailscaleRef() else None, saved.TailscaleRef(),
                  f.deleteTailscale);
      DeleteStale(if existing.Some? then existing.value.JumpRef() else None, saved.JumpRef(), f.deleteJump);
      return true;
    }

    method Commit(host: Host, reference: Ref, secret: Secret, previous: Option<Secret>, stale: Option<Ref>, f: Faults)
      returns (ok: bool)
      modifies this
      ensures View() == AfterCommit(old(View()), host, reference, secret, previous, stale, f)
      ensures ok == (f.put && f.write)
    {
      if !f.put { return false; }
      secrets := secrets[reference := secret];
      if !f.write {
        if f.rollback {
          if previous.Some? {
            secrets := secrets[reference := previous.value];
          } else {
            secrets := secrets - {reference};
          }
        }
        return false;
      }
      hosts := hosts[host.id := host];
      DeleteStale(stale, Some(reference), f.delete);
      return true;
    }

    method SaveHostPassword(id: Id, password: Secret, f: Faults) returns (ok: bool)
      modifies this
      ensures View() == AfterSaveHostPassword(old(View()), id, password, f)
      ensures ok == (f.read && id in old(hosts) && f.valid && password != []
                     && (old(hosts)[id].authMode.Password? || old(hosts)[id].authMode.PublicKey?) && f.put && f.write)
      ensures ok && Consistent(old(View())) ==> PasswordSaved(old(View()), View(), id, password)
      ensures ForeignKept(old(View()), View())
      ensures !ok ==> hosts == old(hosts)
      ensures !ok && !f.put ==> secrets == old(secrets)
    {
      if id in hosts && (hosts[id].authMode.Password? || hosts[id].authMode.PublicKey?) && Consistent(View())
         && f.read && f.valid && password != [] && f.put && f.write {
        SavePasswordSaves(View(), id, password, f);
      }
      if !f.read || id !in hosts || !f.valid || password == [] { return false; }
      var host := hosts[id];
      var kind := KindFor(host.authMode);
      if kind.None? { return false; }
      var reference := Ref(Native, kind.value, host.id);
      var previous := if host.authRef == Some(reference) then Lookup(secrets, host.authRef) else None;
      ok := Commit(host.(authRef := Some(reference)), reference, password, previous, host.authRef, f);
    }

    method SaveTailscaleAuthKey(id: Id, key: Secret, wellFormed: bool, f: Faults) returns (ok: bool)
      modifies this
      ensures View() == AfterSaveTailscaleAuthKey(old(View()), id, key, wellFormed, f)
      ensures ok == (wellFormed && key != [] && f.read && id in old(hosts) && f.put && f.write)
      ensures ok && Consistent(old(View())) ==> TailscaleKeySaved(old(View()), View(), id, key)
      ensures ForeignKept(old(View()), View())
      ensures !ok ==> hosts == old(hosts)
      ensures !ok && !f.put ==> secrets == old(secrets)
    {
      if id in hosts && Consistent(View()) && wellFormed && key != [] && f.read && f.put && f.write {
        SaveTailscaleSaves(View(), id, key, f);
      }
      if !wellFormed || key == [] || !f.read || id !in hosts { return false; }
      var host := hosts[id];
      var config := if host.tailscale.Some? then host.tailscale.value else Tailscale(true, "", None);
      var stale := ManagedOnly(config.authKeyRef);
      var previous := Lookup(secrets, stale);
      var reference := TailscaleKeyRef(id);
      ok := Commit(host.(tailscale := Some(config.(enabled := true, authKeyRef := Some(reference)))),
                   reference, key, previous, stale, f);
    }

    method DeleteHost(id: Id, hasRuns: bool, f: Faults) returns (deleted: bool)
      modifies this
      ensures View() == AfterDeleteHost(old(View()), id, hasRuns, f)
      ensures deleted == (f.read && !hasRuns && f.write && id in old(hosts))
      ensures deleted && Consistent(old(View())) ==> HostDeleted(old(View()), View(), id, f.delete && f.deleteTailscale)
      ensures deleted ==> hosts == old(hosts) - {id} && ForeignKept(old(View()), View())
      ensures deleted && DeletesWork(f) ==> NothingLeftBehind(old(View()), View(), id)
      ensures !deleted ==> View() == old(View())
    {
      if f.read && !hasRuns && f.write && id in hosts {
        DeleteLeavesNothing(View(), id, f);
        if Consistent(View()) { DeleteDeletes(View(), id, f); }
      }
      if !f.read || hasRuns || !f.write || id !in hosts { return false; }
      var host := hosts[id];
      hosts := hosts - {id};
      DeleteStale(host.authRef, None, f.delete);
      DeleteStale(host.TailscaleRef(), None, f.deleteTailscale);
      DeleteStale(host.JumpRef(), None, f.deleteJump);
      return true;
    }
  }
}
