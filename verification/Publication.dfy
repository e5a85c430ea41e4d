// Workers of all managers writing at once: what a destination can ever hold.
//
// The lease machine decides who runs; a running worker fills the `.part` of its
// destination and renames it. One step is one call on the destination's file system.

module Publication {
  import opened Options
  import opened Files
  import opened UploadSteps
  import L = Leases
  import T = Transfer

  datatype State = State(
    lease: L.State,
    files: map<Path, Bytes>,
    active: map<nat, Progress>,            // attempts under way, by worker
    published: seq<(Path, Bytes)>)         // every rename so far, oldest first

  datatype Action =
    | Lease(action: L.Action)
    | File(w: nat, call: Call)

  function Destination(s: State, w: nat): Path
    requires w < |s.lease.workers| && s.lease.workers[w].id in s.lease.controls
  {
    s.lease.controls[s.lease.workers[w].id].key
  }

  predicate Running(s: State, w: nat) { L.At(s.lease, w, L.Running) }

  // A worker's own view: the files, and its attempt if one is under way.
  function View(s: State, w: nat): Local {
    Local(s.files, if w in s.active then Some(s.active[w]) else None)
  }

  predicate Enabled(s: State, a: Action) {
    match a
    // A worker stops only between attempts.
    case Lease(action) => L.Enabled(s.lease, action) && (action.Stop? ==> action.w !in s.active)
    case File(w, call) => Running(s, w) && CanCall(View(s, w), Destination(s, w), call)
  }

  function Step(s: State, a: Action): State {
    if !Enabled(s, a) then s else
    match a
    case Lease(action) => s.(lease := L.Step(s.lease, action))
    case File(w, call) =>
      var t := Call1(View(s, w), Destination(s, w), call);
      s.(files := t.files,
         active := if t.progress.Some? then s.active[w := t.progress.value] else s.active - {w},
         published := s.published + (if call.Rename? then [(Destination(s, w), s.active[w].version)] else []))
  }

  function Exec(s: State, run: seq<Action>): State
    decreases |run|
  {
    if run == [] then s else Exec(Step(s, run[0]), run[1..])
  }

  // What `path` was last published as, if ever.
  function LastPublished(published: seq<(Path, Bytes)>, path: Path): Option<Bytes> {
    if published == [] then None
    else
      var last := published[|published| - 1];
      if last.0 == path then Some(last.1) else LastPublished(published[..|published| - 1], path)
  }

  function Lookup(files: map<Path, Bytes>, path: Path): Option<Bytes> {
    if path in files then Some(files[path]) else None
  }

  // What a reader of `path` should find: the last complete upload, else the original.
  function Expected(original: map<Path, Bytes>, published: seq<(Path, Bytes)>, path: Path): Option<Bytes> {
    var last := LastPublished(published, path);
    if last.Some? then last else Lookup(original, path)
  }

  // Destinations in use are never the `.part` of one another, since leases do not
  // cover the `.part`.
  ghost predicate Separate(destinations: iset<Path>) {
    forall p, q | p in destinations && q in destinations :: p != PartPath(q)
  }

  function Lift(w: nat, calls: seq<Call>): seq<Action> {
    seq(|calls|, i requires 0 <= i < |calls| => File(w, calls[i]))
  }

  lemma {:induction false} ExecAppend(s: State, first: seq<Action>, last: Action)
    ensures Exec(s, first + [last]) == Step(Exec(s, first), last)
    decreases |first|
  {
    if first == [] {
      assert [last][1..] == [] && first + [last] == [last];
      assert Exec(s, [last]) == Exec(Step(s, last), []);
    } else {
      assert (first + [last])[1..] == first[1..] + [last];
      ExecAppend(Step(s, first[0]), first[1..], last);
    }
  }

  // The steps an upload is made of are steps of this machine: a running worker that makes
  // these calls does to the files what they do.
  lemma {:induction false} UploadIsARun(s: State, w: nat, calls: seq<Call>)
    requires Running(s, w)
    ensures var t := Exec(s, Lift(w, calls));
            t.lease == s.lease && View(t, w) == Calls(View(s, w), Destination(s, w), calls)
    decreases |calls|
  {
    if calls != [] {
      var n := |calls| - 1;
      UploadIsARun(s, w, calls[..n]);
      assert Lift(w, calls) == Lift(w, calls[..n]) + [File(w, calls[n])];
      ExecAppend(s, Lift(w, calls[..n]), File(w, calls[n]));
    } else {
      assert Lift(w, calls) == [];
    }
  }

  // So what `Transfer.Upload` does between two looks by anyone else at its files is a run
  // here, at a version its source really had.
  lemma UploadRunsHere(s: State, w: nat, source: Source, after: map<Path, Bytes>, calls: seq<Call>, start: nat,
                       end: nat)
    requires Running(s, w) && w !in s.active
    requires T.Stepwise(source, s.files, after, Destination(s, w), calls, start, end)
    ensures Exec(s, Lift(w, calls)).files == after && w !in Exec(s, Lift(w, calls)).active
    ensures forall i | 0 <= i < |calls| && calls[i].Begin? :: source.Complete(calls[i].version, start, end)
  {
    UploadIsARun(s, w, calls);
    var version :| AttemptsAt(calls, version) && (calls != [] ==> source.Complete(version, start, end));
  }

  // ---------------------------------------------------------------- invariant

  ghost predicate Guarded(s: State, a: Action, destinations: iset<Path>) {
    a.Lease? ==> L.Guarded(s.lease, a.action) && (a.action.Enqueue? ==> a.action.key in destinations)
  }

  ghost predicate GuardedRun(s: State, run: seq<Action>, destinations: iset<Path>)
    decreases |run|
  {
    run == [] || (Guarded(s, run[0], destinations) && GuardedRun(Step(s, run[0]), run[1..], destinations))
  }

  ghost predicate LeaseInv(s: State, destinations: iset<Path>) {
    && L.Exclusive(s.lease) && L.Generations(s.lease)
    && (forall id | id in s.lease.controls :: s.lease.controls[id].key in destinations)
    && (forall w | w in s.active :: Running(s, w))
  }

  // An attempt whose source has not changed has its `.part` filled with exactly the
  // bytes it counts.
  ghost predicate PartHolds(s: State, w: nat) {
    && w in s.active && Running(s, w)
    && var part := PartPath(Destination(s, w));
    && var progress := s.active[w];
    && part in s.files
    && (!progress.changed ==>
          && progress.written <= |progress.version|
          && s.files[part] == progress.version[..progress.written])
  }

  ghost predicate PartsInv(s: State) {
    forall w | w in s.active :: PartHolds(s, w)
  }

  ghost predicate DestinationsInv(original: map<Path, Bytes>, s: State, destinations: iset<Path>) {
    forall path | path in destinations :: Lookup(s.files, path) == Expected(original, s.published, path)
  }

  ghost predicate Inv(original: map<Path, Bytes>, s: State, destinations: iset<Path>) {
    Separate(destinations) && LeaseInv(s, destinations) && PartsInv(s) && DestinationsInv(original, s, destinations)
  }

  lemma WorkersAreApart(s: State, v: nat, w: nat, destinations: iset<Path>)
    requires LeaseInv(s, destinations) && Running(s, v) && Running(s, w)
    ensures Destination(s, v) == Destination(s, w) ==> v == w
  {
    if Destination(s, v) == Destination(s, w) { L.NoSharedDestination(s.lease, v, w); }
  }

  // Two attempts under way never share a file.
  lemma DisjointFiles(s: State, v: nat, w: nat, destinations: iset<Path>)
    requires Separate(destinations) && LeaseInv(s, destinations)
    requires v in s.active && w in s.active && v != w
    ensures {Destination(s, v), PartPath(Destination(s, v))} !! {Destination(s, w), PartPath(Destination(s, w))}
  {
    WorkersAreApart(s, v, w, destinations);
    PartPathInjective(Destination(s, v), Destination(s, w));
  }

  lemma LeaseStepKeepsDestination(s: State, action: L.Action, w: nat)
    requires w < |s.lease.workers| && s.lease.workers[w].id in s.lease.controls
    ensures var t := L.Step(s.lease, action);
            && w < |t.workers| && t.workers[w].id == s.lease.workers[w].id
            && t.workers[w].id in t.controls
            && t.controls[t.workers[w].id].key == s.lease.controls[s.lease.workers[w].id].key
  {
  }

  lemma LeaseStepKeepsLease(s: State, a: Action, destinations: iset<Path>)
    requires LeaseInv(s, destinations) && Guarded(s, a, destinations) && Enabled(s, a) && a.Lease?
    ensures LeaseInv(Step(s, a), destinations)
  {
    L.GuardedStepIsExclusive(s.lease, a.action);
    forall w | w in s.active ensures Running(Step(s, a), w) {
      assert Running(s, w);
    }
  }

  lemma LeaseStepKeepsParts(s: State, a: Action, destinations: iset<Path>)
    requires LeaseInv(s, destinations) && PartsInv(s) && Enabled(s, a) && a.Lease?
    ensures PartsInv(Step(s, a))
  {
    var t := Step(s, a);
    forall w | w in t.active ensures PartHolds(t, w) {
      assert PartHolds(s, w);
      LeaseStepKeepsDestination(s, a.action, w);
    }
  }

  lemma FileStepKeepsParts(original: map<Path, Bytes>, s: State, a: Action, destinations: iset<Path>)
    requires Inv(original, s, destinations) && Enabled(s, a) && !a.Lease?
    ensures PartsInv(Step(s, a))
  {
    var t := Step(s, a);
    forall v | v in t.active ensures PartHolds(t, v) {
      if v != a.w {
        assert PartHolds(s, v);
        OtherPartsUntouched(s, a, v, destinations);
      } else {
        OwnPartHolds(s, a);
      }
    }
  }

  lemma FileStepKeepsLease(s: State, a: Action, destinations: iset<Path>)
    requires LeaseInv(s, destinations) && Enabled(s, a) && !a.Lease?
    ensures LeaseInv(Step(s, a), destinations)
  {
  }

  lemma OwnPartHolds(s: State, a: Action)
    requires PartsInv(s) && Enabled(s, a) && !a.Lease? && a.w in Step(s, a).active
    ensures PartHolds(Step(s, a), a.w)
  {
    if a.w in s.active {
      assert PartHolds(s, a.w);
      var progress := s.active[a.w];
      if a.call.Append? && !progress.changed {
        assert progress.version[..progress.written] + a.call.data
               == progress.version[..progress.written + |a.call.data|];
      }
    }
  }

  lemma OtherPartsUntouched(s: State, a: Action, v: nat, destinations: iset<Path>)
    requires Separate(destinations) && LeaseInv(s, destinations) && PartsInv(s)
    requires Enabled(s, a) && !a.Lease? && v in s.active && v != a.w
    ensures Running(s, v) && SameAt(s.files, Step(s, a).files, PartPath(Destination(s, v)))
  {
    assert PartHolds(s, v);
    if Running(s, a.w) {
      WorkersAreApart(s, v, a.w, destinations);
      PartPathInjective(Destination(s, v), Destination(s, a.w));
    }
  }

  lemma FileStepKeepsDestinations(original: map<Path, Bytes>, s: State, a: Action, destinations: iset<Path>)
    requires Inv(original, s, destinations) && Enabled(s, a) && !a.Lease?
    ensures DestinationsInv(original, Step(s, a), destinations)
  {
    var t := Step(s, a);
    forall path | path in destinations
      ensures Lookup(t.files, path) == Expected(original, t.published, path)
    {
      if a.call.Rename? {
        assert PartHolds(s, a.w);
        assert t.published[..|s.published|] == s.published;
        var progress := s.active[a.w];
        assert progress.version[..progress.written] == progress.version;
      } else {
        assert t.published == s.published;
      }
    }
  }

  // In every reachable state each destination holds its last complete verified upload,
  // or what it held at the start.
  lemma {:induction false} RunKeepsDestinations(original: map<Path, Bytes>, s: State, run: seq<Action>,
                                                destinations: iset<Path>)
    requires Inv(original, s, destinations) && GuardedRun(s, run, destinations)
    ensures Inv(original, Exec(s, run), destinations)
    decreases |run|
  {
    if run != [] {
      if Enabled(s, run[0]) {
        if run[0].Lease? {
          LeaseStepKeepsLease(s, run[0], destinations);
          LeaseStepKeepsParts(s, run[0], destinations);
        } else {
          FileStepKeepsLease(s, run[0], destinations);
          FileStepKeepsParts(original, s, run[0], destinations);
          FileStepKeepsDestinations(original, s, run[0], destinations);
        }
      }
      RunKeepsDestinations(original, Step(s, run[0]), run[1..], destinations);
    }
  }

  lemma DestinationsAreOldOrComplete(original: map<Path, Bytes>, run: seq<Action>, destinations: iset<Path>, path: Path)
    requires Separate(destinations) && path in destinations
    requires GuardedRun(Start(original), run, destinations)
    ensures OldOrComplete(original, run, path)
  {
    RunKeepsDestinations(original, Start(original), run, destinations);
  }

  function Start(original: map<Path, Bytes>): State { State(L.Init, original, map[], []) }

  ghost predicate OldOrComplete(original: map<Path, Bytes>, run: seq<Action>, path: Path) {
    var t := Exec(Start(original), run);
    Lookup(t.files, path) == Expected(original, t.published, path)
  }

  ghost predicate AlwaysOldOrComplete(destinations: iset<Path>) {
    forall original, run, path | path in destinations && GuardedRun(Start(original), run, destinations) ::
      OldOrComplete(original, run, path)
  }

  // The lease covers the destination and not its `.part`: publication is atomic for a
  // set of destinations exactly when none of them is the `.part` of another.
  lemma AtomicIffSeparate(destinations: iset<Path>)
    ensures AlwaysOldOrComplete(destinations) <==> Separate(destinations)
  {
    if Separate(destinations) {
      forall original, run, path | path in destinations && GuardedRun(Start(original), run, destinations)
        ensures OldOrComplete(original, run, path)
      {
        DestinationsAreOldOrComplete(original, run, destinations, path);
      }
    } else {
      var p, q :| p in destinations && q in destinations && p == PartPath(q);
      PartOfAnotherIsTruncated(p, q, destinations);
    }
  }

  function StartUpload(q: Path): seq<Action> {
    [Lease(L.Enqueue(1, q))]
    + ([Lease(L.Register(0))] + ([Lease(L.Spawn(0))] + ([Lease(L.Start(0))] + [File(0, Begin([1], false, false))])))
  }

  lemma UploadStarts(original: map<Path, Bytes>, q: Path)
    ensures var a := StartUpload(q);
            var t := Step(Step(Step(Step(Step(Start(original), a[0]), a[1]), a[2]), a[3]), a[4]);
            PartPath(q) in t.files && t.files[PartPath(q)] == [] && t.published == []
  {
    var a := StartUpload(q);
    var s2 := Step(Step(Start(original), a[0]), a[1]);
    assert s2.lease == L.State(map[q := 1], map[1 := L.Control(q, 0, false)], {1}, {}, {}, [L.Worker(1, L.Leased, 0)]);
    var s4 := Step(Step(s2, a[2]), a[3]);
    assert s4.lease.workers == [L.Worker(1, L.Running, 1)] && s4.lease.controls[1].key == q;
  }

  lemma PartOfAnotherIsTruncated(p: Path, q: Path, destinations: iset<Path>)
    requires p in destinations && q in destinations && p == PartPath(q)
    ensures exists original, run :: GuardedRun(Start(original), run, destinations) && !OldOrComplete(original, run, p)
  {
    var original: map<Path, Bytes> := map[p := [7]];
    var a := StartUpload(q);
    UploadStarts(original, q);
    var s0 := Start(original);
    var s1 := Step(s0, a[0]);
    var s2 := Step(s1, a[1]);
    var s3 := Step(s2, a[2]);
    var s4 := Step(s3, a[3]);
    GuardedCons(s4, a[4], [], destinations);
    GuardedCons(s3, a[3], [a[4]], destinations);
    GuardedCons(s2, a[2], [a[3]] + [a[4]], destinations);
    GuardedCons(s1, a[1], [a[2]] + ([a[3]] + [a[4]]), destinations);
    GuardedCons(s0, a[0], [a[1]] + ([a[2]] + ([a[3]] + [a[4]])), destinations);
    var run := [a[0]] + ([a[1]] + ([a[2]] + ([a[3]] + [a[4]])));
    LastUnpublished(original, Exec(s0, run), p);
    assert !OldOrComplete(original, run, p);
  }

  lemma GuardedCons(s: State, a: Action, rest: seq<Action>, destinations: iset<Path>)
    requires Guarded(s, a, destinations) && GuardedRun(Step(s, a), rest, destinations)
    ensures GuardedRun(s, [a] + rest, destinations) && Exec(s, [a] + rest) == Exec(Step(s, a), rest)
    ensures rest == [] ==> GuardedRun(s, [a], destinations) && Exec(s, [a]) == Step(s, a)
  {
    assert ([a] + rest)[1..] == rest;
    if rest == [] { assert [a] + rest == [a]; }
  }

  lemma LastUnpublished(original: map<Path, Bytes>, t: State, p: Path)
    requires t.published == [] && p in original && p in t.files && t.files[p] != original[p]
    ensures Lookup(t.files, p) != Expected(original, t.published, p)
  {
  }
}
