// One worker's transfer: resume check, chunk loop, identity check, publication,
// and the bounded retry loop around it.

module Transfer {
  import opened Options
  import opened Files
  import opened UploadSteps

  datatype Direction = Upload | Download

  datatype Request = Request(direction: Direction, destination: Path, resume: bool)

  datatype Status = Transferring | Retrying | Completed | Cancelled | Failed

  datatype Event = State(status: Status) | FailedBecause(error: SftpError)

  // Flags a user may flip while a worker runs.
  class TransferControls {
    const maxRetries: nat
    var cancelled: bool
    var paused: bool
    var running: bool
    var retriesLeft: nat
    var transferred: nat

    constructor (retries: nat)
      ensures maxRetries == retriesLeft == retries && !cancelled && !paused && !running
    {
      maxRetries := retries;
      cancelled, paused, running, retriesLeft, transferred := false, false, false, retries, 0;
    }

    // What a retry does before it starts a new worker: the full allowance again.
    method Reset()
      modifies this`cancelled, this`paused, this`retriesLeft, this`transferred
      ensures !cancelled && !paused && retriesLeft == maxRetries && transferred == 0
    {
      cancelled, paused := false, false;
      retriesLeft, transferred := maxRetries, 0;
    }
  }

  // The events a worker offers to the bounded channel, delivered or not.
  class EventLog {
    var offered: seq<Event>
    var pumpAlive: bool

    constructor ()
      ensures offered == [] && pumpAlive
    {
      offered, pumpAlive := [], true;
    }

    method Offer(event: Event)
      modifies this`offered
      ensures offered == old(offered) + [event]
    {
      offered := offered + [event];
    }
  }

  // The check at every chunk boundary: wait out a pause, then look at the cancel
  // flag and at the pump. Either may have changed meanwhile, one way only.
  method StopRequested(controls: TransferControls, log: EventLog, clock: Clock) returns (stop: bool)
    modifies clock`now, controls`cancelled, log`pumpAlive
    ensures old(clock.now) <= clock.now
    ensures stop == (controls.cancelled || !log.pumpAlive)
    ensures old(controls.cancelled) ==> controls.cancelled
    ensures log.pumpAlive ==> old(log.pumpAlive)
  {
    clock.Pass();
    if * { controls.cancelled := true; }
    if * { log.pumpAlive := false; }
    stop := controls.cancelled || !log.pumpAlive;
  }

  const PREFIX_CHUNK := 65536

  // Two reads in full that differ, or meet an end, show that the rest differs.
  lemma ChunkMismatch(part: Bytes, seen: Bytes, done: nat, length: nat, wanted: nat, fromSource: Bytes, fromPart: Bytes)
    requires done <= |part| && 0 < wanted <= length - done && |fromSource| <= wanted && |fromPart| <= wanted
    requires if done <= |seen| then
               && done + |fromSource| <= |seen| && fromSource == seen[done..done + |fromSource|]
               && (|fromSource| == wanted || done + |fromSource| == |seen|)
             else fromSource == []
    requires done + |fromPart| <= |part| && fromPart == part[done..done + |fromPart|]
    requires |fromPart| == wanted || done + |fromPart| == |part|
    requires fromSource != fromPart || fromSource == []
    ensures length > |part| || length > |seen| || part[..length] != seen[..length]
  {
    if length <= |part| && length <= |seen| {
      assert |fromSource| == wanted && |fromPart| == wanted;
      assert fromPart == part[..length][done..done + wanted];
      assert fromSource == seen[..length][done..done + wanted];
    }
  }

  // Compares what a `.part` already holds with the source as it is now. While the
  // name has not changed since `from`, a positive answer is a fact about that version.
  method PrefixMatches(source: Source, clock: Clock, ghost from: nat, part: Bytes, length: nat)
    returns (r: Result<bool>, ghost short: bool)
    requires from <= clock.now && source.At(from).Some?
    modifies clock
    ensures old(clock.now) <= clock.now && old(clock.faults) <= clock.faults
    ensures r.Err? ==> r.error.Backend? && (clock.faults > old(clock.faults) || source.Lost(old(clock.now), clock.now))
    ensures r.Ok? && r.value && source.NameStable(from, clock.now) ==>
              && length <= |part| && length <= |source.At(from).value.bytes|
              && part[..length] == source.At(from).value.bytes[..length]
    // And a negative one is, unless some read was cut short.
    ensures r.Ok? && !r.value && !short && source.NameStable(from, clock.now) ==>
              || length > |part| || length > |source.At(from).value.bytes|
              || part[..length] != source.At(from).value.bytes[..length]
    ensures r.Ok? ==> clock.faults == old(clock.faults)
  {
    short := false;
    clock.Pass();
    var named := source.nameAt(clock.now);
    if named.None? { return Err(Backend("prefix open")), short; }
    var prefixOpenFails := clock.Fails();
    if prefixOpenFails { return Err(Backend("prefix open")), short; }
    var file := named.value;
    ghost var openedAt := clock.now;
    ghost var seen := source.At(from).value.bytes;
    ghost var differs := length > |part| || length > |seen| || part[..length] != seen[..length];
    var left := length;
    var equal := true;
    while left > 0
      invariant 0 <= left <= length && old(clock.now) <= openedAt <= clock.now
      invariant old(clock.faults) == clock.faults
      invariant equal
      invariant length - left <= |part|
      invariant source.NameStable(from, clock.now) ==>
                  length - left <= |seen| && part[..length - left] == seen[..length - left]
    {
      var done := length - left;
      var wanted := if left < PREFIX_CHUNK then left else PREFIX_CHUNK;
      var prefixReadFails := clock.Fails();
      if prefixReadFails { return Err(Backend("prefix read")), short; }
      var fromSource;
      ghost var cut;
      fromSource, cut := ReadHandle(source, file, clock, done, wanted);
      // The `.part` is read the same way; short reads need not line up.
      var n: int := *;
      var rest := |part| - done;
      var most := if wanted < rest then wanted else rest;
      if n <= 0 || n > most { n := most; }
      short := short || cut || n < most;
      var fromPart := part[done..done + n];
      assert source.NameStable(from, clock.now) ==>
               source.nameAt(openedAt) == source.nameAt(clock.now) && source.content(file, clock.now).bytes == seen;
      if fromSource != fromPart || fromSource == [] {
        equal := false;
        if !short && source.NameStable(from, clock.now) {
          ChunkMismatch(part, seen, done, length, wanted, fromSource, fromPart);
        }
        assert !short && source.NameStable(from, clock.now) ==> differs;
        break;
      }
      assert part[..done + n] == part[..done] + fromPart;
      if source.NameStable(from, clock.now) {
        assert seen[..done + n] == seen[..done] + fromSource;
      }
      left := left - |fromSource|;
    }
    ghost var compared := clock.now;
    clock.Pass();
    assert source.NameStable(from, clock.now) ==> source.NameStable(from, compared);
    assert !equal && !short && source.NameStable(from, clock.now) ==> differs;
    var prefixCloseFails := clock.Fails();
    if prefixCloseFails { return Err(Backend("prefix close")), short; }
    assert differs == (length > |part| || length > |source.At(from).value.bytes|
                       || part[..length] != source.At(from).value.bytes[..length]);
    return Ok(equal && left == 0), short;
  }

  // ---------------------------------------------------------------- chunks

  predicate Stopped(controls: TransferControls, log: EventLog)
    reads controls`cancelled, log`pumpAlive
  {
    controls.cancelled || !log.pumpAlive
  }

  // The only ways to fail while nobody touches the source: an access that did fail, and a stop
  // that was asked for. `drawn` says some access has failed.
  predicate Excused<T>(r: Result<T>, drawn: bool, stopped: bool)
  {
    r.Err? ==>
      || ((r.error.Backend? || r.error.DiskFull?) && drawn)
      || (r.error == SftpError.Cancelled && stopped)
  }

  // All ways to fail, and what each says about the source in the window.
  ghost predicate Explained<T>(source: Source, direction: Direction, r: Result<T>, drawn: bool, stopped: bool,
                               start: nat, end: nat)
  {
    || Excused(r, drawn, stopped)
    || (r.error == SourceNotFound && source.Lost(start, end))
    || (r.error == SourceChanged && !source.Undisturbed(start, end))
    || (r.error.Backend? && source.Lost(start, end))
    || (r.error.Backend? && direction.Download? && source.SeenAsDir(start, end))
  }

  lemma ExplainedWidens<T>(source: Source, direction: Direction, r: Result<T>, drawn: bool, stopped: bool,
                           from: nat, to: nat, start: nat, end: nat)
    requires start <= from <= to <= end && Explained(source, direction, r, drawn, stopped, from, to)
    ensures Explained(source, direction, r, drawn, stopped, start, end)
  {
    if source.Lost(from, to) {
      var t: nat :| from <= t <= to && source.nameAt(t).None?;
      assert source.Lost(start, end);
    }
    if source.SeenAsDir(from, to) {
      var t: nat :| from <= t <= to && source.At(t).Some? && source.At(t).value.isDir;
      assert source.SeenAsDir(start, end);
    }
    UndisturbedNarrows(source, from, to, start, end);
  }

  lemma UndisturbedNarrows(source: Source, from: nat, to: nat, start: nat, end: nat)
    requires start <= from <= to <= end
    ensures source.Undisturbed(start, end) ==> source.Undisturbed(from, to)
  {
  }

  // Nothing is wrong with a source that stays what it is; a directory cannot be downloaded.
  ghost predicate Sound(source: Source, direction: Direction, start: nat, end: nat) {
    source.Undisturbed(start, end) && (direction.Download? ==> !source.At(start).value.isDir)
  }

  // With a sound source, no failed access and no stop asked for, there is nothing left but success.
  lemma NoExcuseMeansOk<T>(source: Source, direction: Direction, r: Result<T>, drawn: bool, stopped: bool,
                           start: nat, end: nat)
    requires Explained(source, direction, r, drawn, stopped, start, end) && Sound(source, direction, start, end)
    ensures drawn || stopped || r.Ok?
  {
    if source.Undisturbed(start, end) {
      assert forall t | start <= t <= end ::
             source.nameAt(t) == source.nameAt(start) && source.At(t) == source.At(start);
    }
  }

  // One round of the loop both directions share: read from the open handle, append to the
  // `.part`. `data` is what reached the file, a prefix of what was read if the write failed.
  method CopyChunk(source: Source, file: nat, clock: Clock, store: FileStore, part: Path, offset: nat,
                   controls: TransferControls, log: EventLog, chunk: nat)
    returns (r: Result<nat>, ghost data: Bytes)
    requires chunk > 0 && part in store.files && |store.files[part]| == offset
    modifies clock, store, controls`cancelled, log`pumpAlive
    ensures old(clock.now) <= clock.now && old(clock.faults) <= clock.faults
    ensures old(controls.cancelled) ==> controls.cancelled
    ensures Excused(r, clock.faults > old(clock.faults), Stopped(controls, log))
    ensures store.files == old(store.files)[part := old(store.files)[part] + data]
    ensures var bytes := source.content(file, clock.now).bytes;
            if offset <= |bytes| then offset + |data| <= |bytes| && data == bytes[offset..offset + |data|]
                else data == []
    // A stop that was asked for is heeded before anything is read.
    ensures Stopped(controls, log) <==> r == Err(SftpError.Cancelled)
    ensures Stopped(controls, log) ==> data == []
    ensures (old(controls.cancelled) || !old(log.pumpAlive)) ==> Stopped(controls, log)
    ensures r.Ok? ==> clock.faults == old(clock.faults)
    ensures r.Ok? ==> r.value == |data| && (data == [] ==> |source.content(file, clock.now).bytes| <= offset)
  {
    data := [];
    assert store.files[part] + data == store.files[part];
    var stop := StopRequested(controls, log, clock);
    if stop { return Err(SftpError.Cancelled), data; }
    clock.Pass();
    var readFails := clock.Fails();
    if readFails { return Err(Backend("read")), data; }
    var read;
    ghost var short;
    read, short := ReadHandle(source, file, clock, offset, chunk);
    if read == [] { return Ok(0), data; }
    var written;
    ghost var n;
    written, n := store.Write(clock, part, offset, read);
    data := read[..n];
    assert Overwrite(old(store.files)[part], offset, data) == old(store.files)[part] + data;
    assert data == read || written.Err?;
    if written.Err? { return Err(MapDiskError(written.error)), data; }
    return Ok(|read|), data;
  }

  // `part` has grown from `start` to `n` bytes, and where the source's file has stayed as
  // it was, by that version's bytes.
  ghost predicate Grown(version: Bytes, stable: bool, before: map<Path, Bytes>, after: map<Path, Bytes>, part: Path,
                        start: nat, n: nat) {
    && part in before && part in after && SameElsewhere(before, after, part, part)
    && start <= n && |after[part]| == n && after[part][..start] == before[part]
    && (stable && start <= |version| ==> n <= |version| && after[part][start..] == version[start..n])
  }

  lemma GrownMore(version: Bytes, wasStable: bool, stable: bool, before: map<Path, Bytes>, after: map<Path, Bytes>,
                  part: Path, start: nat, n: nat, data: Bytes)
    requires Grown(version, wasStable, before, after, part, start, n)
    requires stable ==> wasStable && (n <= |version| ==> n + |data| <= |version| && data == version[n..n + |data|])
    ensures Grown(version, stable, before, after[part := after[part] + data], part, start, n + |data|)
  {
    var grown := after[part] + data;
    assert grown[..start] == after[part][..start];
    if stable && start <= |version| {
      assert grown[start..] == after[part][start..] + data == version[start..n] + version[n..n + |data|];
    }
    var more := after[part := grown];
    forall path | path != part ensures SameAt(before, more, path) {
      assert SameAt(before, after, path);
    }
  }

  // The same as calls on the files.
  ghost predicate Traced(version: Bytes, stable: bool, before: map<Path, Bytes>, after: map<Path, Bytes>, to: Path,
                         start: nat, n: nat, changed: bool, calls: seq<Call>) {
    var end := Calls(Local(before, Some(Progress(version, start, changed))), to, calls);
    && AttemptsAt(calls, version) && end.files == after && end.progress.Some?
    && end.progress.value.version == version && end.progress.value.written == n
    && (end.progress.value.changed ==> changed || !stable) && (changed ==> end.progress.value.changed)
  }

  lemma TracedMore(version: Bytes, wasStable: bool, stable: bool, before: map<Path, Bytes>, after: map<Path, Bytes>,
                   to: Path, start: nat, n: nat, changed: bool, calls: seq<Call>, data: Bytes)
    requires Traced(version, wasStable, before, after, to, start, n, changed, calls)
    requires PartPath(to) in after && |after[PartPath(to)]| == n
    requires stable ==> wasStable && (changed || (n + |data| <= |version| && data == version[n..n + |data|]))
    ensures Traced(version, stable, before, after[PartPath(to) := after[PartPath(to)] + data], to, start, n + |data|,
                   changed, calls + ChunkCalls(!stable, data))
  {
    var l := Local(before, Some(Progress(version, start, changed)));
    var progress := Calls(l, to, calls).progress.value;
    assert Overwrite(after[PartPath(to)], n, data) == after[PartPath(to)] + data;
    if stable && !progress.changed && !changed {
      assert data <= version[n..];
    }
    ChunkStep(l, to, calls, after, progress, !stable, data);
  }

  // The loop: append what the open handle of the source yields to the `.part`, from `start`
  // on. Whatever happens to the source, the bytes before `start` stay, and while the file has
  // not changed since `from` the bytes after it are that version's. `calls` is what it does
  // to the files, noting a rewrite of the source as it shows.
  method CopyChunks(source: Source, file: nat, ghost from: nat, clock: Clock, store: FileStore, ghost to: Path,
                    part: Path,
                    start: nat, ghost changed: bool, controls: TransferControls, log: EventLog, chunk: nat)
    returns (r: Result<nat>, ghost calls: seq<Call>)
    requires chunk > 0 && source.Sized() && from <= clock.now && part == PartPath(to)
    requires part in store.files && |store.files[part]| == start <= MAX_LEN
    requires changed || start <= |source.content(file, from).bytes|
    modifies clock, store, controls`cancelled, controls`transferred, log`pumpAlive
    ensures old(clock.now) <= clock.now && old(clock.faults) <= clock.faults
    ensures old(controls.cancelled) ==> controls.cancelled
    ensures Excused(r, clock.faults > old(clock.faults), Stopped(controls, log))
    ensures part in store.files && SameElsewhere(old(store.files), store.files, part, part)
    ensures Traced(source.content(file, from).bytes, source.FileStable(file, from, clock.now), old(store.files),
                   store.files, to, start, |store.files[part]|, changed, calls)
    ensures r.Ok? ==> !Stopped(controls, log) && clock.faults == old(clock.faults)
    ensures r.Ok? ==>
              && controls.transferred == r.value == |store.files[part]|
              && Grown(source.content(file, from).bytes, source.FileStable(file, from, clock.now), old(store.files),
                       store.files, part, start, r.value)
              && (source.FileStable(file, from, clock.now) && start <= |source.content(file, from).bytes| ==>
                    r.value == |source.content(file, from).bytes|)
  {
    var transferred := start;
    controls.transferred := transferred;
    ghost var version := source.content(file, from).bytes;
    ghost var before := store.files;
    calls := [];
    assert before[part][..start] == before[part];
    var reading := true;
    while reading
      invariant old(clock.now) <= clock.now && old(clock.faults) == clock.faults
      invariant !reading ==> !Stopped(controls, log)
      invariant old(controls.cancelled) ==> controls.cancelled
      invariant controls.transferred == transferred <= MAX_LEN
      invariant Grown(version, source.FileStable(file, from, clock.now), before, store.files, part, start, transferred)
      invariant Traced(version, source.FileStable(file, from, clock.now), before, store.files, to, start, transferred,
                       changed, calls)
      invariant !reading && source.FileStable(file, from, clock.now) && start <= |version| ==> transferred == |version|
      decreases reading, MAX_LEN - transferred
    {
      ghost var wasStable, soFar := source.FileStable(file, from, clock.now), store.files;
      ghost var data;
      r, data := CopyChunk(source, file, clock, store, part, transferred, controls, log, chunk);
      ghost var stable := source.FileStable(file, from, clock.now);
      GrownMore(version, wasStable, stable, before, soFar, part, start, transferred, data);
      TracedMore(version, wasStable, stable, before, soFar, to, start, transferred, changed, calls, data);
      calls := calls + ChunkCalls(!stable, data);
      if r.Err? { return r, calls; }
      transferred := transferred + r.value;
      controls.transferred := transferred;
      reading := r.value > 0;
    }
    return Ok(transferred), calls;
  }

  // How much of a leftover `.part` may be kept: all of it when it is no longer than
  // the source and its bytes are the source's, otherwise nothing.
  method ResumeOffset(source: Source, clock: Clock, ghost from: nat, files: map<Path, Bytes>, part: Path,
                      total: nat, resume: bool) returns (r: Result<nat>, ghost short: bool)
    requires from <= clock.now && source.At(from).Some?
    modifies clock
    ensures old(clock.now) <= clock.now && old(clock.faults) <= clock.faults
    ensures r.Err? ==> r.error.Backend? && (clock.faults > old(clock.faults) || source.Lost(old(clock.now), clock.now))
    ensures r.Ok? ==> clock.faults == old(clock.faults)
    ensures r.Ok? && r.value > 0 ==>
              && resume && part in files && r.value == |files[part]| <= total
              && (source.NameStable(from, clock.now) ==> files[part] <= source.At(from).value.bytes)
    // A leftover that is good is kept, unless some read was cut short.
    ensures r.Ok? && resume && part in files && |files[part]| <= total && !short
            && source.NameStable(from, clock.now) && files[part] <= source.At(from).value.bytes ==>
               r.value == |files[part]|
  {
    short := false;
    if !resume { return Ok(0), short; }
    var statFails := clock.Fails();
    if statFails { return Err(Backend("stat")), short; }
    var existing := if part in files then |files[part]| else 0;
    if existing > total { return Ok(0), short; }
    if existing > 0 {
      var matches;
      matches, short := PrefixMatches(source, clock, from, files[part], existing);
      assert files[part][..existing] == files[part];
      if matches.Err? { return Err(matches.error), short; }
      if !matches.value { return Ok(0), short; }
    }
    return Ok(existing), short;
  }

  // ---------------------------------------------------------------- upload

  // The instants an upload looked at its source, and where it resumed.
  datatype Evidence = Evidence(file: nat, openedAt: nat, handleAt: nat, pathAt: nat,
                               handleEnd: nat, pathEnd: nat, offset: nat)

  // Everything an upload has established about `published` when it renames.
  ghost predicate ChecksPassed(source: Source, e: Evidence, published: Bytes) {
    && e.openedAt <= e.handleAt <= e.pathAt <= e.handleEnd <= e.pathEnd
    && source.nameAt(e.openedAt) == Some(e.file)
    && source.At(e.pathAt).Some? && source.At(e.pathEnd).Some?
    && IdentityOf(source.content(e.file, e.handleAt)) == IdentityOf(source.content(e.file, e.handleEnd))
    && IdentityOf(source.At(e.pathAt).value) == IdentityOf(source.At(e.pathEnd).value)
    && |published| == |source.content(e.file, e.handleAt).bytes|
    && e.offset <= |published|
    && (source.FileStable(e.file, e.handleAt, e.handleEnd) ==>
          published[e.offset..] == source.content(e.file, e.handleAt).bytes[e.offset..])
    && (e.offset > 0 && source.NameStable(e.pathAt, e.pathEnd) ==>
          && e.offset <= |source.At(e.pathAt).value.bytes|
          && published[..e.offset] == source.At(e.pathAt).value.bytes[..e.offset])
  }

  // Upload integrity. What is published is the one version the opened file had from the
  // first look to the last, unless it was resumed from another file's bytes: the path had
  // been bound to a file with a different prefix before its identity was first read.
  lemma UploadIntegrityIff(source: Source, e: Evidence, published: Bytes)
    requires source.Fresh() && ChecksPassed(source, e, published)
    ensures e.offset <= |source.At(e.pathAt).value.bytes| || e.offset == 0
    ensures (forall t | e.handleAt <= t <= e.handleEnd :: source.content(e.file, t).bytes == published) <==>
            e.offset == 0
            || source.At(e.pathAt).value.bytes[..e.offset] == source.content(e.file, e.handleAt).bytes[..e.offset]
  {
    var version := source.content(e.file, e.handleAt).bytes;
    assert source.FileStable(e.file, e.handleAt, e.handleEnd);
    assert e.offset > 0 ==> source.NameStable(e.pathAt, e.pathEnd);
    assert published == published[..e.offset] + published[e.offset..];
    assert version == version[..e.offset] + version[e.offset..];
    if forall t | e.handleAt <= t <= e.handleEnd :: source.content(e.file, t).bytes == published {
      assert source.content(e.file, e.handleAt).bytes == published;
    }
  }

  // A caller's way to be sure: do not resume, or keep the path bound to the file.
  lemma UploadIntegrity(source: Source, e: Evidence, published: Bytes)
    requires source.Fresh() && ChecksPassed(source, e, published)
    requires e.offset > 0 ==> source.nameAt(e.pathAt) == Some(e.file)
    ensures forall t | e.handleAt <= t <= e.handleEnd :: source.content(e.file, t).bytes == published
  {
    UploadIntegrityIff(source, e, published);
    if e.offset > 0 {
      assert source.FileStable(e.file, e.handleAt, e.handleEnd);
      assert source.content(e.file, e.pathAt) == source.content(e.file, e.handleAt);
    }
  }

  // The two first readings, of the handle and of the path, are never compared with each
  // other. Whenever the path names a file with another prefix by then, and nothing changes
  // from there on, a leftover of that file passes all checks and a mixture is published;
  // and only then.
  lemma MixturePossibleIff(source: Source, e: Evidence)
    requires source.Fresh() && e.openedAt <= e.handleAt <= e.pathAt <= e.handleEnd <= e.pathEnd
    requires source.nameAt(e.openedAt) == Some(e.file) && source.FileStable(e.file, e.handleAt, e.handleEnd)
    requires source.At(e.pathAt).Some? && source.NameStable(e.pathAt, e.pathEnd)
    requires e.offset <= |source.content(e.file, e.handleAt).bytes|
    ensures (exists published ::
               ChecksPassed(source, e, published) && published != source.content(e.file, e.handleAt).bytes) <==>
            && 0 < e.offset <= |source.At(e.pathAt).value.bytes|
            && source.At(e.pathAt).value.bytes[..e.offset] != source.content(e.file, e.handleAt).bytes[..e.offset]
  {
    var version, named := source.content(e.file, e.handleAt).bytes, source.At(e.pathAt).value.bytes;
    assert source.At(e.pathEnd) == source.At(e.pathAt)
           && source.content(e.file, e.handleEnd) == source.content(e.file, e.handleAt);
    if 0 < e.offset <= |named| && named[..e.offset] != version[..e.offset] {
      var mixture := named[..e.offset] + version[e.offset..];
      assert mixture[..e.offset] == named[..e.offset] && mixture[e.offset..] == version[e.offset..];
      assert ChecksPassed(source, e, mixture) && mixture != version;
    }
    if published :| ChecksPassed(source, e, published) && published != version {
      UploadIntegrityIff(source, e, published);
    }
  }

  // That such a source exists: bytes that were never the contents of any file.
  lemma ReboundPathCanMixVersions() returns (source: Source, e: Evidence, published: Bytes)
    ensures source.Fresh() && ChecksPassed(source, e, published)
    ensures e.offset > 0 && source.nameAt(e.pathAt) != Some(e.file)
    ensures forall file, t :: source.content(file, t).bytes != published
  {
    source := Source(t => Some(if t == 0 then 1 else 2),
                     (file, t) => if file == 1 then Version([1, 1], Some(1), false)
                         else Version([2, 2], Some(2), false));
    e := Evidence(1, 0, 1, 2, 3, 4, 1);
    published := [2, 1];
    assert source.content(1, 1).bytes == [1, 1] && source.content(2, 2).bytes == [2, 2];
    assert published[1..] == [1] == [1, 1][1..] && published[..1] == [2] == [2, 2][..1];
    assert forall t :: source.At(t).value.stamp == source.nameAt(t);
  }

  // The path had come to name another file when its identity was first read.
  ghost predicate Rebound(source: Source, file: nat, pathAt: nat) { source.nameAt(pathAt) != Some(file) }

  // The opened file and the path have both stayed as they were first seen.
  ghost predicate Steady(source: Source, file: nat, handleAt: nat, pathAt: nat, now: nat) {
    source.FileStable(file, handleAt, now) && source.NameStable(pathAt, now)
  }

  lemma BeginIs(l: Local, to: Path, version: Bytes, keep: bool, changed: bool)
    requires l.progress.None? && (keep ==> PartPath(to) in l.files && (changed || l.files[PartPath(to)] <= version))
    ensures var kept := if keep then l.files[PartPath(to)] else [];
            Calls(l, to, [Begin(version, keep, changed)])
                == Local(l.files[PartPath(to) := kept], Some(Progress(version, |kept|, changed)))
  {
    assert [Begin(version, keep, changed)][..0] == [];
  }

  // Resume check, and opening of the `.part`. `changed` says the kept leftover may be
  // another version's.
  method OpenPart(source: Source, file: nat, ghost handleAt: nat, ghost pathAt: nat, clock: Clock, store: FileStore,
                  ghost to: Path, part: Path, resume: bool, total: nat)
    returns (r: Result<nat>, ghost changed: bool, ghost calls: seq<Call>, ghost short: bool)
    requires handleAt <= pathAt <= clock.now && source.At(pathAt).Some?
    requires total == |source.content(file, handleAt).bytes| && part == PartPath(to)
    modifies clock, store
    ensures old(clock.now) <= clock.now && old(clock.faults) <= clock.faults
    ensures r.Err? ==> r.error.Backend? && (clock.faults > old(clock.faults) || source.Lost(old(clock.now), clock.now))
    ensures SameElsewhere(old(store.files), store.files, part, part)
    ensures r.Ok? ==> clock.faults == old(clock.faults)
    ensures r.Ok? && resume && part in old(store.files) && |old(store.files)[part]| <= total && !short
            && source.NameStable(pathAt, clock.now) && old(store.files)[part] <= source.At(pathAt).value.bytes ==>
              r.value == |old(store.files)[part]|
    ensures AttemptsAt(calls, source.content(file, handleAt).bytes)
    ensures var end := Calls(Local(old(store.files), None), to, calls);
            && end.files == store.files
            && (r.Ok? ==> end.progress == Some(Progress(source.content(file, handleAt).bytes, r.value, changed)))
            && (end.progress.Some? ==> end.progress.value.version == source.content(file, handleAt).bytes
                                       && end.progress.value.changed == changed)
    ensures changed ==> !Steady(source, file, handleAt, pathAt, clock.now) || (resume && Rebound(source, file, pathAt))
    ensures r.Ok? ==>
              && part in store.files && |store.files[part]| == r.value <= total && (r.value > 0 ==> resume)
              && (r.value > 0 && source.NameStable(pathAt, clock.now) ==>
                  store.files[part] <= source.At(pathAt).value.bytes)
  {
    calls, changed, short := [], false, false;
    var resumed;
    resumed, short := ResumeOffset(source, clock, pathAt, store.files, part, total, resume);
    if resumed.Err? { return Err(resumed.error), changed, calls, short; }
    var offset := resumed.value;
    ghost var version := source.content(file, handleAt).bytes;
    changed := offset > 0 && (!Steady(source, file, handleAt, pathAt, clock.now) || Rebound(source, file, pathAt));
    ghost var before := Local(store.files, None);
    ghost var kept := if offset > 0 then store.files[part] else [];
    if offset > 0 && !changed {
      assert source.content(file, pathAt) == source.content(file, handleAt);
    }
    BeginIs(before, to, version, offset > 0, changed);
    var ready := store.OpenWrite(clock, part, offset == 0);
    if ready.Ok? || store.files != before.files {
      calls := [Begin(version, offset > 0, changed)];
      assert store.files == before.files[part := kept];
    }
    if ready.Err? { return Err(ready.error), changed, calls, short; }
    if offset > 0 {
      var seekFails := clock.Fails();
      if seekFails { return Err(Backend("seek")), changed, calls, short; }
    }
    return Ok(offset), changed, calls, short;
  }

  // Resume, then the chunk loop. `calls` is what that does to the files.
  method FillPart(source: Source, file: nat, ghost handleAt: nat, ghost pathAt: nat, clock: Clock, store: FileStore,
                  ghost to: Path, part: Path, resume: bool, total: nat, controls: TransferControls, log: EventLog,
                  chunk: nat)
    returns (r: Result<nat>, ghost offset: nat, ghost calls: seq<Call>)
    requires chunk > 0 && source.Sized() && handleAt <= pathAt <= clock.now && source.At(pathAt).Some?
    requires total == |source.content(file, handleAt).bytes| && part == PartPath(to)
    modifies clock, store, controls`cancelled, controls`transferred, log`pumpAlive
    ensures Explained(source, Direction.Upload, r, clock.faults > old(clock.faults), Stopped(controls, log),
                      old(clock.now), clock.now)
    ensures old(clock.now) <= clock.now && old(clock.faults) <= clock.faults
    ensures old(controls.cancelled) ==> controls.cancelled
    ensures SameElsewhere(old(store.files), store.files, part, part)
    ensures offset > 0 ==> resume
    ensures r.Ok? ==>
              && part in store.files && controls.transferred == r.value == |store.files[part]|
              && offset <= r.value
              && (source.FileStable(file, handleAt, clock.now) ==>
                    var version := source.content(file, handleAt).bytes;
                    r.value == |version| && store.files[part][offset..] == version[offset..r.value])
              && (offset > 0 && source.NameStable(pathAt, clock.now) ==>
                    store.files[part][..offset] <= source.At(pathAt).value.bytes)
    ensures Filled(source, file, handleAt, pathAt, clock.now, resume, old(store.files), store.files, to, calls, r)
    ensures r.Ok? ==> clock.faults == old(clock.faults)
  {
    offset := 0;
    var ready;
    ghost var changed;
    ghost var short;
    ready, changed, calls, short := OpenPart(source, file, handleAt, pathAt, clock, store, to, part, resume, total);
    if ready.Err? { return Err(ready.error), offset, calls; }
    offset := ready.value;
    ghost var prepared := store.files;
    ghost var more;
    r, more := CopyChunks(source, file, handleAt, clock, store, to, part, ready.value, changed, controls, log, chunk);
    CallsChain(Local(old(store.files), None), to, calls, more);
    calls := calls + more;
    SameElsewhereChains(old(store.files), prepared, store.files, part, part);
  }

  // The files are what `calls` makes them; the attempt they leave has seen the first version,
  // and knows of a change only if there was one or the path had been rebound.
  ghost predicate Filled(source: Source, file: nat, handleAt: nat, pathAt: nat, now: nat, resume: bool,
                         before: map<Path, Bytes>, after: map<Path, Bytes>, to: Path, calls: seq<Call>,
                         r: Result<nat>) {
    var end := Calls(Local(before, None), to, calls);
    && AttemptsAt(calls, source.content(file, handleAt).bytes)
    && end.files == after && (r.Ok? ==> end.progress.Some? && end.progress.value.written == r.value)
    && (end.progress.Some? ==>
          && end.progress.value.version == source.content(file, handleAt).bytes
          && (end.progress.value.changed ==>
                !Steady(source, file, handleAt, pathAt, now) || (resume && Rebound(source, file, pathAt))))
  }

  // The files are what a sequence of upload steps makes of them, at one version the source
  // had in the window.
  ghost predicate Stepwise(source: Source, before: map<Path, Bytes>, after: map<Path, Bytes>, to: Path,
                           calls: seq<Call>, start: nat, end: nat) {
    && Calls(Local(before, None), to, calls) == Local(after, None)
    && exists version :: AttemptsAt(calls, version) && (calls != [] ==> source.Complete(version, start, end))
  }

  lemma NoSteps(source: Source, files: map<Path, Bytes>, to: Path)
    ensures forall start, end :: Stepwise(source, files, files, to, [], start, end)
  {
    assert AttemptsAt([], []);
  }

  function GivingUp(before: map<Path, Bytes>, to: Path, calls: seq<Call>): seq<Call> {
    if Calls(Local(before, None), to, calls).progress.Some? then [Abandon] else []
  }

  lemma OpenedComplete(source: Source, file: nat, openedAt: nat, handleAt: nat, start: nat, end: nat)
    requires source.nameAt(openedAt) == Some(file) && start <= openedAt <= handleAt <= end
    ensures source.Complete(source.content(file, handleAt).bytes, start, end)
  {
  }

  // An attempt that does not publish ends by giving up what it began.
  lemma GivesUp(source: Source, e: Evidence, now: nat, resume: bool,
                before: map<Path, Bytes>, filled: map<Path, Bytes>, to: Path, calls: seq<Call>, r: Result<nat>,
                start: nat, end: nat)
    requires Filled(source, e.file, e.handleAt, e.pathAt, now, resume, before, filled, to, calls, r)
    requires source.nameAt(e.openedAt) == Some(e.file) && start <= e.openedAt <= e.handleAt <= end
    ensures Stepwise(source, before, filled, to, calls + GivingUp(before, to, calls), start, end)
  {
    OneMore(Local(before, None), to, calls, Abandon);
    OpenedComplete(source, e.file, e.openedAt, e.handleAt, start, end);
    assert calls + [] == calls;
    assert AttemptsAt(calls + GivingUp(before, to, calls), source.content(e.file, e.handleAt).bytes);
  }

  // The attempt's last call: the rename if it took place, else none or giving up.
  lemma LastCall(source: Source, e: Evidence, now: nat, resume: bool, before: map<Path, Bytes>,
                 filled: map<Path, Bytes>, to: Path, calls: seq<Call>, n: nat, start: nat, end: nat)
    requires Filled(source, e.file, e.handleAt, e.pathAt, now, resume, before, filled, to, calls, Ok(n))
    requires PartPath(to) in filled && n == |source.content(e.file, e.handleAt).bytes|
    requires source.Fresh() && (resume ==> !Rebound(source, e.file, e.pathAt)) && now <= e.handleEnd <= e.pathEnd
    requires e.handleAt <= e.handleEnd && e.pathAt <= e.pathEnd && source.At(e.pathAt).Some?
             && source.At(e.pathEnd).Some?
    requires IdentityOf(source.content(e.file, e.handleAt)) == IdentityOf(source.content(e.file, e.handleEnd))
    requires IdentityOf(source.At(e.pathAt).value) == IdentityOf(source.At(e.pathEnd).value)
    requires source.nameAt(e.openedAt) == Some(e.file) && start <= e.openedAt <= e.handleAt <= end
    ensures Stepwise(source, before, Moved(filled, PartPath(to), to), to, calls + [Rename], start, end)
  {
    OpenedComplete(source, e.file, e.openedAt, e.handleAt, start, end);
    assert AttemptsAt(calls + [Rename], source.content(e.file, e.handleAt).bytes);
    assert source.FileStable(e.file, e.handleAt, e.handleEnd) && source.NameStable(e.pathAt, e.pathEnd);
    assert Steady(source, e.file, e.handleAt, e.pathAt, now);
    OneMore(Local(before, None), to, calls, Rename);
  }

  // The last look at the source, and the rename.
  method PublishUpload(source: Source, file: nat, clock: Clock, store: FileStore, destination: Path,
                       initialHandle: Identity, initialPath: Identity, transferred: nat,
                       ghost start: Evidence)
    returns (r: Result<()>, ghost evidence: Option<Evidence>)
    requires PartPath(destination) in store.files && transferred == |store.files[PartPath(destination)]|
    requires start.openedAt <= start.handleAt <= start.pathAt <= clock.now && start.offset <= transferred
    requires source.nameAt(start.openedAt) == Some(file) && start.file == file && source.At(start.pathAt).Some?
    requires initialHandle == IdentityOf(source.content(start.file, start.handleAt))
    requires initialPath == IdentityOf(source.At(start.pathAt).value)
    requires var part := store.files[PartPath(destination)];
             && (source.FileStable(start.file, start.handleAt, clock.now) ==>
                   var version := source.content(start.file, start.handleAt).bytes;
                   transferred <= |version| && part[start.offset..] == version[start.offset..transferred])
             && (start.offset > 0 && source.NameStable(start.pathAt, clock.now) ==>
                   part[..start.offset] <= source.At(start.pathAt).value.bytes)
    modifies clock, store
    ensures old(clock.now) <= clock.now && old(clock.faults) <= clock.faults
    ensures SameElsewhere(old(store.files), store.files, destination, PartPath(destination))
    ensures evidence.None? ==> r.Err? && store.files == old(store.files)
    ensures evidence.Some? ==> store.files == Moved(old(store.files), PartPath(destination), destination)
    // It fails on an access that failed, or on a source that is not what it was or was not read whole.
    ensures r.Err? ==>
              || ((r.error.Backend? || r.error.DiskFull?) && clock.faults > old(clock.faults))
              || (r.error == SourceChanged
                  && !(source.Undisturbed(start.openedAt, clock.now) && transferred == initialHandle.len))
    ensures evidence.Some? ==>
              && destination in store.files && PartPath(destination) !in store.files
              && store.files[destination] == old(store.files)[PartPath(destination)]
              && ChecksPassed(source, evidence.value, store.files[destination])
              && evidence.value.pathEnd <= clock.now
              && evidence.value == start.(handleEnd := evidence.value.handleEnd, pathEnd := evidence.value.pathEnd)
              && old(clock.now) <= evidence.value.handleEnd
              && (r.Err? ==> r.error.Backend? || r.error.DiskFull?)
    ensures r.Ok? ==> clock.faults == old(clock.faults)
  {
    PartPathInjective(destination, destination);
    var flushOrCloseFails := clock.Fails();
    if flushOrCloseFails { return Err(Backend("flush or close")), None; }
    clock.Pass();
    var localFinalHandleMetadataFails := clock.Fails();
    if localFinalHandleMetadataFails { return Err(Backend("local final handle metadata")), None; }
    ghost var handleEnd := clock.now;
    if source.Undisturbed(start.openedAt, clock.now) {
      NamedFileStable(source, start.openedAt, start.handleAt, clock.now);
    }
    var finalHandle := IdentityOf(source.content(file, clock.now));
    clock.Pass();
    var finalAtPath := source.At(clock.now);
    if finalAtPath.None? { return Err(SourceChanged), None; }
    var localFinalMetadataFails := clock.Fails();
    if localFinalMetadataFails { return Err(Backend("local final metadata")), None; }
    if transferred != initialHandle.len || finalHandle != initialHandle
        || IdentityOf(finalAtPath.value) != initialPath {
      return Err(SourceChanged), None;
    }
    ghost var seen := start.(handleEnd := handleEnd, pathEnd := clock.now);
    assert ChecksPassed(source, seen, store.files[PartPath(destination)]);
    var renamed := store.Rename(clock, PartPath(destination), destination);
    evidence := if PartPath(destination) in store.files then None else Some(seen);
    if renamed.Err? { return Err(MapDiskError(renamed.error)), evidence; }
    return Ok(()), evidence;
  }

  // An upload once its source is open and both identities are read.
  method FillAndPublish(source: Source, file: nat, ghost began: nat, ghost seen: Evidence,
                        initialHandle: Identity, initialPath: Identity, clock: Clock, store: FileStore,
                        destination: Path, resume: bool, controls: TransferControls, log: EventLog, chunk: nat)
    returns (r: Result<()>, ghost evidence: Option<Evidence>, ghost calls: seq<Call>)
    requires chunk > 0 && source.Sized()
    requires seen.file == file && seen.offset == 0
             && began <= seen.openedAt <= seen.handleAt <= seen.pathAt <= clock.now
    requires source.nameAt(seen.openedAt) == Some(file) && source.At(seen.pathAt).Some?
    requires initialHandle == IdentityOf(source.content(seen.file, seen.handleAt))
             && initialPath == IdentityOf(source.At(seen.pathAt).value)
    modifies clock, store, controls`cancelled, controls`transferred, log`pumpAlive
    ensures old(clock.now) <= clock.now && old(clock.faults) <= clock.faults
    ensures old(controls.cancelled) ==> controls.cancelled
    ensures SameElsewhere(old(store.files), store.files, destination, PartPath(destination))
    ensures Explained(source, Direction.Upload, r, clock.faults > old(clock.faults), Stopped(controls, log), began,
                      clock.now)
    ensures evidence.None? ==> r.Err? && SameAt(old(store.files), store.files, destination)
    ensures evidence.Some? ==>
              && destination in store.files && PartPath(destination) !in store.files
              && ChecksPassed(source, evidence.value, store.files[destination])
              && began <= evidence.value.openedAt && evidence.value.pathEnd <= clock.now
              && (evidence.value.offset > 0 ==> resume)
              && controls.transferred == |store.files[destination]|
              && (r.Err? ==> r.error.Backend? || r.error.DiskFull?)
    ensures Trusted(source, Request(Direction.Upload, destination, resume)) ==>
              Stepwise(source, old(store.files), store.files, destination, calls, began, clock.now)
    ensures r.Ok? ==> clock.faults == old(clock.faults)
  {
    PartPathInjective(destination, destination);
    var part := PartPath(destination);
    var copied;
    ghost var offset, soFar;
    copied, offset, soFar := FillPart(source, file, seen.handleAt, seen.pathAt, clock, store, destination, part, resume,
                                      initialHandle.len, controls, log, chunk);
    ghost var filledAt, filled, faults := clock.now, store.files, clock.faults;
    assert SameAt(old(store.files), filled, destination);
    if copied.Err? {
      calls := WhatItDid(source, seen, None, filledAt, resume, old(store.files), filled, filled, destination, soFar,
                         copied,
                         began, clock.now);
      ExplainedWidens(source, Direction.Upload, copied, clock.faults > old(clock.faults), Stopped(controls, log),
                      old(clock.now), clock.now, began, clock.now);
      return Err(copied.error), None, calls;
    }
    ghost var start := seen.(offset := offset);
    r, evidence := PublishUpload(source, file, clock, store, destination, initialHandle, initialPath, copied.value,
                                 start);
    SameElsewhereChains(old(store.files), filled, store.files, destination, part);
    calls := WhatItDid(source, seen, evidence, filledAt, resume, old(store.files), filled, store.files, destination,
                       soFar,
                       copied, began, clock.now);
    PublishExplained(source, seen, r, copied.value, filledAt, clock.faults > faults, clock.faults > old(clock.faults),
                     Stopped(controls, log), began, clock.now);
  }

  // What an upload did to the files, once it is known whether it published.
  lemma WhatItDid(source: Source, seen: Evidence, evidence: Option<Evidence>, filledAt: nat, resume: bool,
                  before: map<Path, Bytes>, filled: map<Path, Bytes>, after: map<Path, Bytes>, to: Path,
                      soFar: seq<Call>,
                  copied: Result<nat>, start: nat, end: nat) returns (calls: seq<Call>)
    requires Filled(source, seen.file, seen.handleAt, seen.pathAt, filledAt, resume, before, filled, to, soFar, copied)
    requires source.nameAt(seen.openedAt) == Some(seen.file) && start <= seen.openedAt <= seen.handleAt <= end
    requires evidence.None? ==> after == filled
    requires evidence.Some? ==>
               && copied.Ok? && PartPath(to) in filled && copied.value == |filled[PartPath(to)]|
               && after == Moved(filled, PartPath(to), to) && ChecksPassed(source, evidence.value, filled[PartPath(to)])
               && filledAt <= evidence.value.handleEnd && evidence.value.file == seen.file
               && evidence.value.openedAt == seen.openedAt && evidence.value.handleAt == seen.handleAt
               && evidence.value.pathAt == seen.pathAt
    ensures Trusted(source, Request(Direction.Upload, to, resume)) ==>
              Stepwise(source, before, after, to, calls, start, end)
  {
    calls := soFar + GivingUp(before, to, soFar);
    GivesUp(source, seen, filledAt, resume, before, filled, to, soFar, copied, start, end);
    if evidence.Some? && Trusted(source, Request(Direction.Upload, to, resume)) {
      calls := soFar + [Rename];
      PinnedIsNotRebound(source, seen, resume);
      LastCall(source, evidence.value, filledAt, resume, before, filled, to, soFar, copied.value, start, end);
    }
  }

  lemma PublishExplained(source: Source, seen: Evidence, r: Result<()>, transferred: nat, filledAt: nat, drawnNow: bool,
                         drawn: bool, stopped: bool, start: nat, end: nat)
    requires start <= seen.openedAt <= seen.handleAt <= filledAt <= end && (drawnNow ==> drawn)
    requires source.nameAt(seen.openedAt) == Some(seen.file)
    requires var total := |source.content(seen.file, seen.handleAt).bytes|;
             && (source.FileStable(seen.file, seen.handleAt, filledAt) ==> transferred == total)
             && (r.Err? ==>
                   || ((r.error.Backend? || r.error.DiskFull?) && drawnNow)
                   || (r.error == SourceChanged && !(source.Undisturbed(seen.openedAt, end) && transferred == total)))
    ensures Explained(source, Direction.Upload, r, drawn, stopped, start, end)
  {
    UndisturbedNarrows(source, seen.openedAt, end, start, end);
    if source.Undisturbed(seen.openedAt, end) {
      UndisturbedNarrows(source, seen.openedAt, filledAt, seen.openedAt, end);
      NamedFileStableIf(source, seen.openedAt, seen.handleAt, filledAt);
    }
  }

  lemma NamedFileStableIf(source: Source, from: nat, mid: nat, to: nat)
    requires from <= mid <= to
    ensures source.Undisturbed(from, to) ==> source.FileStable(source.nameAt(from).value, mid, to)
  {
    if source.Undisturbed(from, to) { NamedFileStable(source, from, mid, to); }
  }

  lemma PinnedIsNotRebound(source: Source, e: Evidence, resume: bool)
    requires resume ==> exists file: nat :: source.Pinned(file)
    requires source.nameAt(e.openedAt) == Some(e.file) && source.At(e.pathAt).Some?
    ensures resume ==> !Rebound(source, e.file, e.pathAt)
  {
    if resume {
      var file: nat :| source.Pinned(file);
      assert source.nameAt(e.openedAt) == Some(file) == source.nameAt(e.pathAt);
    }
  }

  method Upload(source: Source, clock: Clock, store: FileStore, destination: Path, resume: bool,
                controls: TransferControls, log: EventLog, chunk: nat)
    returns (r: Result<()>, ghost evidence: Option<Evidence>, ghost calls: seq<Call>)
    requires chunk > 0 && source.Sized()
    modifies clock, store, controls`cancelled, controls`transferred, log`pumpAlive
    ensures old(clock.now) <= clock.now && old(clock.faults) <= clock.faults
    ensures old(controls.cancelled) ==> controls.cancelled
    ensures SameElsewhere(old(store.files), store.files, destination, PartPath(destination))
    // Missing, changed and failed are said only of a source and of accesses that were.
    ensures (forall t | old(clock.now) <= t <= clock.now :: source.nameAt(t).None?) ==> r == Err(SourceNotFound)
    ensures Explained(source, Direction.Upload, r, clock.faults > old(clock.faults), Stopped(controls, log),
                      old(clock.now), clock.now)
    // Without evidence nothing was published; with it the rename took place.
    ensures evidence.None? ==> r.Err? && SameAt(old(store.files), store.files, destination)
    ensures evidence.Some? ==>
              && destination in store.files && PartPath(destination) !in store.files
              && ChecksPassed(source, evidence.value, store.files[destination])
              && old(clock.now) <= evidence.value.openedAt && evidence.value.pathEnd <= clock.now
              && (evidence.value.offset > 0 ==> resume)
              && controls.transferred == |store.files[destination]|
              && (r.Err? ==> r.error.Backend? || r.error.DiskFull?)
    // All it does to the files is a sequence of upload steps, the rename among them only
    // with an unchanged source and every byte counted.
    ensures Trusted(source, Request(Direction.Upload, destination, resume)) ==>
              Stepwise(source, old(store.files), store.files, destination, calls, old(clock.now), clock.now)
    ensures r.Ok? ==> clock.faults == old(clock.faults)
  {
    calls := [];
    NoSteps(source, store.files, destination);
    clock.Pass();
    var named := source.nameAt(clock.now);
    if named.None? { return Err(SourceNotFound), None, calls; }
    var localOpenFails := clock.Fails();
    if localOpenFails { return Err(Backend("local open")), None, calls; }
    ghost var openedAt := clock.now;
    clock.Pass();
    var localMetadataFails := clock.Fails();
    if localMetadataFails { return Err(Backend("local metadata")), None, calls; }
    ghost var handleAt := clock.now;
    var initialHandle := IdentityOf(source.content(named.value, clock.now));
    clock.Pass();
    var initialAtPath := source.At(clock.now);
    if initialAtPath.None? { return Err(SourceChanged), None, calls; }
    var localPathMetadataFails := clock.Fails();
    if localPathMetadataFails { return Err(Backend("local path metadata")), None, calls; }
    ghost var seen := Evidence(named.value, openedAt, handleAt, clock.now, 0, 0, 0);
    r, evidence, calls := FillAndPublish(source, named.value, old(clock.now), seen, initialHandle,
                                         IdentityOf(initialAtPath.value),
                                         clock, store, destination, resume, controls, log, chunk);
  }

  // ---------------------------------------------------------------- download

  // The old file at `to` is at `to` again, or moved aside and still whole.
  ghost predicate OldFileKept(before: map<Path, Bytes>, after: map<Path, Bytes>, to: Path) {
    || SameAt(before, after, to)
    || (to in before && to !in after && exists backup ::
          backup != PartPath(to) && backup in after && after[backup] == before[to])
  }

  // Nothing but `p` and `q` changed among the files there were; a backup may remain.
  ghost predicate OthersKept(before: map<Path, Bytes>, after: map<Path, Bytes>, p: Path, q: Path) {
    forall path | path in before && path != p && path != q :: path in after && after[path] == before[path]
  }

  // Publishes a finished download. On Windows an existing destination is moved
  // aside first, and moved back when the final rename fails.
  method ReplaceLocalFile(clock: Clock, store: FileStore, from: Path, to: Path, windows: bool)
    returns (r: Result<()>, ghost restoreFailed: bool)
    requires from == PartPath(to) && from in store.files && from != to
    modifies store, clock`faults
    ensures old(clock.faults) <= clock.faults
    ensures OthersKept(old(store.files), store.files, from, to)
    // Without a failure the new file is in place and no backup stays behind; a lost old file
    // takes two: the final rename and the restore.
    ensures clock.faults == old(clock.faults) ==> r.Ok? && store.files == Moved(old(store.files), from, to)
    ensures r.Err? && clock.faults < old(clock.faults) + 2 ==> store.files == old(store.files)
    ensures r.Ok? ==> from !in store.files && to in store.files && store.files[to] == old(store.files)[from]
    ensures r.Err? ==>
              && r.error.Backend? && clock.faults > old(clock.faults)
              && SameAt(old(store.files), store.files, from)
              && OldFileKept(old(store.files), store.files, to)
              && (!restoreFailed ==> store.files == old(store.files))
    ensures restoreFailed ==> windows && to in old(store.files) && clock.faults >= old(clock.faults) + 2
    // Only a failure to remove the backup is passed over.
    ensures r.Ok? ==> clock.faults <= old(clock.faults) + (if windows then 1 else 0)
  {
    restoreFailed := false;
    if !windows || to !in store.files {
      var ok := store.RenameLocal(clock, from, to);
      return if ok then Ok(()) else Err(Backend("local rename")), restoreFailed;
    }
    UnusedPath(store.files.Keys);
    var backup: Path :| backup !in store.files.Keys;
    var aside := store.RenameLocal(clock, to, backup);
    if !aside { return Err(Backend("local rename")), restoreFailed; }
    var placed := store.RenameLocal(clock, from, to);
    if placed {
      store.RemoveLocal(clock, backup);
      return Ok(()), restoreFailed;
    }
    var restored := store.RenameLocal(clock, backup, to);
    restoreFailed := !restored;
    return Err(Backend("local rename")), restoreFailed;
  }

  // Resume check, opening of both files, chunk loop.
  method FillDownload(source: Source, ghost statAt: nat, clock: Clock, store: FileStore, ghost to: Path, part: Path,
                      resume: bool, total: nat, controls: TransferControls, log: EventLog, chunk: nat)
    returns (r: Result<nat>)
    requires chunk > 0 && source.Sized() && statAt <= clock.now && source.At(statAt).Some?
    requires total == |source.At(statAt).value.bytes| && part == PartPath(to)
    modifies clock, store, controls`cancelled, controls`transferred, log`pumpAlive
    ensures old(clock.now) <= clock.now && old(clock.faults) <= clock.faults
    ensures old(controls.cancelled) ==> controls.cancelled
    ensures Explained(source, Direction.Download, r, clock.faults > old(clock.faults), Stopped(controls, log),
                      old(clock.now), clock.now)
    ensures SameElsewhere(old(store.files), store.files, part, part)
    ensures r.Ok? ==>
              && part in store.files && controls.transferred == r.value == |store.files[part]|
              && (source.NameStable(statAt, clock.now) ==> store.files[part] == source.At(statAt).value.bytes)
    ensures r.Ok? ==> clock.faults == old(clock.faults)
  {
    var file, offset;
    ghost var openedAt;
    var ready;
    ghost var short;
    ready, file, offset, openedAt, short := OpenDownload(source, statAt, clock, store, part, resume, total);
    if ready.Err? { return Err(ready.error); }
    ghost var prepared := store.files;
    ghost var calls;
    r, calls := CopyChunks(source, file, openedAt, clock, store, to, part, offset, true, controls, log, chunk);
    SameElsewhereChains(old(store.files), prepared, store.files, part, part);
    if r.Ok? && source.NameStable(statAt, clock.now) {
      NamedFileStable(source, statAt, openedAt, clock.now);
      assert store.files[part] == store.files[part][..offset] + store.files[part][offset..];
    }
  }

  // Resume check, and opening of both files.
  method OpenDownload(source: Source, ghost statAt: nat, clock: Clock, store: FileStore, part: Path, resume: bool,
                      total: nat)
    returns (r: Result<()>, file: nat, offset: nat, ghost openedAt: nat, ghost short: bool)
    requires statAt <= clock.now && source.At(statAt).Some? && total == |source.At(statAt).value.bytes|
    modifies clock, store
    ensures old(clock.now) <= openedAt <= clock.now && old(clock.faults) <= clock.faults
    ensures SameElsewhere(old(store.files), store.files, part, part)
    ensures r.Err? ==> r.error.Backend? && (clock.faults > old(clock.faults) || source.Lost(old(clock.now), clock.now))
    ensures r.Ok? ==> clock.faults == old(clock.faults)
    ensures r.Ok? && resume && part in old(store.files) && |old(store.files)[part]| <= total && !short
            && source.NameStable(statAt, clock.now) && old(store.files)[part] <= source.At(statAt).value.bytes ==>
              offset == |old(store.files)[part]|
    ensures r.Ok? ==>
              && part in store.files && |store.files[part]| == offset <= total && source.nameAt(openedAt) == Some(file)
              && (source.NameStable(statAt, openedAt) ==> store.files[part] <= source.At(statAt).value.bytes)
  {
    file, offset, openedAt, short := 0, 0, clock.now, false;
    var resumed;
    resumed, short := ResumeOffset(source, clock, statAt, store.files, part, total, resume);
    openedAt := clock.now;
    if resumed.Err? { return Err(resumed.error), file, offset, openedAt, short; }
    offset := resumed.value;
    clock.Pass();
    openedAt := clock.now;
    var named := source.nameAt(clock.now);
    if named.None? { return Err(Backend("open")), file, offset, openedAt, short; }
    file := named.value;
    var fails := clock.Fails();
    if fails { return Err(Backend("open")), file, offset, openedAt, short; }
    ghost var kept := if offset > 0 then store.files[part] else [];
    var ready := store.OpenWrite(clock, part, offset == 0);
    if ready.Err? { return Err(ready.error), file, offset, openedAt, short; }
    assert store.files[part] == kept;
    if offset > 0 {
      fails := clock.Fails();
      if fails { return Err(Backend("seek")), file, offset, openedAt, short; }
    }
    return Ok(()), file, offset, openedAt, short;
  }

  // Download integrity: with an identity that shows every rewrite, what is
  // published is the remote file as it was throughout.
  method Download(source: Source, clock: Clock, store: FileStore, destination: Path, resume: bool, windows: bool,
                  controls: TransferControls, log: EventLog, chunk: nat)
    returns (r: Result<()>, ghost statAt: nat, ghost endAt: nat)
    requires chunk > 0 && source.Sized()
    modifies clock, store, controls`cancelled, controls`transferred, log`pumpAlive
    ensures old(clock.now) <= clock.now && old(clock.faults) <= clock.faults
    ensures old(controls.cancelled) ==> controls.cancelled
    ensures OthersKept(old(store.files), store.files, destination, PartPath(destination))
    ensures r.Err? ==> OldFileKept(old(store.files), store.files, destination)
    ensures Explained(source, Direction.Download, r, clock.faults > old(clock.faults), Stopped(controls, log),
                      old(clock.now), clock.now)
    ensures r.Ok? ==>
              && destination in store.files && PartPath(destination) !in store.files
              && old(clock.now) <= statAt <= endAt <= clock.now
              && source.At(statAt).Some? && source.At(endAt).Some?
              && IdentityOf(source.At(statAt).value) == IdentityOf(source.At(endAt).value)
              && !source.At(statAt).value.isDir && !source.At(endAt).value.isDir
              && (source.Fresh() ==>
                    forall t | statAt <= t <= endAt ::
                      source.At(t).Some? && source.At(t).value.bytes == store.files[destination])
    ensures r.Ok? ==> clock.faults <= old(clock.faults) + (if windows then 1 else 0)
  {
    PartPathInjective(destination, destination);
    var part := PartPath(destination);
    clock.Pass();
    statAt, endAt := clock.now, clock.now;
    var statFails := clock.Fails();
    if statFails { return Err(Backend("stat")), statAt, endAt; }
    var found := source.At(clock.now);
    if found.None? { return Err(SourceNotFound), statAt, endAt; }
    var initial := IdentityOf(found.value);
    if found.value.isDir { return Err(Backend("remote path is a directory")), statAt, endAt; }
    var total := initial.len;

    ghost var filling, faults := clock.now, clock.faults;
    var copied := FillDownload(source, statAt, clock, store, destination, part, resume, total, controls, log, chunk);
    ghost var filled := store.files;
    assert SameAt(old(store.files), filled, destination);
    assert forall path | path in old(store.files) :: SameAt(old(store.files), filled, path) || path == part;
    if copied.Err? {
      ExplainedWidens(source, Direction.Download, copied, clock.faults > faults, Stopped(controls, log), filling,
                      clock.now,
                      old(clock.now), clock.now);
      return Err(copied.error), statAt, endAt;
    }
    r, endAt := PublishDownload(source, statAt, initial, clock, store, destination, copied.value, windows);
  }

  // The last look at the remote file, and the replacement of the local one.
  method PublishDownload(source: Source, ghost statAt: nat, initial: Identity, clock: Clock, store: FileStore,
                         destination: Path, transferred: nat, windows: bool)
    returns (r: Result<()>, ghost endAt: nat)
    requires PartPath(destination) in store.files && transferred == |store.files[PartPath(destination)]|
    requires statAt <= clock.now && source.At(statAt).Some?
    requires initial == IdentityOf(source.At(statAt).value) && !source.At(statAt).value.isDir
    modifies clock, store
    ensures old(clock.now) <= clock.now && old(clock.faults) <= clock.faults && old(clock.now) <= endAt <= clock.now
    ensures OthersKept(old(store.files), store.files, destination, PartPath(destination))
    ensures r.Err? ==> OldFileKept(old(store.files), store.files, destination)
    ensures r.Err? ==>
              || (r.error.Backend? && clock.faults > old(clock.faults))
              || (r.error == SourceChanged && !(source.NameStable(statAt, clock.now) && transferred == initial.len))
    ensures r.Ok? ==>
              && destination in store.files && PartPath(destination) !in store.files
              && store.files[destination] == old(store.files)[PartPath(destination)] && transferred == initial.len
              && source.At(endAt).Some? && IdentityOf(source.At(endAt).value) == initial
                 && !source.At(endAt).value.isDir
    ensures r.Ok? ==> clock.faults <= old(clock.faults) + (if windows then 1 else 0)
  {
    PartPathInjective(destination, destination);
    endAt := clock.now;
    var fails := clock.Fails();
    if fails { return Err(Backend("flush, sync or close")), endAt; }
    clock.Pass();
    endAt := clock.now;
    fails := clock.Fails();
    if fails { return Err(Backend("stat")), endAt; }
    var final := source.At(clock.now);
    if transferred != initial.len || final.None? || final.value.isDir || IdentityOf(final.value) != initial {
      return Err(SourceChanged), endAt;
    }
    ghost var restoreFailed;
    r, restoreFailed := ReplaceLocalFile(clock, store, PartPath(destination), destination, windows);
  }

  // ---------------------------------------------------------------- retries

  function Terminal(r: Result<()>): seq<Event> {
    if r.Ok? then [State(Completed)]
    else if r.error == SftpError.Cancelled then [State(Status.Cancelled)]
    else [FailedBecause(r.error), State(Failed)]
  }

  function Rounds(n: nat): seq<Event> {
    if n == 0 then [] else Rounds(n - 1) + [State(Transferring), State(Retrying)]
  }

  // The events of `attempts` attempts, the last one offering nothing when cut short.
  function Attempted(attempts: nat, early: bool): seq<Event>
    requires attempts > 0
  {
    Rounds(attempts - 1) + (if early then [] else [State(Transferring)])
  }

  // What a run of so many attempts may offer: Transferring, (Retrying, Transferring)*, then the
  // result and nothing else. Only a cancellation may come before the last Transferring.
  ghost predicate Announces(events: seq<Event>, attempts: nat, r: Result<()>) {
    var n := |events|;
    var ending := if r.Ok? || r.error == SftpError.Cancelled then 1 else 2;
    && attempts > 0
    && (n - ending == 2 * attempts - 1 || (n - ending == 2 * attempts - 2 && r == Err(SftpError.Cancelled)))
    && (forall k | 0 <= k < n - ending :: events[k] == if k % 2 == 0 then State(Transferring) else State(Retrying))
    && (r.Ok? ==> events[n - 1] == State(Completed))
    && (r == Err(SftpError.Cancelled) ==> events[n - 1] == State(Status.Cancelled))
    && (r.Err? && r.error != SftpError.Cancelled ==>
        events[n - 2] == FailedBecause(r.error) && events[n - 1] == State(Failed))
  }

  lemma {:induction false} RoundsAlternate(n: nat)
    ensures |Rounds(n)| == 2 * n
    ensures forall k | 0 <= k < 2 * n :: Rounds(n)[k] == if k % 2 == 0 then State(Transferring) else State(Retrying)
  {
    if n > 0 { RoundsAlternate(n - 1); }
  }

  lemma EndsAnnounced(attempts: nat, early: bool, r: Result<()>)
    requires attempts > 0 && (early ==> r == Err(SftpError.Cancelled))
    ensures Announces(Attempted(attempts, early) + Terminal(r), attempts, r)
  {
    RoundsAlternate(attempts - 1);
  }

  function Announced(early: bool): seq<Event> {
    [State(Retrying)] + (if early then [] else [State(Transferring)])
  }

  lemma AnotherAttempt(before: seq<Event>, attempts: nat, early: bool)
    requires attempts > 0
    ensures before + Attempted(attempts, false) + Announced(early) == before + Attempted(attempts + 1, early)
  {
    assert Attempted(attempts, false) + Announced(early) == Attempted(attempts + 1, early);
  }

  // What integrity needs to know about the source: rewrites show, and where an upload may
  // resume its path does not come to name another file.
  ghost predicate Trusted(source: Source, request: Request) {
    source.Fresh() && (request.direction.Upload? && request.resume ==> exists file: nat :: source.Pinned(file))
  }

  // Nobody finds a half-written destination: it is as before, or whole, or (after a
  // local restore that failed) missing with the old file moved aside.
  ghost predicate Intact(direction: Direction, source: Source, before: map<Path, Bytes>, after: map<Path, Bytes>,
                         to: Path, start: nat, end: nat) {
    match direction
    case Upload => SameAt(before, after, to) || (to in after && source.Complete(after[to], start, end))
    case Download => OldFileKept(before, after, to)
  }

  // What a transfer that ran from `start` to `end` and returned `r` leaves on the destination side.
  ghost predicate Leaves(request: Request, source: Source, before: map<Path, Bytes>, after: map<Path, Bytes>,
                         r: Result<()>, start: nat, end: nat) {
    && OthersKept(before, after, request.destination, PartPath(request.destination))
    && (Trusted(source, request) ==>
          if r.Ok? then request.destination in after && source.Complete(after[request.destination], start, end)
          else Intact(request.direction, source, before, after, request.destination, start, end))
  }

  lemma CompleteWidens(source: Source, bytes: Bytes, from: nat, to: nat, start: nat, end: nat)
    requires start <= from && to <= end && source.Complete(bytes, from, to)
    ensures source.Complete(bytes, start, end)
  {
    var file: nat, named: nat, t: nat :| from <= named <= t <= to && source.nameAt(named) == Some(file)
        && source.content(file, t).bytes == bytes;
    assert start <= named <= t <= end;
  }

  lemma LeavesChains(request: Request, source: Source, a: map<Path, Bytes>, b: map<Path, Bytes>, c: map<Path, Bytes>,
                     failed: Result<()>, r: Result<()>, start: nat, mid: nat, end: nat)
    requires failed.Err? && start <= mid <= end
    requires Leaves(request, source, a, b, failed, start, mid) && Leaves(request, source, b, c, r, mid, end)
    ensures Leaves(request, source, a, c, r, start, end)
  {
    OthersKeptChains(a, b, c, request.destination, PartPath(request.destination));
    if Trusted(source, request) {
      if r.Ok? {
        CompleteWidens(source, c[request.destination], mid, end, start, end);
      } else {
        IntactChains(request.direction, source, a, b, c, request.destination, start, mid, end);
      }
    }
  }

  lemma IntactChains(direction: Direction, source: Source, a: map<Path, Bytes>, b: map<Path, Bytes>,
                     c: map<Path, Bytes>, to: Path, start: nat, mid: nat, end: nat)
    requires start <= mid <= end && OthersKept(b, c, to, PartPath(to))
    requires Intact(direction, source, a, b, to, start, mid) && Intact(direction, source, b, c, to, mid, end)
    ensures Intact(direction, source, a, c, to, start, end)
  {
    if direction.Upload? {
      if to in c && source.Complete(c[to], mid, end) { CompleteWidens(source, c[to], mid, end, start, end); }
      if to in b && source.Complete(b[to], start, mid) { CompleteWidens(source, b[to], start, mid, start, end); }
    }
  }

  lemma OthersKeptChains(a: map<Path, Bytes>, b: map<Path, Bytes>, c: map<Path, Bytes>, p: Path, q: Path)
    requires OthersKept(a, b, p, q) && OthersKept(b, c, p, q)
    ensures OthersKept(a, c, p, q)
  {
  }

  lemma SameElsewhereIsKept(a: map<Path, Bytes>, b: map<Path, Bytes>, p: Path, q: Path)
    requires SameElsewhere(a, b, p, q)
    ensures OthersKept(a, b, p, q)
  {
    forall path | path in a && path != p && path != q ensures path in b && b[path] == a[path] {
      assert SameAt(a, b, path);
    }
  }

  lemma UploadComplete(source: Source, e: Evidence, published: Bytes, resume: bool, from: nat, to: nat)
    requires source.Fresh() && (resume ==> exists file: nat :: source.Pinned(file)) && (e.offset > 0 ==> resume)
    requires ChecksPassed(source, e, published) && from <= e.openedAt && e.pathEnd <= to
    ensures source.Complete(published, from, to)
  {
    if resume {
      var file: nat :| source.Pinned(file);
      assert source.nameAt(e.openedAt) == Some(file) == source.nameAt(e.pathAt);
    }
    UploadIntegrity(source, e, published);
    assert from <= e.openedAt <= e.handleAt <= to && source.content(e.file, e.handleAt).bytes == published;
  }

  lemma DownloadComplete(source: Source, bytes: Bytes, statAt: nat, from: nat, to: nat)
    requires from <= statAt <= to && source.At(statAt).Some? && source.At(statAt).value.bytes == bytes
    ensures source.Complete(bytes, from, to)
  {
    assert source.nameAt(statAt) == Some(source.nameAt(statAt).value) && from <= statAt <= statAt <= to;
  }

  // What an attempt, or several, that ran from `start` to `end` leave and say.
  ghost predicate Tried(request: Request, source: Source, before: map<Path, Bytes>, after: map<Path, Bytes>,
                        r: Result<()>,
                        drawn: bool, stopped: bool, start: nat, end: nat) {
    && Leaves(request, source, before, after, r, start, end)
    && Explained(source, request.direction, r, drawn, stopped, start, end)
  }

  lemma TriedAgain(request: Request, source: Source, a: map<Path, Bytes>, b: map<Path, Bytes>, c: map<Path, Bytes>,
                   failed: Result<()>, r: Result<()>, drawn: bool, drawnAgain: bool, wasStopped: bool, stopped: bool,
                   start: nat, mid: nat, end: nat)
    requires failed.Err? && start <= mid <= end
    requires Tried(request, source, a, b, failed, drawn, wasStopped, start, mid)
    requires Tried(request, source, b, c, r, drawnAgain, stopped, mid, end)
    ensures Tried(request, source, a, c, r, drawn || drawnAgain, stopped, start, end)
  {
    LeavesChains(request, source, a, b, c, failed, r, start, mid, end);
    ExplainedWidens(source, request.direction, r, drawnAgain, stopped, mid, end, start, end);
  }

  // A stop asked for later explains no less, and turns any failure into a cancellation.
  lemma TriedStill(request: Request, source: Source, before: map<Path, Bytes>, after: map<Path, Bytes>, r: Result<()>,
                   drawn: bool, wasStopped: bool, stopped: bool, start: nat, end: nat)
    requires Tried(request, source, before, after, r, drawn, wasStopped, start, end) && r.Err?
             && (wasStopped ==> stopped)
    ensures Tried(request, source, before, after, r, drawn, stopped, start, end)
    ensures stopped ==> Tried(request, source, before, after, Err(SftpError.Cancelled), drawn, stopped, start, end)
    ensures r.error == SftpError.Cancelled ==> stopped
  {
  }

  method AttemptTransfer(request: Request, source: Source, clock: Clock, store: FileStore, windows: bool,
                         controls: TransferControls, log: EventLog, chunk: nat)
    returns (r: Result<()>)
    requires chunk > 0 && source.Sized()
    modifies clock, store, controls`cancelled, controls`transferred, log
    ensures old(clock.now) <= clock.now && old(clock.faults) <= clock.faults
    ensures old(controls.cancelled) ==> controls.cancelled
    ensures || log.offered == old(log.offered) + [State(Transferring)]
            || (log.offered == old(log.offered) && r == Err(SftpError.Cancelled))
    ensures Tried(request, source, old(store.files), store.files, r, clock.faults > old(clock.faults),
                  Stopped(controls, log),
                  old(clock.now), clock.now)
    // A failed access is not passed over, nor a stop that was asked for.
    ensures r.Ok? ==> clock.faults <= old(clock.faults) + (if request.direction.Download? && windows then 1 else 0)
    ensures old(controls.cancelled) ==> log.offered == old(log.offered)
    ensures old(controls.cancelled) || !old(log.pumpAlive) ==>
            r == Err(SftpError.Cancelled) && store.files == old(store.files)
  {
    clock.Pass();
    if * { controls.cancelled := true; }
    if controls.cancelled { return Err(SftpError.Cancelled); }
    log.Offer(State(Transferring));
    if * { log.pumpAlive := false; }
    if !log.pumpAlive { return Err(SftpError.Cancelled); }
    match request.direction
    case Upload =>
      ghost var evidence, calls;
      r, evidence, calls := Upload(source, clock, store, request.destination, request.resume, controls, log, chunk);
      SameElsewhereIsKept(old(store.files), store.files, request.destination, PartPath(request.destination));
      if evidence.Some? && Trusted(source, request) {
        UploadComplete(source, evidence.value, store.files[request.destination], request.resume, old(clock.now),
                       clock.now);
      }
    case Download =>
      ghost var statAt, endAt;
      r, statAt, endAt := Download(source, clock, store, request.destination, request.resume, windows, controls, log,
                                   chunk);
      if r.Ok? && source.Fresh() {
        DownloadComplete(source, store.files[request.destination], statAt, old(clock.now), clock.now);
      }
  }

  // One more attempt, announced and paid for.
  method Retry(request: Request, source: Source, clock: Clock, store: FileStore, windows: bool,
               controls: TransferControls, log: EventLog, chunk: nat)
    returns (r: Result<()>, ghost early: bool)
    requires chunk > 0 && source.Sized() && controls.retriesLeft > 0
    modifies clock, store, controls, log
    ensures old(clock.now) <= clock.now && old(clock.faults) <= clock.faults
    ensures controls.retriesLeft == old(controls.retriesLeft) - 1
    ensures old(controls.cancelled) ==> controls.cancelled
    ensures log.offered == old(log.offered) + Announced(early)
    ensures early ==> r == Err(SftpError.Cancelled)
    ensures Tried(request, source, old(store.files), store.files, r, clock.faults > old(clock.faults),
                  Stopped(controls, log),
                  old(clock.now), clock.now)
  {
    controls.retriesLeft := controls.retriesLeft - 1;
    log.Offer(State(Retrying));
    label announced:
    r := AttemptTransfer(request, source, clock, store, windows, controls, log, chunk);
    early := log.offered == old@announced(log.offered);
  }

  // Offers the terminal events and clears the running flag.
  method Finish(controls: TransferControls, log: EventLog, r: Result<()>)
    modifies controls`running, log`offered
    ensures !controls.running && log.offered == old(log.offered) + Terminal(r)
  {
    if r.Ok? {
      log.Offer(State(Completed));
    } else if r.error == SftpError.Cancelled {
      log.Offer(State(Status.Cancelled));
    } else {
      log.Offer(FailedBecause(r.error));
      log.Offer(State(Failed));
    }
    controls.running := false;
  }

  // Only a backend failure is followed by another attempt.
  ghost predicate AllButLastBackend(outcomes: seq<Result<()>>) {
    forall i | 0 <= i < |outcomes| - 1 :: outcomes[i].Err? && outcomes[i].error.Backend?
  }

  lemma OneMoreBackend(outcomes: seq<Result<()>>, r: Result<()>)
    requires outcomes != [] && AllButLastBackend(outcomes)
    requires outcomes[|outcomes| - 1].Err? && outcomes[|outcomes| - 1].error.Backend?
    ensures AllButLastBackend(outcomes + [r])
  {
  }

  // What the attempts of one run add up to: at most one more than the retries allowed,
  // all but the last ended by a backend failure; giving up on one means none are left.
  ghost predicate Bounded(outcomes: seq<Result<()>>, r: Result<()>, cancelled: bool, allowed: nat, left: nat) {
    && outcomes != [] && AllButLastBackend(outcomes) && left + |outcomes| == allowed + 1
    && var last := outcomes[|outcomes| - 1];
    && (r.Ok? <==> last.Ok?)
    && (r.Err? ==> r == last || (r.error == SftpError.Cancelled && cancelled))
    && (r.Err? && r.error.Backend? ==> left == 0)
  }

  // After a failure: give up, or attempt once more.
  method AttemptAgain(request: Request, source: Source, clock: Clock, store: FileStore, windows: bool,
                      controls: TransferControls, log: EventLog, chunk: nat, failed: Result<()>,
                      ghost before: map<Path, Bytes>, ghost began: nat, ghost drawn: bool)
    returns (again: bool, r: Result<()>, ghost early: bool)
    requires chunk > 0 && source.Sized() && failed.Err? && began <= clock.now
    requires Tried(request, source, before, store.files, failed, drawn, Stopped(controls, log), began, clock.now)
    modifies clock, store, controls, log
    ensures old(clock.now) <= clock.now && old(clock.faults) <= clock.faults
    ensures Tried(request, source, before, store.files, r, drawn || clock.faults > old(clock.faults),
                  Stopped(controls, log),
                  began, clock.now)
    ensures !again ==>
              && (r == failed || (r == Err(SftpError.Cancelled) && controls.cancelled))
              && controls.retriesLeft == old(controls.retriesLeft) && log.offered == old(log.offered)
              && (r.error.Backend? ==> controls.retriesLeft == 0)
    ensures again ==>
              && failed.error.Backend? && old(controls.retriesLeft) == controls.retriesLeft + 1
              && log.offered == old(log.offered) + Announced(early) && (early ==> r == Err(SftpError.Cancelled))
    ensures old(controls.cancelled) || failed.error == SftpError.Cancelled ==> !again && r == Err(SftpError.Cancelled)
    ensures old(controls.cancelled) ==> controls.cancelled
    ensures !again ==> store.files == old(store.files)
  {
    ghost var wasStopped := Stopped(controls, log);
    early := false;
    if * { controls.cancelled := true; }
    TriedStill(request, source, before, store.files, failed, drawn, wasStopped, Stopped(controls, log), began,
               clock.now);
    if failed.error == SftpError.Cancelled || controls.cancelled { return false, Err(SftpError.Cancelled), early; }
    if !failed.error.IsRetryable() || controls.retriesLeft == 0 { return false, failed, early; }
    again := true;
    ghost var soFar, mid, stopped := store.files, clock.now, Stopped(controls, log);
    r, early := Retry(request, source, clock, store, windows, controls, log, chunk);
    TriedAgain(request, source, before, soFar, store.files, failed, r, drawn, clock.faults > old(clock.faults),
               stopped, Stopped(controls, log), began, mid, clock.now);
  }

  // The bounded retry loop. `outcomes` lists what each attempt returned.
  method AttemptUntilDone(request: Request, source: Source, clock: Clock, store: FileStore, windows: bool,
                          controls: TransferControls, log: EventLog, chunk: nat)
    returns (r: Result<()>, ghost outcomes: seq<Result<()>>, ghost early: bool)
    requires chunk > 0 && source.Sized()
    requires controls.running
    modifies clock, store, controls, log
    ensures old(clock.now) <= clock.now && old(clock.faults) <= clock.faults
    ensures Bounded(outcomes, r, controls.cancelled, old(controls.retriesLeft), controls.retriesLeft)
    ensures early ==> r == Err(SftpError.Cancelled)
    ensures log.offered == old(log.offered) + Attempted(|outcomes|, early)
    ensures Tried(request, source, old(store.files), store.files, r, clock.faults > old(clock.faults),
                  Stopped(controls, log),
                  old(clock.now), clock.now)
    ensures old(controls.cancelled) ==>
            r == Err(SftpError.Cancelled) && |outcomes| == 1 && store.files == old(store.files)
  {
    r := AttemptTransfer(request, source, clock, store, windows, controls, log, chunk);
    outcomes := [r];
    early := log.offered == old(log.offered);
    var again := true;
    while r.Err? && again
      invariant again ==> outcomes != [] && outcomes[|outcomes| - 1] == r
      invariant again ==> controls.retriesLeft + |outcomes| == old(controls.retriesLeft) + 1
      invariant again ==> AllButLastBackend(outcomes)
      invariant !again ==> Bounded(outcomes, r, controls.cancelled, old(controls.retriesLeft), controls.retriesLeft)
      invariant outcomes != [] && log.offered == old(log.offered) + Attempted(|outcomes|, early)
      invariant early ==> r == Err(SftpError.Cancelled)
      invariant old(clock.now) <= clock.now && old(clock.faults) <= clock.faults
      invariant Tried(request, source, old(store.files), store.files, r, clock.faults > old(clock.faults),
                      Stopped(controls, log), old(clock.now), clock.now)
      invariant old(controls.cancelled) ==>
                r == Err(SftpError.Cancelled) && |outcomes| == 1 && store.files == old(store.files)
      invariant old(controls.cancelled) ==> controls.cancelled
      decreases again, controls.retriesLeft
    {
      ghost var earlyNow;
      again, r, earlyNow := AttemptAgain(request, source, clock, store, windows, controls, log, chunk, r,
                                         old(store.files), old(clock.now), clock.faults > old(clock.faults));
      if again {
        AnotherAttempt(old(log.offered), |outcomes|, earlyNow);
        OneMoreBackend(outcomes, r);
        outcomes, early := outcomes + [r], earlyNow;
      }
    }
  }

  // A worker's whole run.
  method RunTransfer(request: Request, source: Source, clock: Clock, store: FileStore, windows: bool,
                     controls: TransferControls, log: EventLog, chunk: nat)
    returns (r: Result<()>, ghost outcomes: seq<Result<()>>, ghost events: seq<Event>)
    requires chunk > 0 && source.Sized()
    modifies clock, store, controls, log
    ensures !controls.running
    ensures Bounded(outcomes, r, controls.cancelled, old(controls.retriesLeft), controls.retriesLeft)
    ensures log.offered == old(log.offered) + events && Announces(events, |outcomes|, r)
    // Every error says what went wrong; with a sound source, no failed access and no stop
    // asked for, the transfer succeeds.
    ensures Explained(source, request.direction, r, clock.faults > old(clock.faults), Stopped(controls, log),
                      old(clock.now), clock.now)
    ensures (&& Sound(source, request.direction, old(clock.now), clock.now) && clock.faults == old(clock.faults)
             && !controls.cancelled && log.pumpAlive) ==> r.Ok?
    // The destination holds a whole version of the source, or what it held before.
    ensures Leaves(request, source, old(store.files), store.files, r, old(clock.now), clock.now)
    // A transfer cancelled before it starts does nothing.
    ensures old(controls.cancelled) ==>
            r == Err(SftpError.Cancelled) && |outcomes| == 1 && store.files == old(store.files)
  {
    controls.running := true;
    ghost var early;
    r, outcomes, early := AttemptUntilDone(request, source, clock, store, windows, controls, log, chunk);
    Finish(controls, log, r);
    events := Attempted(|outcomes|, early) + Terminal(r);
    assert log.offered == old(log.offered) + events;
    EndsAnnounced(|outcomes|, early, r);
    if Sound(source, request.direction, old(clock.now), clock.now) {
      NoExcuseMeansOk(source, request.direction, r, clock.faults > old(clock.faults), Stopped(controls, log),
                      old(clock.now), clock.now);
    }
  }
}
