// What one upload does to the files: it fills the `.part` of its destination and renames it.
// `Transfer` shows that an upload does nothing else, `Publication` what follows when many do.

module UploadSteps {
  import opened Options
  import opened Files

  // `version` is the source as the attempt first saw it; `changed` says the source has been
  // rewritten since, after which the attempt may read anything.
  datatype Progress = Progress(version: Bytes, written: nat, changed: bool)

  datatype Local = Local(files: map<Path, Bytes>, progress: Option<Progress>)

  datatype Call =
    | Begin(version: Bytes, keep: bool, changed: bool)
    | SourceRewritten
    | Append(data: Bytes)
    | Rename
    | Abandon

  predicate CanCall(l: Local, to: Path, call: Call) {
    var part := PartPath(to);
    match call
    // A leftover is kept only after its bytes were compared with the source.
    case Begin(version, keep, changed) =>
      l.progress.None? && (keep ==> part in l.files && (changed || l.files[part] <= version))
    case SourceRewritten => l.progress.Some?
    case Append(data) =>
      && l.progress.Some? && part in l.files && l.progress.value.written <= |l.files[part]|
      && (l.progress.value.changed || Continues(l.progress.value, data))
    // The checks before the rename: byte count and identity.
    case Rename =>
      && l.progress.Some? && part in l.files
      && !l.progress.value.changed && l.progress.value.written == |l.progress.value.version|
    case Abandon => l.progress.Some?
  }

  predicate Continues(progress: Progress, data: Bytes) {
    progress.written <= |progress.version| && data <= progress.version[progress.written..]
  }

  function Call1(l: Local, to: Path, call: Call): Local {
    var part := PartPath(to);
    if !CanCall(l, to, call) then l else
    match call
    case Begin(version, keep, changed) =>
      var kept := if keep then l.files[part] else [];
      Local(l.files[part := kept], Some(Progress(version, |kept|, changed)))
    case SourceRewritten => l.(progress := Some(l.progress.value.(changed := true)))
    case Append(data) =>
      var progress := l.progress.value;
      Local(l.files[part := Overwrite(l.files[part], progress.written, data)],
            Some(progress.(written := progress.written + |data|)))
    case Rename => Local(Moved(l.files, part, to), None)
    case Abandon => l.(progress := None)
  }

  function Calls(l: Local, to: Path, calls: seq<Call>): Local {
    if calls == [] then l else Call1(Calls(l, to, calls[..|calls| - 1]), to, calls[|calls| - 1])
  }

  lemma OneMore(l: Local, to: Path, calls: seq<Call>, call: Call)
    ensures Calls(l, to, calls + [call]) == Call1(Calls(l, to, calls), to, call)
  {
    assert (calls + [call])[..|calls|] == calls;
  }

  lemma {:induction false} CallsChain(l: Local, to: Path, first: seq<Call>, second: seq<Call>)
    ensures Calls(l, to, first + second) == Calls(Calls(l, to, first), to, second)
    decreases |second|
  {
    if second == [] {
      assert first + second == first;
    } else {
      var n := |second| - 1;
      CallsChain(l, to, first, second[..n]);
      assert first + second == first + second[..n] + [second[n]];
      OneMore(l, to, first + second[..n], second[n]);
    }
  }

  // Every attempt is at this version.
  ghost predicate AttemptsAt(calls: seq<Call>, version: Bytes) {
    forall i | 0 <= i < |calls| && calls[i].Begin? :: calls[i].version == version
  }

  // One more chunk: the source is noted as rewritten first if it has been.
  function ChunkCalls(changed: bool, data: Bytes): seq<Call> {
    (if changed then [SourceRewritten] else []) + [Append(data)]
  }

  lemma ChunkStep(l: Local, to: Path, calls: seq<Call>, files: map<Path, Bytes>, progress: Progress, changed: bool,
                  data: Bytes)
    requires Calls(l, to, calls) == Local(files, Some(progress))
    requires PartPath(to) in files && progress.written == |files[PartPath(to)]|
    requires progress.changed || changed || Continues(progress, data)
    ensures Calls(l, to, calls + ChunkCalls(changed, data))
         == Local(files[PartPath(to) := Overwrite(files[PartPath(to)], progress.written, data)],
                  Some(Progress(progress.version, progress.written + |data|, progress.changed || changed)))
  {
    if changed {
      OneMore(l, to, calls, SourceRewritten);
      OneMore(l, to, calls + [SourceRewritten], Append(data));
      assert calls + ChunkCalls(changed, data) == calls + [SourceRewritten] + [Append(data)];
    } else {
      OneMore(l, to, calls, Append(data));
      assert calls + ChunkCalls(changed, data) == calls + [Append(data)];
    }
  }
}
