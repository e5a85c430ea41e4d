// Files on both sides of a transfer.
//
// A `Source` is what somebody else may rewrite while a transfer reads it: a name
// bound to files over time, and the contents of each file over time.
// A `FileStore` is where the transfer writes; its lease keeps other workers out.

module Files {
  import opened Options

  type Byte = b: int | 0 <= b < 256
  type Bytes = seq<Byte>
  type Path = string

  // File sizes and offsets are 64-bit.
  const MAX_LEN := 0xFFFF_FFFF_FFFF_FFFF

  datatype SftpError =
    | EmptyLocalPath
    | InvalidRemotePath
    | Cancelled
    | DiskFull
    | SourceNotFound
    | DestinationBusy
    | SourceChanged
    | UnknownTransfer
    | Backend(message: string)
  {
    predicate IsRetryable() { Backend? }
  }

  datatype Result<+T> = Ok(value: T) | Err(error: SftpError)

  predicate Mentions(message: string, words: string) {
    words <= message || (message != "" && Mentions(message[1..], words))
  }

  // Semantic failures are not retried, so a full disk must not look like a
  // backend failure.
  function MapDiskError(error: SftpError): SftpError {
    if error.Backend? && Mentions(error.message, "No space left") then DiskFull else error
  }

  // Exactly the backend failures that say so become a full disk; nothing else changes.
  lemma MapDiskErrorIs(error: SftpError)
    ensures MapDiskError(error) == DiskFull <==>
            || error == DiskFull
            || (error.Backend? && exists i: nat :: OccursAt(error.message, "No space left", i))
    ensures MapDiskError(error) == error || (error.Backend? && MapDiskError(error) == DiskFull)
  {
    if error.Backend? { MentionsIs(error.message, "No space left"); }
  }

  ghost predicate OccursAt(message: string, words: string, i: nat) {
    i + |words| <= |message| && message[i..i + |words|] == words
  }

  lemma {:induction false} MentionsIs(message: string, words: string)
    ensures Mentions(message, words) <==> exists i: nat :: OccursAt(message, words, i)
  {
    if Mentions(message, words) {
      var i := MentionedAt(message, words);
    }
    if i: nat :| OccursAt(message, words, i) {
      OccurrenceIsMentioned(message, words, i);
    }
  }

  lemma {:induction false} MentionedAt(message: string, words: string) returns (i: nat)
    requires Mentions(message, words)
    ensures OccursAt(message, words, i)
  {
    i := 0;
    if !(words <= message) {
      var j := MentionedAt(message[1..], words);
      assert message[1..][j..j + |words|] == message[j + 1..j + 1 + |words|];
      i := j + 1;
    }
  }

  lemma {:induction false} OccurrenceIsMentioned(message: string, words: string, i: nat)
    requires OccursAt(message, words, i)
    ensures Mentions(message, words)
    decreases i
  {
    if i > 0 && !(words <= message) {
      assert message[1..][i - 1..i - 1 + |words|] == message[i..i + |words|];
      OccurrenceIsMentioned(message[1..], words, i - 1);
    }
  }

  function PartPath(path: Path): Path { path + ".part" }

  lemma PartPathInjective(p: Path, q: Path)
    ensures PartPath(p) == PartPath(q) <==> p == q
    ensures PartPath(p) != p
  {
    assert |PartPath(p)| == |p| + 5;
    if PartPath(p) == PartPath(q) {
      assert p == PartPath(p)[..|PartPath(p)| - 5] == PartPath(q)[..|PartPath(q)| - 5] == q;
    }
  }

  // ---------------------------------------------------------------- sources

  datatype Version = Version(bytes: Bytes, stamp: Option<nat>, isDir: bool)

  // What a transfer compares of a version without reading it.
  datatype Identity = Identity(len: nat, stamp: Option<nat>)

  function IdentityOf(v: Version): Identity { Identity(|v.bytes|, v.stamp) }

  // `nameAt(t)` is the file the path names at instant t; `content(file, t)` what
  // that file holds then. An open handle keeps reading the file it opened.
  datatype Source = Source(nameAt: nat -> Option<nat>, content: (nat, nat) -> Version)
  {
    function At(t: nat): Option<Version> {
      match nameAt(t)
      case None => None
      case Some(file) => Some(content(file, t))
    }

    ghost predicate Sized() {
      forall file: nat, t: nat :: |content(file, t).bytes| <= MAX_LEN
    }

    ghost predicate FileStable(file: nat, from: nat, to: nat) {
      forall t | from <= t <= to :: content(file, t) == content(file, from)
    }

    ghost predicate NameStable(from: nat, to: nat) {
      forall t | from <= t <= to :: nameAt(t) == nameAt(from) && At(t) == At(from)
    }

    // At some instant of the window the path named nothing.
    ghost predicate Lost(from: nat, to: nat) {
      exists t: nat | from <= t <= to :: nameAt(t).None?
    }

    // At some instant of the window it named a directory.
    ghost predicate SeenAsDir(from: nat, to: nat) {
      exists t: nat | from <= t <= to :: At(t).Some? && At(t).value.isDir
    }

    // There all the time, and never touched.
    ghost predicate Undisturbed(from: nat, to: nat) {
      At(from).Some? && NameStable(from, to)
    }

    // The hypothesis of both integrity theorems: every rewrite or replacement
    // shows in the identity, so two equal readings mean nothing happened between.
    ghost predicate Fresh() {
      && (forall file: nat, i: nat, j: nat | i <= j && IdentityOf(content(file, i)) == IdentityOf(content(file, j)) ::
            FileStable(file, i, j))
      && (forall i: nat, j: nat | i <= j && nameAt(i).Some? && nameAt(j).Some?
                               && IdentityOf(At(i).value) == IdentityOf(At(j).value) :: NameStable(i, j))
    }

    // In-place rewrites and removal only: the path never comes to name another file.
    ghost predicate Pinned(file: nat) {
      forall t: nat :: nameAt(t).Some? ==> nameAt(t).value == file
    }

    // `bytes` is the whole of a file the path named in the window, as it was in the window.
    ghost predicate Complete(bytes: Bytes, from: nat, to: nat) {
      exists file: nat, named: nat, t: nat | from <= named <= t <= to ::
        nameAt(named) == Some(file) && content(file, t).bytes == bytes
    }
  }

  // A name that stays put keeps the file it names as it is.
  lemma NamedFileStable(source: Source, from: nat, mid: nat, to: nat)
    requires from <= mid <= to && source.NameStable(from, to) && source.At(from).Some?
    ensures source.nameAt(mid) == source.nameAt(from)
    ensures source.FileStable(source.nameAt(from).value, mid, to)
    ensures source.content(source.nameAt(from).value, mid) == source.At(from).value
  {
    forall t | from <= t <= to
      ensures source.content(source.nameAt(from).value, t) == source.At(from).value
    {
      assert source.nameAt(t) == source.nameAt(from) && source.At(t) == source.At(from);
    }
  }

  // Instants pass between any two operations, and any of them may fail. `faults` counts the
  // failures there have been.
  class Clock {
    var now: nat
    ghost var faults: nat

    constructor ()
      ensures now == 0 && faults == 0
    {
      now, faults := 0, 0;
    }

    // Whether the next access to a file fails: the only place a failure comes from.
    method Fails() returns (fails: bool)
      modifies this`faults
      ensures faults == old(faults) + (if fails then 1 else 0)
    {
      fails := false;
      if * {
        fails := true;
        faults := faults + 1;
      }
    }

    method Pass()
      modifies this`now
      ensures old(now) <= now
    {
      var ticks: int := *;
      if ticks > 0 { now := now + ticks; }
    }
  }

  // One read of an open handle. It may be cut short, and is empty only at the end.
  method ReadHandle(source: Source, file: nat, clock: Clock, offset: nat, wanted: nat)
    returns (data: Bytes, ghost short: bool)
    modifies clock`now
    ensures old(clock.now) <= clock.now
    ensures |data| <= wanted
    ensures var bytes := source.content(file, clock.now).bytes;
            if offset <= |bytes| then
              && offset + |data| <= |bytes|
              && data == bytes[offset..offset + |data|]
              && (wanted > 0 && offset < |bytes| ==> data != [])
              && (!short ==> |data| == wanted || offset + |data| == |bytes|)
            else data == []
  {
    clock.Pass();
    short := false;
    var bytes := source.content(file, clock.now).bytes;
    if offset >= |bytes| || wanted == 0 { return [], short; }
    var most := if wanted <= |bytes| - offset then wanted else |bytes| - offset;
    var n: int := *;
    if n <= 0 || n > most { n := most; }
    short := n < most;
    return bytes[offset..offset + n], short;
  }

  // ---------------------------------------------------------------- stores

  // Writing over a file replaces bytes from `offset` on and keeps any longer tail.
  function Overwrite(bytes: Bytes, offset: nat, data: Bytes): Bytes
    requires offset <= |bytes|
  {
    bytes[..offset] + data + (if offset + |data| <= |bytes| then bytes[offset + |data|..] else [])
  }

  function Moved(files: map<Path, Bytes>, from: Path, to: Path): map<Path, Bytes>
    requires from in files
  {
    (files - {from})[to := files[from]]
  }

  ghost predicate SameAt(before: map<Path, Bytes>, after: map<Path, Bytes>, path: Path) {
    (path in before <==> path in after) && (path in before ==> before[path] == after[path])
  }

  // At most `p` and `q` differ.
  ghost predicate SameElsewhere(before: map<Path, Bytes>, after: map<Path, Bytes>, p: Path, q: Path) {
    forall path :: path != p && path != q ==> SameAt(before, after, path)
  }

  ghost function LongerThanAll(paths: set<Path>): (n: nat)
    ensures forall path | path in paths :: |path| < n
  {
    if paths == {} then 0
    else
      var path :| path in paths;
      var n := LongerThanAll(paths - {path});
      if n <= |path| then |path| + 1 else n
  }

  // There is always a name no file has yet.
  lemma UnusedPath(paths: set<Path>)
    ensures exists path: Path :: path !in paths
  {
    var path := seq(LongerThanAll(paths), _ => 'a');
    assert path !in paths;
  }

  lemma SameElsewhereChains(a: map<Path, Bytes>, b: map<Path, Bytes>, c: map<Path, Bytes>, p: Path, q: Path)
    requires SameElsewhere(a, b, p, q) && SameElsewhere(b, c, p, q)
    ensures SameElsewhere(a, c, p, q)
  {
    forall path | path != p && path != q ensures SameAt(a, c, path) {
      assert SameAt(a, b, path) && SameAt(b, c, path);
    }
  }

  class FileStore {
    var files: map<Path, Bytes>

    constructor (files: map<Path, Bytes>)
      ensures this.files == files
    {
      this.files := files;
    }

    // Creates the file if needed and empties it when `truncate`. A failed call
    // may or may not have taken effect.
    method OpenWrite(clock: Clock, path: Path, truncate: bool) returns (r: Result<()>)
      modifies this, clock`faults
      ensures old(clock.faults) <= clock.faults
      ensures r.Err? <==> clock.faults > old(clock.faults)
      ensures r.Err? ==> r.error.Backend?
      ensures var ready := old(files)[path := if truncate || path !in old(files) then [] else old(files)[path]];
              files == ready || (r.Err? && files == old(files))
    {
      var fails := clock.Fails();
      if fails { return Err(Backend("open")); }
      files := files[path := if truncate || path !in files then [] else files[path]];
      fails := clock.Fails();
      if fails { return Err(Backend("open")); }
      return Ok(());
    }

    // A failed write may leave any prefix of `data` behind.
    method Write(clock: Clock, path: Path, offset: nat, data: Bytes) returns (r: Result<()>, ghost written: nat)
      requires path in files && offset <= |files[path]|
      modifies this, clock`faults
      ensures old(clock.faults) <= clock.faults
      ensures r.Err? <==> clock.faults > old(clock.faults)
      ensures r.Err? ==> r.error.Backend?
      ensures r.Ok? ==> written == |data|
      ensures written <= |data| && files == old(files)[path := Overwrite(old(files)[path], offset, data[..written])]
    {
      var fails := clock.Fails();
      if fails {
        var n: int := *;
        if n < 0 || n > |data| { n := |data|; }
        written := n;
        files := files[path := Overwrite(files[path], offset, data[..n])];
        var message: string := *;
        return Err(Backend(message)), written;
      }
      written := |data|;
      assert data[..written] == data;
      files := files[path := Overwrite(files[path], offset, data)];
      return Ok(()), written;
    }

    // The rename is atomic: it happens whole or not at all. A remote reply can be
    // lost after it happened, so a failure does not say which.
    method Rename(clock: Clock, from: Path, to: Path) returns (r: Result<()>)
      requires from in files && from != to
      modifies this, clock`faults
      ensures old(clock.faults) <= clock.faults
      ensures r.Err? <==> clock.faults > old(clock.faults)
      ensures r.Err? ==> r.error.Backend?
      ensures files == Moved(old(files), from, to) || (r.Err? && files == old(files))
    {
      var fails := clock.Fails();
      if fails {
        var message: string := *;
        return Err(Backend(message));
      }
      files := Moved(files, from, to);
      fails := clock.Fails();
      if fails { return Err(Backend("reply lost")); }
      return Ok(());
    }

    // A local rename reports its effect truthfully.
    method RenameLocal(clock: Clock, from: Path, to: Path) returns (ok: bool)
      requires from in files && from != to
      modifies this, clock`faults
      ensures clock.faults == old(clock.faults) + (if ok then 0 else 1)
      ensures files == if ok then Moved(old(files), from, to) else old(files)
    {
      var fails := clock.Fails();
      if fails { return false; }
      files := Moved(files, from, to);
      return true;
    }

    // Best-effort removal.
    method RemoveLocal(clock: Clock, path: Path)
      modifies this, clock`faults
      ensures old(clock.faults) <= clock.faults <= old(clock.faults) + 1
      ensures files == if clock.faults == old(clock.faults) then old(files) - {path} else old(files)
    {
      var fails := clock.Fails();
      if !fails { files := files - {path}; }
    }
  }
}
