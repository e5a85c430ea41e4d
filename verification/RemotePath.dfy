// Lease keys: two spellings of one remote destination must share a lease.

module RemotePath {
  // The non-empty pieces between slashes.
  function Components(path: string): (parts: seq<string>)
    ensures forall part | part in parts :: part != "" && '/' !in part
    decreases |path|
  {
    if path == "" then []
    else if path[0] == '/' then Components(path[1..])
    else
      var n := FirstSlash(path);
      [path[..n]] + Components(path[n..])
  }

  function FirstSlash(path: string): (n: nat)
    ensures n <= |path| && '/' !in path[..n] && (n < |path| ==> path[n] == '/')
    ensures path != "" && path[0] != '/' ==> n > 0
  {
    if path == "" || path[0] == '/' then 0 else 1 + FirstSlash(path[1..])
  }

  function Join(parts: seq<string>): string {
    if parts == [] then ""
    else if |parts| == 1 then parts[0]
    else parts[0] + "/" + Join(parts[1..])
  }

  predicate Absolute(path: string) { path != "" && path[0] == '/' }

  // What a lease key ought to be: one slash between components, none at the end.
  function Canonical(path: string): string {
    (if Absolute(path) then "/" else "") + Join(Components(path))
  }

  predicate HasDoubleSlash(path: string) {
    |path| >= 2 && ((path[0] == '/' && path[1] == '/') || HasDoubleSlash(path[1..]))
  }

  // `replace("//", "/")`: left to right, without overlap.
  function Replace(path: string): (r: string)
    ensures |r| <= |path|
    ensures HasDoubleSlash(path) ==> |r| < |path|
  {
    if |path| < 2 then path
    else if path[0] == '/' && path[1] == '/' then "/" + Replace(path[2..])
    else [path[0]] + Replace(path[1..])
  }

  lemma {:induction false} ComponentsSkipWord(word: string, rest: string)
    requires '/' !in word && word != "" && (rest == "" || rest[0] == '/')
    ensures Components(word + rest) == [word] + Components(rest)
  {
    FirstSlashAt(word, rest);
    assert (word + rest)[..|word|] == word && (word + rest)[|word|..] == rest;
  }

  lemma {:induction false} FirstSlashAt(word: string, rest: string)
    requires '/' !in word && (rest == "" || rest[0] == '/')
    ensures FirstSlash(word + rest) == |word|
  {
    if word != "" {
      assert (word + rest)[1..] == word[1..] + rest;
      FirstSlashAt(word[1..], rest);
    } else {
      assert word + rest == rest;
    }
  }

  // Splitting off one character: a component grows only by a non-slash.
  lemma {:induction false} ComponentsCons(c: char, path: string)
    ensures c == '/' ==> Components([c] + path) == Components(path)
    ensures c != '/' && (path == "" || path[0] == '/') ==> Components([c] + path) == [[c]] + Components(path)
    ensures c != '/' && path != "" && path[0] != '/' ==>
              Components(path) != [] &&
              Components([c] + path) == [[c] + Components(path)[0]] + Components(path)[1..]
  {
    assert ([c] + path)[1..] == path;
    if c != '/' {
      if path == "" || path[0] == '/' {
        ComponentsSkipWord([c], path);
      } else {
        var n := FirstSlash(path);
        assert [c] + path == ([c] + path[..n]) + path[n..];
        ComponentsSkipWord([c] + path[..n], path[n..]);
      }
    }
  }

  lemma {:induction false} ReplaceKeeps(path: string)
    ensures Components(Replace(path)) == Components(path)
    ensures Absolute(Replace(path)) == Absolute(path)
    decreases |path|
  {
    if |path| < 2 {
    } else if path[0] == '/' && path[1] == '/' {
      ReplaceKeeps(path[2..]);
      ComponentsCons('/', Replace(path[2..]));
      assert path[1..][1..] == path[2..];
    } else {
      ReplaceKeeps(path[1..]);
      assert path == [path[0]] + path[1..];
      ComponentsCons(path[0], path[1..]);
      ComponentsCons(path[0], Replace(path[1..]));
    }
  }

  // A trailing slash carries no component.
  lemma {:induction false} ComponentsSnoc(path: string)
    ensures Components(path + "/") == Components(path)
    decreases |path|
  {
    if path == "" {
      assert path + "/" == "/";
    } else {
      ComponentsSnoc(path[1..]);
      assert path + "/" == [path[0]] + (path[1..] + "/");
      assert path == [path[0]] + path[1..];
      ComponentsCons(path[0], path[1..] + "/");
      ComponentsCons(path[0], path[1..]);
    }
  }

  lemma JoinPrepend(part: string, parts: seq<string>)
    requires parts != []
    ensures Join([part] + parts) == part + "/" + Join(parts)
  {
    assert ([part] + parts)[1..] == parts;
  }

  lemma JoinExtend(c: char, part: string, parts: seq<string>)
    ensures Join([[c] + part] + parts) == [c] + Join([part] + parts)
  {
    if parts != [] {
      JoinPrepend([c] + part, parts);
      JoinPrepend(part, parts);
      assert [c] + part + "/" + Join(parts) == [c] + (part + "/" + Join(parts));
    }
  }

  lemma JoinCons(c: char, parts: seq<string>)
    requires parts != []
    ensures Join([[c]] + parts) == [c] + "/" + Join(parts)
    ensures Join([[c] + parts[0]] + parts[1..]) == [c] + Join(parts)
  {
    JoinPrepend([c], parts);
    JoinExtend(c, parts[0], parts[1..]);
    assert [parts[0]] + parts[1..] == parts;
  }

  // Without double slashes and without a trailing slash a path is its canonical form.
  lemma {:induction false} CollapsedIsCanonical(path: string)
    requires !HasDoubleSlash(path)
    requires |path| <= 1 || path[|path| - 1] != '/'
    ensures path == Canonical(path)
    decreases |path|, 1
  {
    if |path| == 1 {
      ComponentsCons(path[0], "");
      assert path == [path[0]] + "";
    } else if |path| > 1 {
      CollapsedIsCanonicalCons(path[0], path[1..]);
      assert path == [path[0]] + path[1..];
    }
  }

  lemma {:induction false} CollapsedIsCanonicalCons(c: char, rest: string)
    requires rest != "" && !HasDoubleSlash([c] + rest) && rest[|rest| - 1] != '/'
    ensures [c] + rest == Canonical([c] + rest)
    decreases |rest| + 1, 0
  {
    ComponentsCons(c, rest);
    assert ([c] + rest)[1..] == rest;
    var parts := Components(rest);
    CollapsedIsCanonical(rest);
    assert parts == [] ==> Join(parts) == "";
    JoinCons(c, parts);
    if c != '/' && rest[0] == '/' {
      assert rest == "/" + Join(parts);
      assert [c] + rest == [c] + "/" + Join(parts);
    } else {
      assert rest == Join(parts) by { assert c == '/' ==> rest[0] != '/'; assert "" + Join(parts) == Join(parts); }
      assert "" + ([c] + Join(parts)) == [c] + Join(parts);
    }
  }

  // The two loops of `normalize_remote_path`, and what they compute.
  method Normalize(path: string) returns (normalized: string)
    ensures normalized == Canonical(path)
  {
    normalized := path;
    while HasDoubleSlash(normalized)
      invariant Components(normalized) == Components(path) && Absolute(normalized) == Absolute(path)
      decreases |normalized|
    {
      ReplaceKeeps(normalized);
      normalized := Replace(normalized);
    }
    while |normalized| > 1 && normalized[|normalized| - 1] == '/'
      invariant Components(normalized) == Components(path) && Absolute(normalized) == Absolute(path)
      invariant !HasDoubleSlash(normalized)
      decreases |normalized|
    {
      var shorter := normalized[..|normalized| - 1];
      assert normalized == shorter + "/";
      ComponentsSnoc(shorter);
      NoDoubleSlashInPrefix(shorter, "/");
      normalized := shorter;
    }
    CollapsedIsCanonical(normalized);
  }

  lemma {:induction false} NoDoubleSlashInPrefix(prefix: string, rest: string)
    requires !HasDoubleSlash(prefix + rest)
    ensures !HasDoubleSlash(prefix)
    decreases |prefix|
  {
    if |prefix| >= 2 {
      assert (prefix + rest)[1..] == prefix[1..] + rest;
      NoDoubleSlashInPrefix(prefix[1..], rest);
    }
  }

  // Components come back out of a joined list.
  lemma {:induction false} ComponentsOfJoin(parts: seq<string>)
    requires forall part | part in parts :: part != "" && '/' !in part
    ensures Components(Join(parts)) == parts
    ensures !Absolute(Join(parts))
  {
    if |parts| == 1 {
      ComponentsSkipWord(parts[0], "");
      assert parts[0] + "" == parts[0];
    } else if |parts| > 1 {
      assert forall part | part in parts[1..] :: part in parts;
      ComponentsOfJoin(parts[1..]);
      var rest := "/" + Join(parts[1..]);
      assert Join(parts) == parts[0] + rest;
      ComponentsSkipWord(parts[0], rest);
      ComponentsCons('/', Join(parts[1..]));
    }
  }

  lemma {:induction false} ComponentsOfCanonical(path: string)
    ensures Components(Canonical(path)) == Components(path)
    ensures Absolute(Canonical(path)) == Absolute(path)
  {
    ComponentsOfJoin(Components(path));
    ComponentsCons('/', Join(Components(path)));
    assert "" + Join(Components(path)) == Join(Components(path));
  }

  lemma CanonicalIsIdempotent(path: string)
    ensures Canonical(Canonical(path)) == Canonical(path)
  {
    ComponentsOfCanonical(path);
  }

  // The lease key identifies exactly the component list.
  lemma SameKeyIffSameComponents(p: string, q: string)
    requires Absolute(p) && Absolute(q)
    ensures Canonical(p) == Canonical(q) <==> Components(p) == Components(q)
  {
    ComponentsOfCanonical(p);
    ComponentsOfCanonical(q);
  }

  // `~` and `~/...` stand for the remote home directory.
  function TrimEnd(path: string): string {
    if path != "" && path[|path| - 1] == '/' then TrimEnd(path[..|path| - 1]) else path
  }

  function Resolve(home: string, path: string): string {
    if path == "~" then home
    else if |path| >= 2 && path[..2] == "~/" then
      if path[2..] == "" then home else TrimEnd(home) + "/" + path[2..]
    else path
  }

  // Exactly the trailing slashes go.
  lemma {:induction false} TrimEndIs(path: string)
    ensures TrimEnd(path) <= path && (TrimEnd(path) == "" || TrimEnd(path)[|TrimEnd(path)| - 1] != '/')
    ensures forall k | |TrimEnd(path)| <= k < |path| :: path[k] == '/'
    decreases |path|
  {
    if path != "" && path[|path| - 1] == '/' { TrimEndIs(path[..|path| - 1]); }
  }

  // What the alias stands for, to the letter: one slash between home and the rest.
  lemma ResolveIs(home: string, relative: string)
    ensures Resolve(home, "~") == Resolve(home, "~/") == home
    ensures relative != "" ==> Resolve(home, "~/" + relative) == TrimEnd(home) + "/" + relative
    ensures !("~/" <= relative) && relative != "~" ==> Resolve(home, relative) == relative
  {
    assert ("~/" + relative)[..2] == "~/" && ("~/" + relative)[2..] == relative;
  }

  lemma {:induction false} ComponentsOfJoinedPaths(p: string, q: string)
    ensures Components(p + "/" + q) == Components(p) + Components(q)
    decreases |p|
  {
    if p == "" {
      assert p + "/" + q == "/" + q;
      ComponentsCons('/', q);
      assert Components("/" + q) == Components(q);
    } else {
      var c, tail := p[0], p[1..];
      ComponentsOfJoinedPaths(tail, q);
      assert p + "/" + q == [c] + (tail + "/" + q);
      assert p == [c] + tail;
      ComponentsCons(c, tail + "/" + q);
      ComponentsCons(c, tail);
      if c != '/' && tail != "" && tail[0] != '/' {
        ConsThenAppend([c], Components(tail), Components(q));
      } else {
        assert [[c]] + Components(tail) + Components(q) == [[c]] + (Components(tail) + Components(q));
      }
    }
  }

  lemma ConsThenAppend(c: string, xs: seq<string>, ys: seq<string>)
    requires xs != []
    ensures [c + (xs + ys)[0]] + (xs + ys)[1..] == [c + xs[0]] + xs[1..] + ys
  {
  }

  lemma {:induction false} ComponentsOfTrimmed(path: string)
    ensures Components(TrimEnd(path)) == Components(path)
    decreases |path|
  {
    if path != "" && path[|path| - 1] == '/' {
      var shorter := path[..|path| - 1];
      assert path == shorter + "/";
      ComponentsSnoc(shorter);
      ComponentsOfTrimmed(shorter);
    }
  }

  // A destination below `~` shares its lease with the same destination written out.
  lemma HomeAliasSharesKey(home: string, relative: string)
    requires Absolute(home)
    ensures Canonical(Resolve(home, "~/" + relative)) == Canonical(home + "/" + relative)
    ensures Canonical(Resolve(home, "~")) == Canonical(home)
  {
    assert ("~/" + relative)[..2] == "~/" && ("~/" + relative)[2..] == relative;
    ComponentsOfJoinedPaths(home, relative);
    ComponentsOfJoinedPaths(TrimEnd(home), relative);
    ComponentsOfTrimmed(home);
    TrimmedStart(home);
    assert Absolute(TrimEnd(home) + "/" + relative) && Absolute(home + "/" + relative);
    assert Components(home) + [] == Components(home);
  }

  lemma {:induction false} TrimmedStart(path: string)
    requires Absolute(path)
    ensures TrimEnd(path) == "" || Absolute(TrimEnd(path))
    decreases |path|
  {
    if |path| > 1 && path[|path| - 1] == '/' {
      TrimmedStart(path[..|path| - 1]);
    }
  }
}
