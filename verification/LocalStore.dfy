/** The local object store: a file tree whose directories come and go with the
    files, behaving like a flat map from normalised paths to bytes. */
module LocalStore {
  import opened Common
  import opened RangedStream

  /** A path below the base directory, component by component. */
  type Path = seq<string>

  type FlatMap = map<Path, Bytes>

  // ----- Names -----

  function LStrip(s: string): string {
    if s != "" && s[0] == '/' then LStrip(s[1..]) else s
  }

  /** The parts between slashes; empty ones and single dots do not count. */
  function Components(s: string, open: string): Path {
    if s == "" then Component(open)
    else if s[0] == '/' then Component(open) + Components(s[1..], "")
    else Components(s[1..], open + [s[0]])
  }

  function Component(c: string): Path {
    if c == "" || c == "." then [] else [c]
  }

  /** The path an object name stands for; none for an empty name or one with "..". */
  function Resolve(name: string): Option<Path> {
    var path := Components(LStrip(name), "");
    if path == [] || ".." in path then None else Some(path)
  }

  function JoinPath(path: Path): string {
    if path == [] then "" else if |path| == 1 then path[0] else path[0] + "/" + JoinPath(path[1..])
  }

  function Slashes(s: string): string {
    if s == "" then "" else [if s[0] == '\\' then '/' else s[0]] + Slashes(s[1..])
  }

  function Normalize(prefix: string): string {
    Slashes(LStrip(prefix))
  }

  /** The name under which a stored path is listed and matched. */
  function Listed(path: Path): string {
    Slashes(JoinPath(path))
  }

  predicate Matches(path: Path, prefix: string) {
    Normalize(prefix) <= Listed(path)
  }

  /** A path that resolving can produce. */
  predicate Proper(path: Path) {
    path != [] && forall c <- path :: c != "" && c != "." && c != ".." && '/' !in c
  }

  // ----- The tree -----

  function Parent(p: Path): Path
    requires p != []
  {
    p[..|p| - 1]
  }

  ghost predicate FileBelow(files: FlatMap, d: Path) {
    exists k :: k in files && d < k
  }

  ghost predicate PendingBelow(dirs: set<Path>, pending: set<Path>, d: Path) {
    exists p :: p in pending && p in dirs && d <= p
  }

  /** A tree in which every directory but the root has a file below it, or a
      directory still to be looked at. */
  ghost predicate Covered(files: FlatMap, dirs: set<Path>, pending: set<Path>) {
    && [] in dirs
    && (forall d <- dirs :: d != [] ==> Parent(d) in dirs)
    && (forall k <- files :: Proper(k) && k !in dirs && Parent(k) in dirs)
    && (forall d <- dirs :: d != [] ==> FileBelow(files, d) || PendingBelow(dirs, pending, d))
  }

  /** Every directory but the root has a file below it. */
  ghost predicate Tidy(files: FlatMap, dirs: set<Path>) {
    Covered(files, dirs, {})
  }

  lemma {:induction false} AncestorsAreDirs(dirs: set<Path>, d: Path, a: Path)
    requires d in dirs && a <= d && forall x <- dirs :: x != [] ==> Parent(x) in dirs
    ensures a in dirs
    decreases |d|
  {
    if |a| < |d| {
      assert a <= Parent(d);
      AncestorsAreDirs(dirs, Parent(d), a);
    } else {
      assert a == d;
    }
  }

  /** The directories are exactly the root and the proper prefixes of stored paths. */
  lemma DirsFollowFiles(files: FlatMap, dirs: set<Path>, d: Path)
    requires Tidy(files, dirs)
    ensures d in dirs <==> d == [] || FileBelow(files, d)
  {
    if d != [] && FileBelow(files, d) {
      var k :| k in files && d < k;
      assert d <= Parent(k);
      AncestorsAreDirs(dirs, Parent(k), d);
    }
  }

  /** No stored path lies below another one. */
  predicate Conflicts(files: FlatMap, p: Path) {
    exists k :: k in files && (k < p || p < k)
  }

  // ----- The flat map -----

  datatype Op =
    | Put(name: string, data: Bytes)
    | Delete(name: string)
    | DeletePrefix(prefix: string)

  function Without(m: FlatMap, prefix: string): FlatMap {
    map k | k in m && !Matches(k, prefix) :: m[k]
  }

  /** What an operation does to the flat map; putting at or below a stored path that
      is in the way fails and changes nothing. */
  function FlatApply(m: FlatMap, op: Op): FlatMap {
    match op
    case Put(name, data) =>
      (match Resolve(name)
       case None => m
       case Some(p) => if Conflicts(m, p) then m else m[p := data])
    case Delete(name) =>
      (match Resolve(name)
       case None => m
       case Some(p) => m - {p})
    case DeletePrefix(prefix) => if Normalize(prefix) == "" then m else Without(m, prefix)
  }

  function FlatRun(m: FlatMap, ops: seq<Op>): FlatMap {
    if ops == [] then m else FlatApply(FlatRun(m, ops[..|ops| - 1]), Last(ops))
  }

  // ----- Cleaning up -----

  ghost predicate EmptyDir(files: FlatMap, dirs: set<Path>, d: Path) {
    && (forall k <- files :: k != [] ==> Parent(k) != d)
    && (forall c <- dirs :: c != [] ==> Parent(c) != d)
  }

  lemma PassToParent(dirs: set<Path>, pending: set<Path>, cur: Path, d: Path)
    requires PendingBelow(dirs, pending + {cur}, d) && cur != [] && d != cur
    requires Parent(cur) in dirs
    ensures PendingBelow(dirs - {cur}, pending + {Parent(cur)}, d)
  {
    var left := dirs - {cur};
    var p :| p in pending + {cur} && p in dirs && d <= p;
    var q := if p == cur then Parent(cur) else p;
    assert q in pending + {Parent(cur)} && q in left;
    assert d <= q;
  }

  /** Removing an empty directory passes the duty on to its parent. */
  lemma RemoveEmptyDir(files: FlatMap, dirs: set<Path>, pending: set<Path>, cur: Path)
    requires Covered(files, dirs, pending + {cur}) && cur in dirs && cur != []
    requires EmptyDir(files, dirs, cur)
    ensures Covered(files, dirs - {cur}, pending + {Parent(cur)})
  {
    hide FileBelow, PendingBelow, Proper;
    forall d <- dirs - {cur} | d != [] && !FileBelow(files, d)
      ensures PendingBelow(dirs - {cur}, pending + {Parent(cur)}, d)
    {
      PassToParent(dirs, pending, cur, d);
    }
  }

  /** A directory that holds something needs no more looking at. */
  lemma KeepFullDir(files: FlatMap, dirs: set<Path>, pending: set<Path>, cur: Path)
    requires Covered(files, dirs, pending + {cur})
    requires cur !in dirs || cur == [] || !EmptyDir(files, dirs, cur)
    ensures Covered(files, dirs, pending)
  {
    forall d <- dirs | d != [] && !FileBelow(files, d)
      ensures PendingBelow(dirs, pending, d)
    {
      var p :| p in pending + {cur} && p in dirs && d <= p;
      if p == cur {
        BelowFullDir(files, dirs, pending, cur, d);
      }
    }
  }

  lemma BelowFullDir(files: FlatMap, dirs: set<Path>, pending: set<Path>, cur: Path, d: Path)
    requires Covered(files, dirs, pending + {cur}) && cur in dirs && cur != [] && d <= cur
    requires !EmptyDir(files, dirs, cur)
    ensures FileBelow(files, d) || PendingBelow(dirs, pending, d)
  {
    hide Proper, FileBelow, PendingBelow;
    if k :| k in files && k != [] && Parent(k) == cur {
      FileIsBelow(files, k, d);
    } else {
      var c :| c in dirs && c != [] && Parent(c) == cur;
      BelowChild(files, dirs, pending, cur, c, d);
    }
  }

  lemma FileIsBelow(files: FlatMap, k: Path, d: Path)
    requires k in files && k != [] && d <= Parent(k)
    ensures FileBelow(files, d)
  {
    assert d < k;
  }

  /** What lies below a child of cur lies below everything above cur. */
  lemma BelowChild(files: FlatMap, dirs: set<Path>, pending: set<Path>, cur: Path, c: Path, d: Path)
    requires c != [] && Parent(c) == cur && d <= cur
    requires FileBelow(files, c) || PendingBelow(dirs, pending + {cur}, c)
    ensures FileBelow(files, d) || PendingBelow(dirs, pending, d)
  {
    if FileBelow(files, c) {
      var k :| k in files && c < k;
      assert d < k;
    } else {
      var p :| p in pending + {cur} && p in dirs && c <= p;
      assert p != cur && d <= p;
    }
  }

  lemma DirectlyAbove(p: Path, d: Path)
    requires p != []
    ensures d < p ==> d <= Parent(p)
  {
  }

  lemma FileElsewhere(files: FlatMap, p: Path, d: Path)
    requires FileBelow(files, d) && p in files && p != [] && !(d <= Parent(p))
    ensures FileBelow(files - {p}, d)
  {
    DirectlyAbove(p, d);
    var k :| k in files && d < k;
    assert k in files - {p};
  }

  lemma PendingHere(dirs: set<Path>, pending: set<Path>, q: Path, d: Path)
    requires PendingBelow(dirs, pending, d) || (q in dirs && d <= q)
    ensures PendingBelow(dirs, pending + {q}, d)
  {
    if PendingBelow(dirs, pending, d) {
      var p :| p in pending && p in dirs && d <= p;
      assert p in pending + {q};
    } else {
      assert q in pending + {q};
    }
  }

  /** A deleted file leaves its directory to be looked at. */
  lemma RemoveFile(files: FlatMap, dirs: set<Path>, pending: set<Path>, p: Path)
    requires Covered(files, dirs, pending) && p in files
    ensures Covered(files - {p}, dirs, pending + {Parent(p)})
  {
    hide FileBelow, PendingBelow;
    assert Proper(p);
    hide Proper;
    forall d <- dirs | d != [] && !FileBelow(files - {p}, d)
      ensures PendingBelow(dirs, pending + {Parent(p)}, d)
    {
      if d <= Parent(p) {
      } else if FileBelow(files, d) {
        FileElsewhere(files, p, d);
      }
      PendingHere(dirs, pending, Parent(p), d);
    }
  }

  /** The proper prefixes of a path. */
  function Prefixes(p: Path, n: nat): set<Path>
    requires n <= |p|
  {
    set i | 0 <= i < n :: p[..i]
  }

  lemma NoPrefixes(p: Path)
    ensures Prefixes(p, 0) == {}
  {
  }

  lemma PrefixesNext(p: Path, n: nat)
    requires n < |p|
    ensures Prefixes(p, n + 1) == Prefixes(p, n) + {p[..n]}
  {
  }

  lemma PrefixesAreDirs(dirs: set<Path>, p: Path, d: Path, n: nat)
    requires n <= |p| && d in dirs && p[..n] <= d
    requires forall x <- dirs :: x != [] ==> Parent(x) in dirs
    ensures Prefixes(p, n) <= dirs
  {
    forall i | 0 <= i < n
      ensures p[..i] in dirs
    {
      assert p[..i] == p[..n][..i] <= d;
      AncestorsAreDirs(dirs, d, p[..i]);
    }
  }

  /** A stored path above: its own parents are directories already. */
  lemma FileStopsParents(files: FlatMap, dirs: set<Path>, p: Path, i: nat)
    requires Tidy(files, dirs) && Proper(p) && i < |p| && p[..i] in files
    ensures Prefixes(p, i) <= dirs
    ensures p[..i] < p
  {
    var k := p[..i];
    assert k != [];
    assert p[..i - 1] == Parent(k);
    PrefixesAreDirs(dirs, p, Parent(k), i - 1);
    PrefixesNext(p, i - 1);
  }

  lemma PrefixOfLength(k: Path, p: Path)
    requires k < p
    ensures |k| < |p| && k == p[..|k|]
  {
  }

  lemma NoFileAbove(files: FlatMap, p: Path)
    requires forall j :: 0 <= j < |p| ==> p[..j] !in files
    ensures !exists k :: k in files && k < p
  {
    forall k <- files
      ensures !(k < p)
    {
      if k < p {
        PrefixOfLength(k, p);
      }
    }
  }

  lemma PrefixesAreShorter(p: Path, k: Path)
    ensures k in Prefixes(p, |p|) ==> k < p
  {
  }

  lemma AlreadyDirs(files: FlatMap, dirs: set<Path>, p: Path)
    requires Tidy(files, dirs) && p in dirs
    ensures dirs + Prefixes(p, |p|) == dirs
  {
    assert p[..|p|] == p;
    PrefixesAreDirs(dirs, p, p, |p|);
  }

  /** A new file with its parents made. */
  lemma AddFile(files: FlatMap, dirs: set<Path>, p: Path, data: Bytes)
    requires Tidy(files, dirs) && Proper(p) && p !in dirs
    requires forall k <- files :: !(k < p)
    ensures Tidy(files[p := data], dirs + Prefixes(p, |p|))
    ensures !Conflicts(files, p)
  {
    var after, all := files[p := data], dirs + Prefixes(p, |p|);
    DirsFollowFiles(files, dirs, p);
    forall d <- all | d != []
      ensures Parent(d) in all && FileBelow(after, d)
    {
      if d in dirs {
        assert FileBelow(files, d);
        var k :| k in files && d < k;
        assert k in after;
      } else {
        var i :| 0 <= i < |p| && d == p[..i];
        assert Parent(d) == p[..i - 1];
        assert d < p && p in after;
      }
    }
    assert Parent(p) == p[..|p| - 1];
    forall k <- after
      ensures k !in Prefixes(p, |p|)
    {
      PrefixesAreShorter(p, k);
    }
  }

  lemma {:induction false} ComponentsAreProper(s: string, open: string)
    requires '/' !in open
    ensures forall c <- Components(s, open) :: c != "" && c != "." && '/' !in c
    decreases |s|
  {
    if s != "" {
      if s[0] == '/' {
        ComponentsAreProper(s[1..], "");
      } else {
        ComponentsAreProper(s[1..], open + [s[0]]);
      }
    }
  }

  lemma ResolvedIsProper(name: string)
    ensures Resolve(name).Some? ==> Proper(Resolve(name).value)
  {
    ComponentsAreProper(LStrip(name), "");
  }

  // ----- Listed names resolve to what they name -----

  lemma {:induction false} ComponentsOfPart(open: string, c: string, rest: string)
    requires '/' !in c
    ensures Components(c + rest, open) == Components(rest, open + c)
    decreases |c|
  {
    if c == "" {
      assert c + rest == rest && open + c == open;
    } else {
      assert (c + rest)[0] == c[0] && (c + rest)[1..] == c[1..] + rest;
      ComponentsOfPart(open + [c[0]], c[1..], rest);
      assert open + [c[0]] + c[1..] == open + c;
    }
  }

  lemma {:induction false} LastComponent(c: string)
    requires c != "" && c != "." && '/' !in c
    ensures Components(c, "") == [c]
  {
    ComponentsOfPart("", c, "");
    assert c + "" == c && "" + c == c;
  }

  lemma {:induction false} FirstComponent(c: string, rest: string)
    requires c != "" && c != "." && '/' !in c
    ensures Components(c + ("/" + rest), "") == [c] + Components(rest, "")
  {
    ComponentsOfPart("", c, "/" + rest);
    assert "" + c == c && ("/" + rest)[0] == '/' && ("/" + rest)[1..] == rest;
  }

  lemma {:induction false} JoinPathUnfolds(path: Path)
    requires path != []
    ensures JoinPath(path) == if |path| == 1 then path[0] else path[0] + ("/" + JoinPath(path[1..]))
  {
  }

  lemma {:induction false} ComponentsOfPath(path: Path)
    requires path != [] && forall c <- path :: c != "" && c != "." && '/' !in c
    ensures Components(JoinPath(path), "") == path
  {
    hide Components, JoinPath;
    JoinPathUnfolds(path);
    assert path[0] in path;
    if |path| == 1 {
      LastComponent(path[0]);
    } else {
      FirstComponent(path[0], JoinPath(path[1..]));
      assert forall c <- path[1..] :: c in path;
      ComponentsOfPath(path[1..]);
      assert path == [path[0]] + path[1..];
    }
  }

  lemma {:induction false} JoinStartsWithFirst(path: Path)
    requires path != []
    ensures path[0] <= JoinPath(path)
  {
    if |path| > 1 {
      assert JoinPath(path) == path[0] + ("/" + JoinPath(path[1..]));
    }
  }

  /** The name of a proper path resolves to that path. */
  lemma {:induction false} NameRoundTrip(path: Path)
    requires Proper(path)
    ensures Resolve(JoinPath(path)) == Some(path)
  {
    ComponentsOfPath(path);
    JoinStartsWithFirst(path);
    assert path[0] in path && path[0][0] in path[0];
    var name := JoinPath(path);
    assert name != "" && name[0] == path[0][0];
    assert LStrip(name) == name;
  }

  /** Names differ when paths do. */
  lemma {:induction false} NamesAreDistinct(a: Path, b: Path)
    requires Proper(a) && Proper(b) && JoinPath(a) == JoinPath(b)
    ensures a == b
  {
    NameRoundTrip(a);
    NameRoundTrip(b);
  }

  /** The names are those of the matching paths, in the order of the paths. */
  ghost predicate Lists(files: FlatMap, prefix: string, names: seq<string>, paths: seq<Path>) {
    && |names| == |paths|
    && (forall i :: 0 <= i < |paths| ==> names[i] == Listed(paths[i]))
    && (forall p :: p in paths <==> p in files && Matches(p, prefix))
    && (forall i, j :: 0 <= i < j < |paths| ==> paths[i] != paths[j])
  }

  /** The names of all matching paths, each path once, in some order. */
  ghost predicate ListsMatching(files: FlatMap, prefix: string, names: seq<string>) {
    exists paths :: Lists(files, prefix, names, paths)
  }

  datatype StoreError = InvalidPath | WriteFailed | OutOfBounds

  class Local {
    var files: FlatMap
    var dirs: set<Path>

    ghost predicate Valid()
      reads this
    {
      Tidy(files, dirs)
    }

    constructor ()
      ensures Valid() && files == map[]
    {
      files, dirs := map[], {[]};
    }

    method Get(name: string) returns (r: Option<Bytes>)
      requires Valid()
      ensures r == match Resolve(name)
                   case None => None
                   case Some(p) => if p in files then Some(files[p]) else None
    {
      var full := Resolve(name);
      if full.Some? && full.value in files {
        return Some(files[full.value]);
      }
      return None;
    }

    /** Deletes empty directories from cur upwards. */
    method CleanupEmptyDirs(dir: Path, ghost pending: set<Path>)
      requires Covered(files, dirs, pending + {dir})
      modifies this`dirs
      ensures Covered(files, dirs, pending)
    {
      var cur := dir;
      while cur in dirs && cur != []
        invariant Covered(files, dirs, pending + {cur})
        decreases |cur|
      {
        if (forall k | k in files :: k != [] ==> Parent(k) != cur)
           && (forall c | c in dirs :: c != [] ==> Parent(c) != cur) {
          RemoveEmptyDir(files, dirs, pending, cur);
          dirs := dirs - {cur};
          cur := Parent(cur);
        } else {
          break;
        }
      }
      KeepFullDir(files, dirs, pending, cur);
    }

    method Delete(name: string)
      requires Valid()
      modifies this
      ensures Valid() && files == FlatApply(old(files), Op.Delete(name))
    {
      var full := Resolve(name);
      if full.None? || full.value !in files {
        return;
      }
      var p := full.value;
      RemoveFile(files, dirs, {}, p);
      files := files - {p};
      CleanupEmptyDirs(Parent(p), {});
    }

    method MakeParents(p: Path) returns (ok: bool)
      requires Valid() && Proper(p)
      modifies this`dirs
      ensures ok <==> !exists k :: k in files && k < p
      ensures dirs == if ok then old(dirs) + Prefixes(p, |p|) else old(dirs)
    {
      hide Prefixes, Covered, Proper;
      NoPrefixes(p);
      var i := 0;
      while i < |p|
        invariant 0 <= i <= |p|
        invariant dirs == old(dirs) + Prefixes(p, i)
        invariant forall j :: 0 <= j < i ==> p[..j] !in files
      {
        if p[..i] in files {
          FileStopsParents(files, old(dirs), p, i);
          return false;
        }
        PrefixesNext(p, i);
        dirs := dirs + {p[..i]};
        i := i + 1;
      }
      NoFileAbove(files, p);
      return true;
    }

    /** Stores an object. It fails, and changes nothing, exactly when the name does
        not resolve or a stored path is in the way. */
    method Put(name: string, data: Bytes) returns (r: Result<(), StoreError>)
      requires Valid()
      modifies this
      ensures Valid() && files == FlatApply(old(files), Op.Put(name, data))
      ensures r == Err(InvalidPath) <==> Resolve(name).None?
      ensures r == Err(WriteFailed) <==> Resolve(name).Some? && Conflicts(old(files), Resolve(name).value)
    {
      var full := Resolve(name);
      if full.None? {
        return Err(InvalidPath);
      }
      var p := full.value;
      ResolvedIsProper(name);
      DirsFollowFiles(files, dirs, p);
      hide Resolve, Proper, Covered;
      var ok := MakeParents(p);
      if !ok {
        return Err(WriteFailed);
      }
      if p in dirs {
        NotItsOwnPrefix(p);
        AlreadyDirs(files, old(dirs), p);
        return Err(WriteFailed);
      }
      AddFile(files, old(dirs), p, data);
      files := files[p := data];
      return Ok(());
    }

    /** Deletes all objects whose listed name starts with the prefix, in whatever
        order the directory walk yields them, then the directories left empty. An
        empty prefix deletes nothing. */
    method DeleteObjectsByPrefix(prefix: string)
      requires Valid()
      modifies this
      ensures Valid() && files == FlatApply(old(files), Op.DeletePrefix(prefix))
    {
      if Normalize(prefix) == "" {
        return;
      }
      hide Matches, Normalize, Covered;
      var pending: set<Path> := {};
      var todo := files.Keys;
      while todo != {}
        invariant todo <= files.Keys && Covered(files, dirs, pending)
        invariant forall k <- files :: k in old(files) && files[k] == old(files)[k]
        invariant forall k <- old(files) :: k in files <==> k in todo || !Matches(k, prefix)
        decreases todo
      {
        var k :| k in todo;
        todo := todo - {k};
        if Matches(k, prefix) {
          StoredIsProper(files, dirs, pending, k);
          RemoveFile(files, dirs, pending, k);
          pending := pending + {Parent(k)};
          files := files - {k};
        }
      }
      while pending != {}
        invariant Covered(files, dirs, pending)
        invariant files == Without(old(files), prefix)
        decreases pending
      {
        var d :| d in pending;
        assert pending == (pending - {d}) + {d};
        pending := pending - {d};
        CleanupEmptyDirs(d, pending);
      }
    }

    /** The names of the objects that start with the prefix, each path once. */
    method ListObjectsByPrefix(prefix: string) returns (names: seq<string>)
      requires Valid()
      ensures ListsMatching(files, prefix, names)
    {
      hide Matches, Listed, Covered;
      names := [];
      ghost var paths: seq<Path> := [];
      var todo := files.Keys;
      while todo != {}
        invariant todo <= files.Keys
        invariant |names| == |paths| && forall i :: 0 <= i < |paths| ==> names[i] == Listed(paths[i])
        invariant forall p :: p in paths <==> p in files && p !in todo && Matches(p, prefix)
        invariant forall i, j :: 0 <= i < j < |paths| ==> paths[i] != paths[j]
        decreases todo
      {
        var p :| p in todo;
        todo := todo - {p};
        if Matches(p, prefix) {
          names, paths := names + [Listed(p)], paths + [p];
        }
      }
      assert Lists(files, prefix, names, paths);
    }

    /** A stream over the bytes start..end of an object, both included and the end
        cut to the file, with its exact length. */
    method StreamRange(name: string, start: int, end: Option<int>)
      returns (r: Option<Result<(RangedFileStream?, nat), StoreError>>)
      requires Valid()
      ensures r.None? <==> Resolve(name).None? || Resolve(name).value !in files
      ensures r.Some? ==> (r.value == Err(OutOfBounds) <==> !(0 <= start < |files[Resolve(name).value]|))
      ensures r.Some? && r.value.Ok? ==>
                var (stream, length) := r.value.value;
                var data := files[Resolve(name).value];
                var last := if end.None? then |data| - 1 else Min(end.value, |data| - 1);
                && length == Max(0, last - start + 1)
                && (stream == null <==> length == 0)
                && (stream != null ==>
                      && fresh(stream) && fresh(stream.handle) && stream.Valid() && stream.Cursor() == 0
                      && stream.Window() == data[start..last + 1] && |stream.Window()| == length)
    {
      var full := Resolve(name);
      if full.None? || full.value !in files {
        return None;
      }
      var data := files[full.value];
      var fileSize := |data|;
      if start < 0 || start >= fileSize {
        return Some(Err(OutOfBounds));
      }
      var actualEnd := if end.None? || end.value >= fileSize then fileSize - 1 else end.value;
      var contentLength := actualEnd - start + 1;
      if contentLength <= 0 {
        return Some(Ok((null, 0)));
      }
      var handle := new FileHandle(data);
      var stream := new RangedFileStream(handle, start, actualEnd);
      return Some(Ok((stream, contentLength)));
    }
  }

  lemma NotItsOwnPrefix(p: Path)
    ensures p !in Prefixes(p, |p|)
  {
  }

  lemma StoredIsProper(files: FlatMap, dirs: set<Path>, pending: set<Path>, k: Path)
    requires Covered(files, dirs, pending) && k in files
    ensures k != []
  {
  }

  /** Over every sequence of operations the store holds what the flat map holds, and
      the tree stays tidy. */
  method RunOperations(store: Local, ops: seq<Op>)
    requires store.Valid()
    modifies store
    ensures store.Valid() && store.files == FlatRun(old(store.files), ops)
  {
    hide FlatApply, Covered;
    assert ops[..0] == [];
    for i := 0 to |ops|
      invariant store.Valid() && store.files == FlatRun(old(store.files), ops[..i])
    {
      assert ops[..i + 1][..i] == ops[..i];
      match ops[i] {
        case Put(name, data) =>
          var _ := store.Put(name, data);
        case Delete(name) =>
          store.Delete(name);
        case DeletePrefix(prefix) =>
          store.DeleteObjectsByPrefix(prefix);
      }
    }
    assert ops[..|ops|] == ops;
  }
}
