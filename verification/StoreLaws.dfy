/** What the names of the object store mean, and what one operation does to one path. */
module StoreLaws {
  import opened Common
  import opened LocalStore

  // ----- Names -----

  /** Slashes stand for themselves, and backslashes for slashes. */
  function Canonical(c: char): char {
    if c == '\\' then '/' else c
  }

  lemma {:induction false} SlashesAreCanonical(s: string)
    ensures |Slashes(s)| == |s| && forall i :: 0 <= i < |s| ==> Slashes(s)[i] == Canonical(s[i])
  {
    if s != "" {
      SlashesAreCanonical(s[1..]);
    }
  }

  /** How many slashes stand in front. */
  ghost predicate LeadingSlashes(s: string, n: nat) {
    n <= |s| && (forall i :: 0 <= i < n ==> s[i] == '/') && (n < |s| ==> s[n] != '/')
  }

  lemma {:induction false} LStripDropsSlashes(s: string, n: nat)
    requires LeadingSlashes(s, n)
    ensures LStrip(s) == s[n..]
  {
    if n > 0 {
      LStripDropsSlashes(s[1..], n - 1);
      assert s[1..][n - 1..] == s[n..];
    }
  }

  /** A prefix matches a path exactly when its characters, without the slashes in front and with
      backslashes read as slashes, are the first ones of the path's name. */
  lemma {:induction false} MatchesMeans(path: Path, prefix: string, n: nat)
    requires LeadingSlashes(prefix, n)
    ensures var name, given := JoinPath(path), prefix[n..];
            Matches(path, prefix) <==>
            |given| <= |name| && forall i :: 0 <= i < |given| ==> Canonical(given[i]) == Canonical(name[i])
  {
    hide JoinPath, Slashes, Canonical;
    var name, given := JoinPath(path), prefix[n..];
    LStripDropsSlashes(prefix, n);
    SlashesAreCanonical(given);
    SlashesAreCanonical(name);
  }

  /** The parts of a name that count. */
  function Counting(parts: seq<string>): Path {
    if parts == [] then []
    else (if parts[0] == "" || parts[0] == "." then [] else [parts[0]]) + Counting(parts[1..])
  }

  lemma {:induction false} ComponentsCount(parts: seq<string>)
    requires forall c <- parts :: '/' !in c
    ensures Components(JoinPath(parts), "") == Counting(parts)
  {
    hide Components;
    if parts == [] {
      ComponentEnds("", "");
    } else {
      assert parts[0] in parts && forall c <- parts[1..] :: c in parts;
      assert "" + parts[0] == parts[0];
      if |parts| == 1 {
        ComponentsOfPart("", parts[0], "");
        assert parts[0] + "" == parts[0] && Counting(parts[1..]) == [];
        ComponentEnds(parts[0], "");
      } else {
        ComponentsOfPart("", parts[0], "/" + JoinPath(parts[1..]));
        JoinPathUnfolds(parts);
        ComponentEnds(parts[0], JoinPath(parts[1..]));
        ComponentsCount(parts[1..]);
      }
    }
  }

  lemma {:induction false} ComponentEnds(open: string, rest: string)
    ensures Components("", open) == (if open == "" || open == "." then [] else [open])
    ensures Components("/" + rest, open) == (if open == "" || open == "." then [] else [open]) + Components(rest, "")
  {
    assert ("/" + rest)[1..] == rest;
  }

  lemma {:induction false} SlashesInFrontDoNotCount(s: string)
    ensures Components(LStrip(s), "") == Components(s, "")
  {
    if s != "" && s[0] == '/' {
      SlashesInFrontDoNotCount(s[1..]);
    }
  }

  /** A name, taken apart at its slashes, stands for its parts that are neither empty nor a dot;
      it is refused if there are none, or if one of them is "..". */
  lemma {:induction false} ResolveMeans(parts: seq<string>)
    requires forall c <- parts :: '/' !in c
    ensures Resolve(JoinPath(parts))
         == if Counting(parts) == [] || ".." in Counting(parts) then None else Some(Counting(parts))
  {
    hide Components, LStrip, JoinPath, Counting;
    SlashesInFrontDoNotCount(JoinPath(parts));
    ComponentsCount(parts);
  }

  // ----- Operations -----

  /** The operation stores data at the path: the name stands for it, and no stored path is above
      or below. */
  predicate Writes(m: FlatMap, op: Op, p: Path) {
    op.Put? && Resolve(op.name) == Some(p) && forall k <- m :: !(k < p) && !(p < k)
  }

  /** The operation takes the path away, by its name or by a prefix other than slashes. */
  predicate Removes(op: Op, p: Path) {
    || (op.Delete? && Resolve(op.name) == Some(p))
    || (op.DeletePrefix? && (exists i :: 0 <= i < |op.prefix| && op.prefix[i] != '/') && Matches(p, op.prefix))
  }

  /** After an operation a path holds what it wrote there, or what it did not remove. */
  lemma OperationOn(m: FlatMap, op: Op, p: Path)
    ensures p in FlatApply(m, op) <==> Writes(m, op, p) || (p in m && !Removes(op, p))
    ensures p in FlatApply(m, op) ==> FlatApply(m, op)[p] == if Writes(m, op, p) then op.data else m[p]
  {
    hide Resolve, Matches;
    if op.DeletePrefix? {
      EmptyAfterSlashes(op.prefix);
    }
  }

  lemma {:induction false} EmptyAfterSlashes(prefix: string)
    ensures Normalize(prefix) == "" <==> forall i :: 0 <= i < |prefix| ==> prefix[i] == '/'
  {
    if prefix != "" && prefix[0] == '/' {
      EmptyAfterSlashes(prefix[1..]);
      assert forall i :: 0 < i < |prefix| ==> prefix[i] == prefix[1..][i - 1];
    } else if prefix != "" {
      SlashesAreCanonical(prefix);
    }
  }

  /** The operation number k was the last one that wrote or removed the path. */
  ghost predicate LastTouch(m: FlatMap, ops: seq<Op>, p: Path, k: nat) {
    && k < |ops| && (Writes(FlatRun(m, ops[..k]), ops[k], p) || Removes(ops[k], p))
    && forall j :: k < j < |ops| ==> !Writes(FlatRun(m, ops[..j]), ops[j], p) && !Removes(ops[j], p)
  }

  /** Over any operations a path holds what the last one that touched it wrote; what was never
      touched is as it was. */
  lemma {:induction false} LastTouchDecides(m: FlatMap, ops: seq<Op>, p: Path, k: nat)
    requires LastTouch(m, ops, p, k)
    ensures var r := FlatRun(m, ops);
            if Writes(FlatRun(m, ops[..k]), ops[k], p) then p in r && r[p] == ops[k].data else p !in r
    decreases |ops|
  {
    hide Writes, Removes, FlatApply;
    var init := ops[..|ops| - 1];
    OperationOn(FlatRun(m, init), Last(ops), p);
    if k < |init| {
      assert init[..k] == ops[..k] && forall j :: 0 <= j < |init| ==> init[..j] == ops[..j];
      LastTouchDecides(m, init, p, k);
      assert ops[..|ops| - 1] == init;
    }
  }

  lemma {:induction false} UntouchedStays(m: FlatMap, ops: seq<Op>, p: Path)
    requires forall j :: 0 <= j < |ops| ==> !Writes(FlatRun(m, ops[..j]), ops[j], p) && !Removes(ops[j], p)
    ensures var r := FlatRun(m, ops); (p in r <==> p in m) && (p in r ==> r[p] == m[p])
    decreases |ops|
  {
    hide Writes, Removes, FlatApply;
    if ops != [] {
      var init := ops[..|ops| - 1];
      assert forall j :: 0 <= j < |init| ==> init[..j] == ops[..j] && init[j] == ops[j];
      UntouchedStays(m, init, p);
      OperationOn(FlatRun(m, init), Last(ops), p);
    }
  }
}
