/** Where the splitter cuts: behind the separators of the first levels that make the text
    small enough, never closer together than need be, and otherwise in halves that overlap. */
module CutLaws {
  import opened Common
  import opened Splitter
  import opened SplitterLaws
  import opened Chunking

  /** The separators by level, the ones to cut at first in front. */
  const TABLE: seq<seq<string>> := [
    ["\n\n"],
    ["\n"],
    ["\U{3002}\U{201D}", "\U{FF01}\U{201D}", "\U{FF1F}\U{201D}"],
    [".\"", "!\"", "?\""],
    ["\U{3002}", "\U{FF01}", "\U{FF1F}"],
    [".", "!", "?"],
    ["\U{FF1B}", "\U{FF0C}", "\U{3001}"],
    [";", ","],
    ["\U{300B}", "\U{FF09}", "\U{3011}", "\U{300D}", "\U{2019}", "\U{201D}"],
    ["\U{201C}", ">", ")", "]", "}", "'", "\""],
    [" ", "\t"]
  ]

  lemma SeparatorsAreTable(level: nat)
    requires level < LEVELS
    ensures |TABLE| == LEVELS && Separators(level) == TABLE[level]
  {
  }

  // ----- Finding a separator -----

  predicate OccursAt(s: string, sep: string, i: int) {
    0 <= i && i + |sep| <= |s| && s[i..i + |sep|] == sep
  }

  /** The first occurrence is found, and an absent one reported. */
  lemma {:induction false} IndexIsFirst(s: string, sep: string, i: nat)
    requires sep != "" && i <= |s|
    ensures var r := IndexOf(s, sep, i);
            && (r == -1 <==> forall j :: i <= j ==> !OccursAt(s, sep, j))
            && (r != -1 ==> OccursAt(s, sep, r) && forall j :: i <= j < r ==> !OccursAt(s, sep, j))
    decreases |s| - i
  {
    hide IndexOf, OccursAt;
    IndexStep(s, sep, i);
    if i + |sep| <= |s| && !OccursAt(s, sep, i) {
      IndexIsFirst(s, sep, i + 1);
    }
  }

  lemma IndexStep(s: string, sep: string, i: nat)
    requires sep != "" && i <= |s|
    ensures IndexOf(s, sep, i) == if i + |sep| > |s| then -1 else if OccursAt(s, sep, i) then i else IndexOf(s, sep, i + 1)
    ensures i + |sep| > |s| ==> forall j :: i <= j ==> !OccursAt(s, sep, j)
  {
  }

  // ----- Cuts -----

  predicate EndsWith(x: string, sep: string) {
    |sep| <= |x| && x[|x| - |sep|..] == sep
  }

  /** A place to cut: right behind a separator, or at the start. */
  predicate Behind(x: string, seps: seq<string>) {
    x == "" || exists k :: 0 <= k < |seps| && EndsWith(x, seps[k])
  }

  /** After the text pre, all boundaries between the pieces are places to cut. */
  predicate Cut(pre: string, pieces: seq<string>, seps: seq<string>)
    decreases |pieces|
  {
    |pieces| <= 1 || (Behind(pre + pieces[0], seps) && Cut(pre + pieces[0], pieces[1..], seps))
  }

  /** No separator ends before the end of the text. */
  ghost predicate Unbroken(x: string, seps: seq<string>) {
    forall k, i :: 0 <= k < |seps| && i + |seps[k]| < |x| ==> !OccursAt(x, seps[k], i)
  }

  ghost predicate AllUnbroken(pieces: seq<string>, seps: seq<string>) {
    forall m :: 0 <= m < |pieces| ==> Unbroken(pieces[m], seps)
  }

  lemma BehindMore(x: string, seps: seq<string>, more: seq<string>)
    requires Behind(x, seps) && forall k :: 0 <= k < |seps| ==> seps[k] in more
    ensures Behind(x, more)
  {
    hide EndsWith;
    if x != "" {
      var k :| 0 <= k < |seps| && EndsWith(x, seps[k]);
      assert seps[k] in more;
      var j :| 0 <= j < |more| && more[j] == seps[k];
      assert EndsWith(x, more[j]);
    }
  }

  lemma {:induction false} CutMore(pre: string, pieces: seq<string>, seps: seq<string>, more: seq<string>)
    requires Cut(pre, pieces, seps) && forall k :: 0 <= k < |seps| ==> seps[k] in more
    ensures Cut(pre, pieces, more)
    decreases |pieces|
  {
    hide Behind;
    if |pieces| > 1 {
      BehindMore(pre + pieces[0], seps, more);
      CutMore(pre + pieces[0], pieces[1..], seps, more);
    }
  }

  lemma {:induction false} CutJoins(pre: string, a: seq<string>, b: seq<string>, seps: seq<string>)
    requires Cut(pre, a, seps) && Cut(pre + Flatten(a), b, seps)
    requires a != [] && b != [] ==> Behind(pre + Flatten(a), seps)
    ensures Cut(pre, a + b, seps)
    decreases |a|
  {
    hide Behind;
    if a == [] {
      assert a + b == b && pre + Flatten(a) == pre;
    } else if b == [] {
      assert a + b == a;
    } else {
      assert (a + b)[0] == a[0] && (a + b)[1..] == a[1..] + b;
      assert pre + Flatten(a) == pre + a[0] + Flatten(a[1..]);
      if |a| == 1 {
        assert Flatten(a[1..]) == "" && pre + a[0] + "" == pre + a[0] && a[1..] + b == b;
      }
      CutJoins(pre + a[0], a[1..], b, seps);
    }
  }

  /** The m-th boundary of a cut text. */
  lemma {:induction false} CutAt(pre: string, pieces: seq<string>, seps: seq<string>, m: nat)
    requires Cut(pre, pieces, seps) && 0 < m < |pieces|
    ensures Behind(pre + Flatten(pieces[..m]), seps)
    decreases |pieces|
  {
    hide Behind, Cut;
    CutUnfolds(pre, pieces, seps);
    assert pieces[..m][0] == pieces[0] && pieces[..m][1..] == pieces[1..][..m - 1];
    assert pre + Flatten(pieces[..m]) == pre + pieces[0] + Flatten(pieces[1..][..m - 1]);
    if m > 1 {
      CutAt(pre + pieces[0], pieces[1..], seps, m - 1);
    } else {
      assert pre + pieces[0] + "" == pre + pieces[0];
    }
  }

  lemma {:induction false} CutUnfolds(pre: string, pieces: seq<string>, seps: seq<string>)
    ensures Cut(pre, pieces, seps) <==>
            |pieces| <= 1 || (Behind(pre + pieces[0], seps) && Cut(pre + pieces[0], pieces[1..], seps))
  {
    hide Behind;
  }

  // ----- Cutting at one separator -----

  /** Part of an unbroken text is unbroken. */
  lemma UnbrokenPart(x: string, seps: seq<string>, a: nat, b: nat)
    requires a <= b <= |x| && Unbroken(x, seps)
    ensures Unbroken(x[a..b], seps)
  {
    forall k, i | 0 <= k < |seps| && i + |seps[k]| < |x[a..b]|
      ensures !OccursAt(x[a..b], seps[k], i)
    {
      if OccursAt(x[a..b], seps[k], i) {
        SliceOfSlice(x, a, b, i, i + |seps[k]|);
        assert OccursAt(x, seps[k], a + i);
      }
    }
  }

  lemma UnbrokenBoth(x: string, seps: seq<string>, sep: string)
    requires Unbroken(x, seps) && Unbroken(x, [sep])
    ensures Unbroken(x, seps + [sep])
  {
    var all := seps + [sep];
    forall k, i | 0 <= k < |all| && i + |all[k]| < |x|
      ensures !OccursAt(x, all[k], i)
    {
      if k == |seps| {
        assert [sep][0] == all[k];
      } else {
        assert seps[k] == all[k];
      }
    }
  }

  lemma FirstPieceUnbroken(x: string, sep: string, i: nat)
    requires sep != "" && OccursAt(x, sep, i) && forall j :: 0 <= j < i ==> !OccursAt(x, sep, j)
    ensures Unbroken(x[..i + |sep|], [sep])
  {
    var y := x[..i + |sep|];
    forall k, j | 0 <= k < |[sep]| && j + |[sep][k]| < |y|
      ensures !OccursAt(y, [sep][k], j)
    {
      if OccursAt(y, sep, j) {
        assert y[j..j + |sep|] == x[j..j + |sep|];
        assert OccursAt(x, sep, j);
      }
    }
  }

  /** Cutting one text: behind each occurrence, and nowhere else. */
  lemma {:induction false} KeptSeparators(pre: string, x: string, sep: string, seps: seq<string>)
    requires sep != "" && Unbroken(x, seps)
    ensures var pieces := KeepSeparators(SplitOn(x, sep), sep);
            pieces != [] && Cut(pre, pieces, [sep]) && AllUnbroken(pieces, seps + [sep])
    decreases |x|
  {
    hide IndexOf, KeepSeparators, SplitOn, Unbroken, OccursAt, Cut, Behind;
    SplitOnUnfolds(x, sep);
    IndexIsFirst(x, sep, 0);
    var i := IndexOf(x, sep, 0);
    if i < 0 {
      KeepSeparatorsOne(x, sep);
      AbsentIsUnbroken(x, sep);
      UnbrokenBoth(x, seps, sep);
      CutUnfolds(pre, [x], [sep]);
    } else {
      var first, rest := x[..i] + sep, x[i + |sep|..];
      FoundAt(x, sep, i);
      assert first == x[..i + |sep|] && x[..i + |sep|] == x[0..i + |sep|] && rest == x[i + |sep|..|x|];
      UnbrokenPart(x, seps, 0, i + |sep|);
      UnbrokenPart(x, seps, i + |sep|, |x|);
      FirstPieceUnbroken(x, sep, i);
      UnbrokenBoth(first, seps, sep);
      KeptSeparators(pre + first, rest, sep, seps);
      KeepSeparatorsCons(x[..i], SplitOn(rest, sep), sep);
      BehindSeparator(pre + x[..i], sep);
      assert pre + first == pre + x[..i] + sep;
      var more := KeepSeparators(SplitOn(rest, sep), sep);
      assert ([first] + more)[1..] == more;
      CutUnfolds(pre, [first] + more, [sep]);
    }
  }

  lemma FoundAt(x: string, sep: string, i: nat)
    requires OccursAt(x, sep, i)
    ensures i + |sep| <= |x| && x[i..i + |sep|] == sep
  {
  }

  lemma AbsentIsUnbroken(x: string, sep: string)
    requires forall j :: 0 <= j ==> !OccursAt(x, sep, j)
    ensures Unbroken(x, [sep])
  {
    forall k, i | 0 <= k < |[sep]| && i + |[sep][k]| < |x|
      ensures !OccursAt(x, [sep][k], i)
    {
    }
  }

  lemma BehindSeparator(x: string, sep: string)
    ensures Behind(x + sep, [sep])
  {
    assert EndsWith(x + sep, [sep][0]);
  }

  lemma {:induction false} KeepSeparatorsCons(part: string, parts: seq<string>, sep: string)
    requires parts != []
    ensures KeepSeparators([part] + parts, sep) == [part + sep] + KeepSeparators(parts, sep)
  {
    assert ([part] + parts)[1..] == parts;
  }

  /** Cutting pieces at one more separator keeps the cuts there are. */
  lemma {:induction false} CutAllCuts(pre: string, chunks: seq<string>, sep: string, seps: seq<string>)
    requires sep != "" && Cut(pre, chunks, seps) && AllUnbroken(chunks, seps)
    ensures var r := CutAll(chunks, sep);
            Cut(pre, r, seps + [sep]) && AllUnbroken(r, seps + [sep]) && (chunks != [] ==> r != [])
    decreases |chunks|
  {
    hide Cut, Behind, Unbroken, KeepSeparators, SplitOn;
    if chunks == [] {
      CutUnfolds(pre, [], seps + [sep]);
    } else {
      var c, rest := chunks[0], chunks[1..];
      var own, others := KeepSeparators(SplitOn(c, sep), sep), CutAll(rest, sep);
      CutUnfolds(pre, chunks, seps);
      KeptSeparators(pre, c, sep, seps);
      SplitOnKeepsText(c, sep);
      CutMore(pre, own, [sep], seps + [sep]);
      if rest == [] {
        assert own + others == own;
      } else {
        CutAllCuts(pre + c, rest, sep, seps);
        BehindMore(pre + c, seps, seps + [sep]);
        CutJoins(pre, own, others, seps + [sep]);
      }
    }
  }

  lemma {:induction false} CutLevelCuts(pre: string, chunks: seq<string>, done: seq<string>, seps: seq<string>)
    requires NonEmptySeparators(seps) && Cut(pre, chunks, done) && AllUnbroken(chunks, done) && chunks != []
    ensures var r := CutLevel(chunks, seps);
            Cut(pre, r, done + seps) && AllUnbroken(r, done + seps) && r != []
    decreases |seps|
  {
    hide Cut, AllUnbroken, CutAll;
    if seps == [] {
      assert done + seps == done;
    } else {
      CutAllCuts(pre, chunks, seps[0], done);
      CutLevelCuts(pre, CutAll(chunks, seps[0]), done + [seps[0]], seps[1..]);
      assert done + [seps[0]] + seps[1..] == done + seps;
    }
  }

  // ----- Merging keeps cuts -----

  lemma {:induction false} MergeCuts(tok: Tokenizer, pre: string, cur: string, chunks: seq<string>, size: int, seps: seq<string>)
    requires Cut(pre, [cur] + chunks, seps)
    ensures Cut(pre, Merge(tok, cur, chunks, size), seps)
    decreases |chunks|
  {
    hide Cut, Behind, Merge;
    MergeUnfolds(tok, cur, chunks, size);
    CutUnfolds(pre, [cur] + chunks, seps);
    assert ([cur] + chunks)[1..] == chunks;
    if chunks == [] {
      CutUnfolds(pre, [], seps);
      CutUnfolds(pre, [cur], seps);
    } else {
      var c, rest := chunks[0], chunks[1..];
      assert chunks == [c] + rest;
      if cur == "" {
        assert pre + cur == pre;
        MergeCuts(tok, pre, c, rest, size, seps);
      } else if Fits(tok, cur + c, size) {
        CutUnfolds(pre + cur, chunks, seps);
        assert pre + cur + c == pre + (cur + c);
        CutUnfolds(pre, [cur + c] + rest, seps);
        assert ([cur + c] + rest)[1..] == rest;
        MergeCuts(tok, pre, cur + c, rest, size, seps);
      } else {
        MergeCuts(tok, pre + cur, c, rest, size, seps);
        var m := Merge(tok, c, rest, size);
        assert ([cur] + m)[1..] == m;
        CutUnfolds(pre, [cur] + m, seps);
      }
    }
  }

  lemma {:induction false} MergeUnfolds(tok: Tokenizer, cur: string, chunks: seq<string>, size: int)
    ensures Merge(tok, cur, chunks, size)
         == if chunks == [] then (if cur == "" then [] else [cur])
            else if cur == "" then Merge(tok, chunks[0], chunks[1..], size)
            else if Fits(tok, cur + chunks[0], size) then Merge(tok, cur + chunks[0], chunks[1..], size)
            else [cur] + Merge(tok, chunks[0], chunks[1..], size)
  {
  }

  // ----- The whole splitter -----

  /** The separators of the levels from first up to last, last included. */
  function Upto(first: nat, last: nat): seq<string>
    requires last < |TABLE|
  {
    Levels(TABLE, first, last)
  }

  function Levels(table: seq<seq<string>>, first: nat, last: nat): seq<string>
    requires last < |table|
    decreases last + 1 - first
  {
    if first > last then [] else table[first] + Levels(table, first + 1, last)
  }

  /** A part of the text between two places to cut, with none inside. */
  ghost predicate Stretch(s: string, i: int, j: int, seps: seq<string>) {
    0 <= i <= j <= |s| && Behind(s[..i], seps) && (j == |s| || Behind(s[..j], seps)) && Unbroken(s[i..j], seps)
  }

  ghost predicate StretchesFit(tok: Tokenizer, s: string, size: int, seps: seq<string>) {
    forall i, j :: Stretch(s, i, j, seps) ==> Fits(tok, s[i..j], size)
  }

  /** The text x in its place in s: after pre, up to a place to cut or the end. */
  ghost predicate Placed(s: string, pre: string, x: string, seps: seq<string>) {
    pre + x <= s && Behind(pre, seps) && (pre + x == s || Behind(pre + x, seps))
  }

  lemma {:induction false} LevelsHave(table: seq<seq<string>>, first: nat, level: nat, last: nat)
    requires first <= level <= last < |table|
    ensures forall k :: 0 <= k < |table[level]| ==> table[level][k] in Levels(table, first, last)
    decreases level - first
  {
    if first < level {
      LevelsHave(table, first + 1, level, last);
    }
  }

  lemma {:induction false} LevelsSnoc(table: seq<seq<string>>, first: nat, last: nat)
    requires first <= last + 1 && last + 1 < |table|
    ensures Levels(table, first, last + 1) == Levels(table, first, last) + table[last + 1]
    decreases last + 1 - first
  {
    if first <= last {
      LevelsSnoc(table, first + 1, last);
    }
  }

  lemma LevelsFirst(table: seq<seq<string>>, first: nat, last: nat)
    requires first <= last < |table|
    ensures Levels(table, first, last) == table[first] + Levels(table, first + 1, last)
    ensures Levels(table, last + 1, last) == []
  {
  }

  lemma PlacedIsStretch(tok: Tokenizer, s: string, pre: string, x: string, size: int, seps: seq<string>)
    requires StretchesFit(tok, s, size, seps) && Placed(s, pre, x, seps) && Unbroken(x, seps)
    ensures Fits(tok, x, size)
  {
    hide Behind, Unbroken;
    var i, j := |pre|, |pre| + |x|;
    assert s[..i] == pre && s[..j] == pre + x && s[i..j] == x;
    assert Stretch(s, i, j, seps);
  }

  /** Separators that levels below the given one have. */
  function Earlier(level: nat): seq<string>
    requires level <= |TABLE|
  {
    if level == 0 then [] else Upto(0, level - 1)
  }

  lemma {:induction false} SplitCuts(tok: Tokenizer, s: string, pre: string, x: string, size: int, overlap: int,
                                     level: nat, last: nat)
    requires last < LEVELS && level <= last + 1 && StretchesFit(tok, s, size, Upto(0, last))
    requires Placed(s, pre, x, Upto(0, last)) && Unbroken(x, Earlier(level))
    ensures Cut(pre, Split(tok, x, size, overlap, level), Upto(0, last))
    ensures Flatten(Split(tok, x, size, overlap, level)) == x
    decreases last + 1 - level, 0
  {
    hide Split, SplitAll, Merge, CutLevel, StretchesFit, Placed, Unbroken, Levels, Cut, Separators;
    assert Flatten([x]) == x + Flatten<char>([]) == x;
    var seps := Upto(0, last);
    SplitUnfolds(tok, x, size, overlap, level);
    CutUnfolds(pre, [], seps);
    CutUnfolds(pre, [x], seps);
    if level == last + 1 {
      PlacedIsStretch(tok, s, pre, x, size, seps);
    } else if |x| > 1 && !Fits(tok, x, size) {
      SeparatorsAreTable(level);
      var pieces := Pieces(x, level);
      PiecesCut(pre, x, level);
      LevelsHave(TABLE, 0, level, last);
      CutMore(pre, pieces, TABLE[level], seps);
      SplitAllCuts(tok, s, pre, x, pieces, size, overlap, level + 1, last);
      var parts := SplitAll(tok, pieces, size, overlap, level + 1);
      CutUnfolds(pre, [""] + parts, seps);
      assert pre + "" == pre && ([""] + parts)[1..] == parts;
      PlacedBehind(s, pre, x, seps);
      MergeCuts(tok, pre, "", parts, size, seps);
      MergeKeepsText(tok, "", parts, size);
    }
  }

  lemma PlacedBehind(s: string, pre: string, x: string, seps: seq<string>)
    requires Placed(s, pre, x, seps)
    ensures Behind(pre, seps)
  {
  }

  lemma {:induction false} PiecesCut(pre: string, x: string, level: nat)
    requires level < LEVELS && Unbroken(x, Earlier(level))
    ensures var pieces := Pieces(x, level);
            pieces != [] && Cut(pre, pieces, TABLE[level]) && AllUnbroken(pieces, Earlier(level + 1))
  {
    hide Cut, Unbroken, CutLevel, Levels, Separators;
    SeparatorsAreTable(level);
    CutUnfolds(pre, [x], []);
    assert AllUnbroken([x], []) by { NoSeparators(x); }
    CutLevelCuts(pre, [x], [], TABLE[level]);
    assert [] + TABLE[level] == TABLE[level];
    CutLevelUnbroken([x], Earlier(level), TABLE[level]);
    if level > 0 {
      LevelsSnoc(TABLE, 0, level - 1);
    } else {
      LevelsFirst(TABLE, 0, 0);
      assert Earlier(1) == TABLE[0] == Earlier(0) + TABLE[0];
    }
  }

  lemma NoSeparators(x: string)
    ensures Unbroken(x, [])
  {
  }

  /** What was unbroken before stays so. */
  lemma {:induction false} CutLevelUnbroken(chunks: seq<string>, done: seq<string>, seps: seq<string>)
    requires NonEmptySeparators(seps) && AllUnbroken(chunks, done)
    ensures AllUnbroken(CutLevel(chunks, seps), done + seps)
    decreases |seps|
  {
    hide AllUnbroken, CutAll;
    if seps == [] {
      assert done + seps == done;
    } else {
      CutAllUnbroken(chunks, seps[0], done);
      CutLevelUnbroken(CutAll(chunks, seps[0]), done + [seps[0]], seps[1..]);
      assert done + [seps[0]] + seps[1..] == done + seps;
    }
  }

  lemma {:induction false} CutAllUnbroken(chunks: seq<string>, sep: string, seps: seq<string>)
    requires sep != "" && AllUnbroken(chunks, seps)
    ensures AllUnbroken(CutAll(chunks, sep), seps + [sep])
    decreases |chunks|
  {
    hide Cut, Unbroken, KeepSeparators, SplitOn;
    if chunks != [] {
      KeptSeparators("", chunks[0], sep, seps);
      CutAllUnbroken(chunks[1..], sep, seps);
    }
  }

  lemma {:induction false} SplitAllCuts(tok: Tokenizer, s: string, pre: string, x: string, pieces: seq<string>, size: int,
                                        overlap: int, level: nat, last: nat)
    requires last < LEVELS && level <= last + 1 && StretchesFit(tok, s, size, Upto(0, last))
    requires Placed(s, pre, x, Upto(0, last)) && Flatten(pieces) == x
    requires Cut(pre, pieces, Upto(0, last)) && AllUnbroken(pieces, Earlier(level))
    ensures Cut(pre, SplitAll(tok, pieces, size, overlap, level), Upto(0, last))
    ensures Flatten(SplitAll(tok, pieces, size, overlap, level)) == x
    decreases last + 1 - level, |pieces| + 1
  {
    hide Split, SplitAll, StretchesFit, Unbroken, Levels, Cut, Behind;
    var seps := Upto(0, last);
    assert pieces[0..] == pieces;
    SplitAllUnfolds(tok, pieces, size, overlap, level);
    if pieces == [] {
      CutUnfolds(pre, [], seps);
    } else {
      var c, rest := pieces[0], pieces[1..];
      CutUnfolds(pre, pieces, seps);
      assert pre + x == pre + c + Flatten(rest);
      var own := Split(tok, c, size, overlap, level);
      if rest == [] {
        assert pieces == [c] && Flatten(rest) == "" && c == x;
        SplitAllUnfolds(tok, rest, size, overlap, level);
        SplitCuts(tok, s, pre, c, size, overlap, level, last);
        assert own + [] == own;
      } else {
        PlacedParts(s, pre, c, Flatten(rest), seps);
        SplitCuts(tok, s, pre, c, size, overlap, level, last);
        SplitAllCuts(tok, s, pre + c, Flatten(rest), rest, size, overlap, level, last);
        var others := SplitAll(tok, rest, size, overlap, level);
        CutJoins(pre, own, others, seps);
        FlattenAppend(own, others);
      }
    }
  }

  lemma PlacedParts(s: string, pre: string, c: string, rest: string, seps: seq<string>)
    requires Placed(s, pre, c + rest, seps) && Behind(pre + c, seps)
    ensures Placed(s, pre, c, seps) && Placed(s, pre + c, rest, seps)
  {
    hide Behind;
    assert pre + (c + rest) == pre + c + rest;
  }

  lemma {:induction false} SplitAllUnfolds(tok: Tokenizer, pieces: seq<string>, size: int, overlap: int, level: nat)
    ensures SplitAll(tok, pieces, size, overlap, level)
         == if pieces == [] then []
            else Split(tok, pieces[0], size, overlap, level) + SplitAll(tok, pieces[1..], size, overlap, level)
  {
    hide Split;
  }

  // ----- Where chunks end -----

  /** Every boundary between neighbouring chunks is a place to cut. */
  ghost predicate EndsAtCuts(chunks: seq<string>, seps: seq<string>) {
    forall m :: 0 < m < |chunks| ==> Behind(Flatten(chunks[..m]), seps)
  }

  /** If all that lies between the separators of the levels up to last is small enough, the
      chunks are the text, and each boundary lies right behind one of those separators. */
  lemma {:induction false} CutsBehindSeparators(tok: Tokenizer, s: string, size: int, overlap: int, last: nat)
    requires last < LEVELS && |TABLE| == LEVELS && StretchesFit(tok, s, size, Upto(0, last))
    ensures var chunks := Split(tok, s, size, overlap, 0);
            Flatten(chunks) == s && EndsAtCuts(chunks, Upto(0, last))
  {
    hide Split, StretchesFit, Levels, Unbroken, Behind, Cut;
    var chunks, seps := Split(tok, s, size, overlap, 0), Upto(0, last);
    StartIsPlace(seps);
    assert "" + s == s;
    NoSeparators(s);
    SplitCuts(tok, s, "", s, size, overlap, 0, last);
    forall m | 0 < m < |chunks|
      ensures Behind(Flatten(chunks[..m]), seps)
    {
      CutAt("", chunks, seps, m);
      assert "" + Flatten(chunks[..m]) == Flatten(chunks[..m]);
    }
  }

  lemma StartIsPlace(seps: seq<string>)
    ensures Behind("", seps)
  {
  }

  ghost predicate Absent(s: string, seps: seq<string>) {
    forall k, i :: 0 <= k < |seps| ==> !OccursAt(s, seps[k], i)
  }

  /** If no separator of the earlier levels occurs in the text, and all that lies between the
      separators of a level is small enough, each boundary lies right behind one of these. */
  lemma {:induction false} CutsAtFirstLevel(tok: Tokenizer, s: string, size: int, overlap: int, level: nat)
    requires level < LEVELS && |TABLE| == LEVELS
    requires forall l :: 0 <= l < level ==> Absent(s, TABLE[l])
    requires StretchesFit(tok, s, size, TABLE[level])
    ensures var chunks := Split(tok, s, size, overlap, 0);
            Flatten(chunks) == s && EndsAtCuts(chunks, TABLE[level])
  {
    hide Split, Levels, Behind, Unbroken, Absent, StretchesFit;
    var chunks, seps := Split(tok, s, size, overlap, 0), Upto(0, level);
    LevelsHave(TABLE, 0, level, level);
    AbsentUpto(s, level);
    MoreStretchesFit(tok, s, size, TABLE[level], seps);
    CutsBehindSeparators(tok, s, size, overlap, level);
    forall m | 0 < m < |chunks|
      ensures Behind(Flatten(chunks[..m]), TABLE[level])
    {
      StartOfText(chunks, m);
      BehindPresent(s, |Flatten(chunks[..m])|, seps, TABLE[level]);
    }
  }

  lemma {:induction false} StartOfText(chunks: seq<string>, m: nat)
    requires m <= |chunks|
    ensures |Flatten(chunks[..m])| <= |Flatten(chunks)|
    ensures Flatten(chunks)[..|Flatten(chunks[..m])|] == Flatten(chunks[..m])
  {
    assert chunks == chunks[..m] + chunks[m..];
    FlattenAppend(chunks[..m], chunks[m..]);
  }

  /** Of the separators up to the level only those of the level can occur. */
  ghost predicate OnlyThese(s: string, seps: seq<string>, these: seq<string>) {
    forall k, i :: 0 <= k < |seps| && OccursAt(s, seps[k], i) ==> seps[k] in these
  }

  lemma AbsentUpto(s: string, level: nat)
    requires level < |TABLE| && forall l :: 0 <= l < level ==> Absent(s, TABLE[l])
    ensures OnlyThese(s, Upto(0, level), TABLE[level])
  {
    AbsentFrom(s, 0, level);
  }

  lemma {:induction false} AbsentFrom(s: string, first: nat, level: nat)
    requires first <= level < |TABLE| && forall l :: 0 <= l < level ==> Absent(s, TABLE[l])
    ensures OnlyThese(s, Upto(first, level), TABLE[level])
    decreases level - first
  {
    hide OccursAt, Levels;
    if first == level {
      LevelsFirst(TABLE, level, level);
    } else {
      LevelsFirst(TABLE, first, level);
      AbsentFrom(s, first + 1, level);
      assert Absent(s, TABLE[first]);
    }
  }

  lemma BehindPresent(s: string, j: nat, seps: seq<string>, these: seq<string>)
    requires j <= |s| && Behind(s[..j], seps) && OnlyThese(s, seps, these)
    ensures Behind(s[..j], these)
  {
    if j > 0 {
      var k :| 0 <= k < |seps| && EndsWith(s[..j], seps[k]);
      assert s[..j][j - |seps[k]|..] == s[j - |seps[k]|..j];
      assert OccursAt(s, seps[k], j - |seps[k]|);
      var n :| 0 <= n < |these| && these[n] == seps[k];
      assert EndsWith(s[..j], these[n]);
    }
  }

  lemma MoreStretchesFit(tok: Tokenizer, s: string, size: int, these: seq<string>, seps: seq<string>)
    requires StretchesFit(tok, s, size, these) && OnlyThese(s, seps, these)
    requires forall k :: 0 <= k < |these| ==> these[k] in seps
    ensures StretchesFit(tok, s, size, seps)
  {
    hide Behind, Unbroken, OnlyThese;
    forall i, j | Stretch(s, i, j, seps)
      ensures Fits(tok, s[i..j], size)
    {
      BehindPresent(s, i, seps, these);
      if j < |s| {
        BehindPresent(s, j, seps, these);
      }
      FewerUnbroken(s[i..j], seps, these);
      assert Stretch(s, i, j, these);
    }
  }

  lemma FewerUnbroken(x: string, seps: seq<string>, these: seq<string>)
    requires Unbroken(x, seps) && forall k :: 0 <= k < |these| ==> these[k] in seps
    ensures Unbroken(x, these)
  {
    forall k, i | 0 <= k < |these| && i + |these[k]| < |x|
      ensures !OccursAt(x, these[k], i)
    {
      var n :| 0 <= n < |seps| && seps[n] == these[k];
    }
  }

  /** When every paragraph is small enough, paragraphs stay whole: each boundary lies right
      behind a blank line. */
  lemma {:induction false} ParagraphsStayWhole(tok: Tokenizer, s: string, size: int, overlap: int)
    requires StretchesFit(tok, s, size, ["\n\n"])
    ensures var chunks := Split(tok, s, size, overlap, 0);
            && Flatten(chunks) == s
            && forall m :: 0 < m < |chunks| ==> EndsWith(Flatten(chunks[..m]), "\n\n")
  {
    hide Split, StretchesFit;
    SeparatorsAreTable(0);
    CutsAtFirstLevel(tok, s, size, overlap, 0);
    var chunks := Split(tok, s, size, overlap, 0);
    forall m | 0 < m < |chunks|
      ensures EndsWith(Flatten(chunks[..m]), "\n\n")
    {
      assert Behind(Flatten(chunks[..m]), TABLE[0]);
      StartNotEmpty(tok, s, size, overlap, m);
    }
  }

  lemma {:induction false} StartNotEmpty(tok: Tokenizer, s: string, size: int, overlap: int, m: nat)
    requires 0 < m <= |Split(tok, s, size, overlap, 0)|
    ensures Flatten(Split(tok, s, size, overlap, 0)[..m]) != ""
  {
    hide Split;
    SplitIsGood(tok, s, size, overlap, 0);
    var chunks := Split(tok, s, size, overlap, 0);
    assert GoodChunk(tok, chunks[0], size);
    assert chunks[..m][0] == chunks[0];
  }

  // ----- How much a chunk takes -----

  /** No two neighbouring chunks fit together, so a boundary is only where one is needed. */
  lemma {:induction false} ChunksAreFull(tok: Tokenizer, s: string, size: int, overlap: int, k: nat)
    requires SubstringClosed(tok, size) && k + 1 < |Split(tok, s, size, overlap, 0)|
    ensures var chunks := Split(tok, s, size, overlap, 0); !Fits(tok, chunks[k] + chunks[k + 1], size)
  {
    hide Split, SplitAll, Merge, SubstringClosed;
    SplitUnfolds(tok, s, size, overlap, 0);
    var parts := SplitAll(tok, Pieces(s, 0), size, overlap, 1);
    SplitAllIsGood(tok, Pieces(s, 0), size, overlap, 1);
    NoNeighboursFit(tok, "", parts, size, k);
  }

  // ----- Texts without separators -----

  /** The last m characters of the left half are small enough to be repeated. */
  predicate MayRepeat(tok: Tokenizer, s: string, overlap: int, m: nat) {
    m <= |s| / 2 && Fits(tok, s[|s| / 2 - m..|s| / 2], overlap)
  }

  /** How much of the left half is repeated at the start of the right one: of the second part
      of the left half as much as may be, counted from its end. */
  ghost predicate LongestOverlap(tok: Tokenizer, s: string, overlap: int, n: nat) {
    var p := |s| / 2;
    && n <= p - p / 2
    && (overlap <= 0 || p / 2 == 0 ==> n == 0)
    && (n > 0 ==> MayRepeat(tok, s, overlap, n))
    && (overlap > 0 && p / 2 > 0 ==> forall m: nat :: n < m <= p - p / 2 ==> !MayRepeat(tok, s, overlap, m))
  }

  lemma LongestIsUnique(tok: Tokenizer, s: string, overlap: int, m: nat, n: nat)
    requires LongestOverlap(tok, s, overlap, m) && LongestOverlap(tok, s, overlap, n)
    ensures m == n
  {
    hide MayRepeat;
  }

  lemma OverlapIsLongest(tok: Tokenizer, s: string, overlap: int)
    requires SuffixClosed(tok, overlap) && |s| > 1
    ensures var o := Overlap(tok, s[..|s| / 2], overlap);
            LongestOverlap(tok, s, overlap, |o|) && RightHalf(tok, s, overlap) == s[|s| / 2 - |o|..]
  {
    hide CutRight, SuffixClosed;
    var p := |s| / 2;
    var left := s[..p];
    var o := Overlap(tok, left, overlap);
    assert o == s[p - |o|..p] && o + s[p..] == s[p - |o|..];
    assert o != "" ==> MayRepeat(tok, s, overlap, |o|);
    hide MayRepeat, Overlap, RightHalf;
    if overlap > 0 && p / 2 > 0 {
      forall m: nat | |o| < m <= p - p / 2
        ensures !MayRepeat(tok, s, overlap, m)
      {
        LongerDoesNotFit(tok, s, overlap, m);
      }
    }
  }

  lemma LongerDoesNotFit(tok: Tokenizer, s: string, overlap: int, m: nat)
    requires SuffixClosed(tok, overlap) && overlap > 0 && |s| / 2 / 2 > 0
    requires |Overlap(tok, s[..|s| / 2], overlap)| < m <= |s| / 2 - |s| / 2 / 2
    ensures !MayRepeat(tok, s, overlap, m)
  {
    hide CutRight, SuffixClosed;
    var p := |s| / 2;
    var mid := p / 2;
    var second := s[..p][mid..];
    assert second[p - mid - m..] == s[p - m..p];
    if Fits(tok, s[p - m..p], overlap) {
      CutRightIsLongest(tok, second, overlap, p - mid - m);
    }
  }

  /** Below the last level a text that is too large is halved, and the right half starts with
      the longest possible repetition. */
  lemma HalvesOverlap(tok: Tokenizer, s: string, size: int, overlap: int, level: nat) returns (n: nat)
    requires SuffixClosed(tok, overlap) && |s| > 1 && !Fits(tok, s, size) && level >= LEVELS
    ensures LongestOverlap(tok, s, overlap, n)
    ensures Split(tok, s, size, overlap, level)
         == Split(tok, s[..|s| / 2], size, overlap, level + 1) + Split(tok, s[|s| / 2 - n..], size, overlap, level + 1)
  {
    hide Split, SuffixClosed, RightHalf;
    OverlapIsLongest(tok, s, overlap);
    n := |Overlap(tok, s[..|s| / 2], overlap)|;
    SplitUnfolds(tok, s, size, overlap, level);
  }

  lemma {:induction false} CutNowhere(s: string, seps: seq<string>)
    requires NonEmptySeparators(seps) && Absent(s, seps)
    ensures CutLevel([s], seps) == [s]
    decreases |seps|
  {
    hide SplitOn, IndexOf, OccursAt;
    if seps != [] {
      assert forall j :: 0 <= j ==> !OccursAt(s, seps[0], j);
      IndexIsFirst(s, seps[0], 0);
      SplitOnUnfolds(s, seps[0]);
      KeepSeparatorsOne(s, seps[0]);
      assert [s][1..] == [] && CutAll([s], seps[0]) == [s] + CutAll([], seps[0]) == [s];
      CutNowhere(s, seps[1..]);
    }
  }

  lemma AbsentPieces(s: string, level: nat)
    requires level < LEVELS && |TABLE| == LEVELS && Absent(s, TABLE[level])
    ensures Pieces(s, level) == [s]
  {
    hide Separators, CutLevel, Absent;
    SeparatorsAreTable(level);
    CutNowhere(s, TABLE[level]);
  }

  ghost predicate AbsentLevels(s: string, first: nat, last: nat)
    requires last <= |TABLE|
  {
    forall l :: first <= l < last ==> Absent(s, TABLE[l])
  }

  /** Levels whose separators do not occur in a text leave it to the levels below. */
  lemma {:induction false} SplitBelow(tok: Tokenizer, s: string, size: int, overlap: int, level: nat, last: nat,
                                      chunks: seq<string>)
    requires |s| > 1 && !Fits(tok, s, size) && level <= last <= LEVELS && |TABLE| == LEVELS && AbsentLevels(s, level, last)
    requires Split(tok, s, size, overlap, last) == chunks && Merge(tok, "", chunks, size) == chunks
    ensures Split(tok, s, size, overlap, level) == chunks
    decreases last - level
  {
    hide Split, SplitAll, Merge, Pieces, Absent;
    if level < last {
      SplitBelow(tok, s, size, overlap, level + 1, last, chunks);
      assert Absent(s, TABLE[level]);
      AbsentPieces(s, level);
      SplitUnfolds(tok, s, size, overlap, level);
      OneToSplit(tok, s, size, overlap, level + 1);
    }
  }

  lemma {:induction false} OneToSplit(tok: Tokenizer, s: string, size: int, overlap: int, level: nat)
    ensures SplitAll(tok, [s], size, overlap, level) == Split(tok, s, size, overlap, level)
  {
    hide Split, SplitAll;
    SplitAllUnfolds(tok, [s], size, overlap, level);
    assert [s][1..] == [];
    SplitAllUnfolds(tok, [], size, overlap, level);
    assert Split(tok, s, size, overlap, level) + [] == Split(tok, s, size, overlap, level);
  }

  lemma {:induction false} TwoStay(tok: Tokenizer, a: string, b: string, size: int)
    requires a != "" && b != "" && !Fits(tok, a + b, size)
    ensures Merge(tok, "", [a, b], size) == [a, b]
  {
    assert [a, b][1..] == [b] && [b][1..] == [];
    assert Merge(tok, b, [], size) == [b];
    assert Merge(tok, a, [b], size) == [a] + Merge(tok, b, [], size);
  }

  // ----- Chunks of a part -----

  function Contents(parts: seq<PartValue>): (r: seq<string>)
    ensures |r| == |parts| && forall i :: 0 <= i < |r| ==> r[i] == parts[i].content
  {
    seq(|parts|, i requires 0 <= i < |parts| => parts[i].content)
  }

  lemma ExpandedContents(cfg: Config, p: PartValue)
    requires !p.faq && Tokens(cfg, p) > cfg.size
    ensures Contents(Expand(cfg, p)) == Split(cfg.tokenizer, p.content, cfg.size, cfg.overlap, 0)
    ensures forall q <- Expand(cfg, p) :: q == p.(content := q.content, level := None, splitted := true)
  {
    hide Split;
  }

  /** An oversized part is cut behind separators of the levels that make it small enough, and
      its chunks are full. */
  lemma PartIsCutBehindSeparators(cfg: Config, p: PartValue, last: nat)
    requires !p.faq && Tokens(cfg, p) > cfg.size
    requires last < LEVELS && |TABLE| == LEVELS && StretchesFit(cfg.tokenizer, p.content, cfg.size, Upto(0, last))
    ensures var chunks := Contents(Expand(cfg, p));
            && Flatten(chunks) == p.content && EndsAtCuts(chunks, Upto(0, last))
            && (SubstringClosed(cfg.tokenizer, cfg.size) ==>
                  forall k :: 0 < k < |chunks| ==> !Fits(cfg.tokenizer, chunks[k - 1] + chunks[k], cfg.size))
    ensures forall q <- Expand(cfg, p) :: q == p.(content := q.content, level := None, splitted := true)
  {
    hide Split, Expand, StretchesFit, SubstringClosed, EndsAtCuts, Contents;
    var chunks := Split(cfg.tokenizer, p.content, cfg.size, cfg.overlap, 0);
    ExpandedContents(cfg, p);
    CutsBehindSeparators(cfg.tokenizer, p.content, cfg.size, cfg.overlap, last);
    if SubstringClosed(cfg.tokenizer, cfg.size) {
      forall k | 0 < k < |chunks|
        ensures !Fits(cfg.tokenizer, chunks[k - 1] + chunks[k], cfg.size)
      {
        ChunksAreFull(cfg.tokenizer, p.content, cfg.size, cfg.overlap, k - 1);
      }
    }
  }

  /** An oversized part without separators whose halves are small enough, but not together,
      becomes these two, the right one with the longest possible repetition in front. */
  lemma PartIsHalved(cfg: Config, p: PartValue, n: nat)
    requires !p.faq && Tokens(cfg, p) > cfg.size && |p.content| > 1
    requires SuffixClosed(cfg.tokenizer, cfg.overlap) && LongestOverlap(cfg.tokenizer, p.content, cfg.overlap, n)
    requires |TABLE| == LEVELS && AbsentLevels(p.content, 0, LEVELS)
    requires var left, right := p.content[..|p.content| / 2], p.content[|p.content| / 2 - n..];
             && Fits(cfg.tokenizer, left, cfg.size) && Fits(cfg.tokenizer, right, cfg.size)
             && !Fits(cfg.tokenizer, left + right, cfg.size)
    ensures Contents(Expand(cfg, p)) == [p.content[..|p.content| / 2], p.content[|p.content| / 2 - n..]]
  {
    hide Split, Expand, SuffixClosed, AbsentLevels, Merge, Contents;
    var tok, s := cfg.tokenizer, p.content;
    var left, right := s[..|s| / 2], s[|s| / 2 - n..];
    ExpandedContents(cfg, p);
    var m := HalvesOverlap(tok, s, cfg.size, cfg.overlap, LEVELS);
    LongestIsUnique(tok, s, cfg.overlap, m, n);
    SplitUnfolds(tok, left, cfg.size, cfg.overlap, LEVELS + 1);
    SplitUnfolds(tok, right, cfg.size, cfg.overlap, LEVELS + 1);
    TwoStay(tok, left, right, cfg.size);
    SplitBelow(tok, s, cfg.size, cfg.overlap, 0, LEVELS, [left, right]);
  }
}
