/** The semantic text splitter: eleven levels of separators, then halving with
    overlap, then greedy re-merging. The tokenizer is an arbitrary function that
    gives the number of tokens of a text. */
module Splitter {
  import opened Common

  type Tokenizer = string -> nat

  const LEVELS: nat := 11

  predicate Fits(tok: Tokenizer, s: string, size: int) {
    tok(s) <= size
  }

  predicate NonEmptySeparators(seps: seq<string>) {
    forall k :: 0 <= k < |seps| ==> seps[k] != ""
  }

  /** The separators of one level, from paragraph breaks down to blanks. */
  function Separators(level: nat): (seps: seq<string>)
    requires level < LEVELS
    ensures NonEmptySeparators(seps)
  {
    if level == 0 then ["\n\n"]
    else if level == 1 then ["\n"]
    else if level == 2 then ["\U{3002}\U{201D}", "\U{FF01}\U{201D}", "\U{FF1F}\U{201D}"]
    else if level == 3 then [".\"", "!\"", "?\""]
    else if level == 4 then ["\U{3002}", "\U{FF01}", "\U{FF1F}"]
    else if level == 5 then [".", "!", "?"]
    else if level == 6 then ["\U{FF1B}", "\U{FF0C}", "\U{3001}"]
    else if level == 7 then [";", ","]
    else if level == 8 then ["\U{300B}", "\U{FF09}", "\U{3011}", "\U{300D}", "\U{2019}", "\U{201D}"]
    else if level == 9 then ["\U{201C}", ">", ")", "]", "}", "'", "\""]
    else [" ", "\t"]
  }

  // ----- Cutting at separators -----

  /** First position at or after i where sep occurs in s, or -1. */
  function IndexOf(s: string, sep: string, i: nat): (r: int)
    requires sep != "" && i <= |s|
    ensures r == -1 || (i <= r && r + |sep| <= |s| && s[r..r + |sep|] == sep)
    decreases |s| - i
  {
    if i + |sep| > |s| then -1
    else if s[i..i + |sep|] == sep then i
    else IndexOf(s, sep, i + 1)
  }

  /** Python's s.split(sep). */
  function SplitOn(s: string, sep: string): (parts: seq<string>)
    requires sep != ""
    ensures parts != []
    decreases |s|
  {
    var i := IndexOf(s, sep, 0);
    if i < 0 then [s] else [s[..i]] + SplitOn(s[i + |sep|..], sep)
  }

  /** Gives each part but the last its separator back. */
  function KeepSeparators(parts: seq<string>, sep: string): seq<string>
    requires parts != []
  {
    if |parts| == 1 then parts else [parts[0] + sep] + KeepSeparators(parts[1..], sep)
  }

  function CutAll(chunks: seq<string>, sep: string): seq<string>
    requires sep != ""
  {
    if chunks == [] then []
    else KeepSeparators(SplitOn(chunks[0], sep), sep) + CutAll(chunks[1..], sep)
  }

  function CutLevel(chunks: seq<string>, seps: seq<string>): seq<string>
    requires NonEmptySeparators(seps)
    decreases |seps|
  {
    if seps == [] then chunks else CutLevel(CutAll(chunks, seps[0]), seps[1..])
  }

  lemma {:induction false} SplitOnUnfolds(s: string, sep: string)
    requires sep != ""
    ensures var i := IndexOf(s, sep, 0);
            SplitOn(s, sep) == if i < 0 then [s] else [s[..i]] + SplitOn(s[i + |sep|..], sep)
  {
    hide IndexOf;
  }

  lemma {:induction false} KeepSeparatorsOne(part: string, sep: string)
    ensures KeepSeparators([part], sep) == [part]
  {
  }

  lemma {:induction false} KeepSeparatorsStep(part: string, parts: seq<string>, sep: string)
    requires parts != []
    ensures Flatten(KeepSeparators([part] + parts, sep)) == part + sep + Flatten(KeepSeparators(parts, sep))
  {
    assert ([part] + parts)[1..] == parts;
    var kept := [part + sep] + KeepSeparators(parts, sep);
    assert kept[1..] == KeepSeparators(parts, sep);
  }

  lemma {:induction false} SplitOnKeepsText(s: string, sep: string)
    requires sep != ""
    ensures Flatten(KeepSeparators(SplitOn(s, sep), sep)) == s
    decreases |s|
  {
    hide IndexOf, KeepSeparators, SplitOn;
    SplitOnUnfolds(s, sep);
    var i := IndexOf(s, sep, 0);
    if i < 0 {
      KeepSeparatorsOne(s, sep);
      assert Flatten([s]) == s + Flatten<char>([]);
    } else {
      var rest := s[i + |sep|..];
      SplitOnKeepsText(rest, sep);
      KeepSeparatorsStep(s[..i], SplitOn(rest, sep), sep);
      assert s == s[..i] + s[i..i + |sep|] + s[i + |sep|..];
    }
  }

  lemma {:induction false} CutAllKeepsText(chunks: seq<string>, sep: string)
    requires sep != ""
    ensures Flatten(CutAll(chunks, sep)) == Flatten(chunks)
  {
    if chunks != [] {
      SplitOnKeepsText(chunks[0], sep);
      CutAllKeepsText(chunks[1..], sep);
      FlattenAppend(KeepSeparators(SplitOn(chunks[0], sep), sep), CutAll(chunks[1..], sep));
    }
  }

  lemma {:induction false} CutLevelKeepsText(chunks: seq<string>, seps: seq<string>)
    requires NonEmptySeparators(seps)
    ensures Flatten(CutLevel(chunks, seps)) == Flatten(chunks)
    decreases |seps|
  {
    if seps != [] {
      CutAllKeepsText(chunks, seps[0]);
      CutLevelKeepsText(CutAll(chunks, seps[0]), seps[1..]);
    }
  }

  // ----- The right-hand overlap -----

  /** Binary search for a cut point whose suffix fits. */
  function CutPoint(tok: Tokenizer, s: string, size: int, left: nat, right: nat): (p: nat)
    requires left <= right <= |s|
    requires right == |s| || Fits(tok, s[right..], size)
    ensures left <= p <= right
    ensures p == |s| || Fits(tok, s[p..], size)
    decreases right - left
  {
    if left == right then left
    else
      var mid := (left + right) / 2;
      if Fits(tok, s[mid..], size) then CutPoint(tok, s, size, left, mid)
      else CutPoint(tok, s, size, mid + 1, right)
  }

  function CutRight(tok: Tokenizer, s: string, size: int): (r: string)
    ensures |r| <= |s| && r == s[|s| - |r|..]
    ensures r == "" || Fits(tok, r, size)
  {
    if s == "" || Fits(tok, s, size) then s
    else if |s| <= 1 then ""
    else s[CutPoint(tok, s, size, 0, |s|)..]
  }

  ghost predicate SuffixFits(tok: Tokenizer, size: int, s: string, k: nat)
    requires k <= |s|
  {
    Fits(tok, s, size) ==> Fits(tok, s[k..], size)
  }

  /** Shortening a text that fits from the left leaves a text that fits. */
  ghost predicate SuffixClosed(tok: Tokenizer, size: int) {
    forall s: string, k: nat | k <= |s| :: SuffixFits(tok, size, s, k)
  }

  lemma SuffixStillFits(tok: Tokenizer, s: string, size: int, k: nat, m: nat)
    requires SuffixClosed(tok, size)
    requires k <= m <= |s| && Fits(tok, s[k..], size)
    ensures Fits(tok, s[m..], size)
  {
    assert SuffixFits(tok, size, s[k..], m - k);
    assert s[m..] == s[k..][m - k..];
  }

  lemma CutPointUnfolds(tok: Tokenizer, s: string, size: int, left: nat, right: nat)
    requires left <= right <= |s|
    requires right == |s| || Fits(tok, s[right..], size)
    ensures left < right ==>
              var mid := (left + right) / 2;
              CutPoint(tok, s, size, left, right) ==
              if Fits(tok, s[mid..], size) then CutPoint(tok, s, size, left, mid)
              else CutPoint(tok, s, size, mid + 1, right)
    ensures left == right ==> CutPoint(tok, s, size, left, right) == left
  {
  }

  lemma {:induction false} CutPointIsLeast(tok: Tokenizer, s: string, size: int, left: nat, right: nat, k: nat)
    requires SuffixClosed(tok, size)
    requires left <= right <= |s|
    requires right == |s| || Fits(tok, s[right..], size)
    requires left <= k < |s| && Fits(tok, s[k..], size)
    ensures CutPoint(tok, s, size, left, right) <= k
    decreases right - left
  {
    hide SuffixClosed, CutPoint;
    CutPointUnfolds(tok, s, size, left, right);
    if left < right {
      var mid := (left + right) / 2;
      if k <= mid {
        SuffixStillFits(tok, s, size, k, mid);
      }
      if Fits(tok, s[mid..], size) {
        CutPointIsLeast(tok, s, size, left, mid, k);
      } else {
        CutPointIsLeast(tok, s, size, mid + 1, right, k);
      }
    }
  }

  /** When fitting is closed under suffixes, the overlap is the longest suffix that fits. */
  lemma CutRightIsLongest(tok: Tokenizer, s: string, size: int, k: nat)
    requires SuffixClosed(tok, size)
    requires k < |s| && Fits(tok, s[k..], size)
    ensures |s| - k <= |CutRight(tok, s, size)|
  {
    assert k == 0 ==> s[k..] == s;
    if !Fits(tok, s, size) {
      CutPointIsLeast(tok, s, size, 0, |s|, k);
    }
  }

  method CutRightSide(tok: Tokenizer, s: string, size: int) returns (r: string)
    ensures r == CutRight(tok, s, size)
  {
    if |s| == 0 || Fits(tok, s, size) {
      return s;
    }
    if |s| <= 1 {
      return "";
    }
    var left, right := 0, |s|;
    while left < right
      invariant left <= right <= |s|
      invariant right == |s| || Fits(tok, s[right..], size)
      invariant CutPoint(tok, s, size, left, right) == CutPoint(tok, s, size, 0, |s|)
    {
      var mid := (left + right) / 2;
      if Fits(tok, s[mid..], size) {
        right := mid;
      } else {
        left := mid + 1;
      }
    }
    return s[left..];
  }

  /** The text repeated at the start of the right half; never the whole left half. */
  function Overlap(tok: Tokenizer, left: string, overlap: int): (o: string)
    ensures |o| <= |left| && o == left[|left| - |o|..]
    ensures o != "" ==> overlap > 0 && Fits(tok, o, overlap) && |o| < |left|
  {
    var mid := |left| / 2;
    if overlap > 0 && mid > 0 then CutRight(tok, left[mid..], overlap) else ""
  }

  // ----- Greedy merging -----

  /** Greedy merging with cur as the chunk being built ("" for none). */
  function Merge(tok: Tokenizer, cur: string, chunks: seq<string>, size: int): seq<string>
    decreases |chunks|
  {
    if chunks == [] then
      if cur == "" then [] else [cur]
    else if cur == "" then Merge(tok, chunks[0], chunks[1..], size)
    else if Fits(tok, cur + chunks[0], size) then Merge(tok, cur + chunks[0], chunks[1..], size)
    else [cur] + Merge(tok, chunks[0], chunks[1..], size)
  }

  method MergeSmallChunks(tok: Tokenizer, chunks: seq<string>, size: int) returns (merged: seq<string>)
    ensures merged == Merge(tok, "", chunks, size)
  {
    merged := [];
    var cur := "";
    for i := 0 to |chunks|
      invariant merged + Merge(tok, cur, chunks[i..], size) == Merge(tok, "", chunks, size)
    {
      if |cur| == 0 {
        cur := chunks[i];
        continue;
      }
      if Fits(tok, cur + chunks[i], size) {
        cur := cur + chunks[i];
      } else {
        merged := merged + [cur];
        cur := chunks[i];
      }
    }
    if |cur| > 0 {
      merged := merged + [cur];
    }
  }

  // ----- The recursive splitter -----

  function LevelsLeft(level: nat): nat {
    if level < LEVELS then LEVELS - level else 0
  }

  /** The text cut at the separators of one level. */
  function Pieces(s: string, level: nat): (pieces: seq<string>)
    requires level < LEVELS
    ensures Flatten(pieces) == s
  {
    CutLevelKeepsText([s], Separators(level));
    assert Flatten([s]) == s + Flatten<char>([]) == s;
    CutLevel([s], Separators(level))
  }

  /** The right half of a text, starting with the overlap. */
  function RightHalf(tok: Tokenizer, s: string, overlap: int): (r: string)
    requires |s| > 1
    ensures |s| - |s| / 2 <= |r| < |s| && r == s[|s| - |r|..]
    ensures |s| - |r| == |s| / 2 || (overlap > 0 && Fits(tok, s[|s| - |r|..|s| / 2], overlap))
  {
    var p := |s| / 2;
    var o := Overlap(tok, s[..p], overlap);
    assert o == s[p - |o|..p];
    o + s[p..]
  }

  function Split(tok: Tokenizer, s: string, size: int, overlap: int, level: nat): seq<string>
    decreases |s|, LevelsLeft(level), 0
  {
    if s == "" then []
    else if |s| <= 1 || Fits(tok, s, size) then [s]
    else if level >= LEVELS then
      Split(tok, s[..|s| / 2], size, overlap, level + 1)
      + Split(tok, RightHalf(tok, s, overlap), size, overlap, level + 1)
    else
      Merge(tok, "", SplitAll(tok, Pieces(s, level), size, overlap, level + 1), size)
  }

  function SplitAll(tok: Tokenizer, chunks: seq<string>, size: int, overlap: int, level: nat): seq<string>
    decreases |Flatten(chunks)|, LevelsLeft(level), |chunks|
  {
    if chunks == [] then []
    else
      Split(tok, chunks[0], size, overlap, level) + SplitAll(tok, chunks[1..], size, overlap, level)
  }

  method CutAtSeparators(s: string, seps: seq<string>) returns (chunks: seq<string>)
    requires NonEmptySeparators(seps)
    ensures chunks == CutLevel([s], seps)
  {
    chunks := [s];
    for i := 0 to |seps|
      invariant CutLevel(chunks, seps[i..]) == CutLevel([s], seps)
    {
      var newChunks := [];
      for k := 0 to |chunks|
        invariant newChunks + CutAll(chunks[k..], seps[i]) == CutAll(chunks, seps[i])
      {
        var parts := SplitOn(chunks[k], seps[i]);
        newChunks := newChunks + KeepSeparators(parts, seps[i]);
      }
      assert newChunks + [] == newChunks;
      assert seps[i..][0] == seps[i] && seps[i..][1..] == seps[i + 1..];
      chunks := newChunks;
    }
  }

  lemma SplitUnfolds(tok: Tokenizer, s: string, size: int, overlap: int, level: nat)
    ensures s == "" ==> Split(tok, s, size, overlap, level) == []
    ensures |s| == 1 || (s != "" && Fits(tok, s, size)) ==> Split(tok, s, size, overlap, level) == [s]
    ensures |s| > 1 && !Fits(tok, s, size) && level >= LEVELS ==>
              Split(tok, s, size, overlap, level) == Split(tok, s[..|s| / 2], size, overlap, level + 1)
                                                   + Split(tok, RightHalf(tok, s, overlap), size, overlap, level + 1)
    ensures |s| > 1 && !Fits(tok, s, size) && level < LEVELS ==>
              Split(tok, s, size, overlap, level)
              == Merge(tok, "", SplitAll(tok, Pieces(s, level), size, overlap, level + 1), size)
  {
    hide SplitAll, Merge, Pieces, RightHalf;
  }

  lemma {:induction false} SplitAllStep(tok: Tokenizer, chunks: seq<string>, k: nat, size: int, overlap: int, level: nat)
    requires k < |chunks|
    ensures SplitAll(tok, chunks[k..], size, overlap, level)
         == Split(tok, chunks[k], size, overlap, level) + SplitAll(tok, chunks[k + 1..], size, overlap, level)
  {
    assert chunks[k..][0] == chunks[k] && chunks[k..][1..] == chunks[k + 1..];
  }

  method RecursiveSplit(tok: Tokenizer, s: string, size: int, overlap: int, level: nat)
    returns (chunks: seq<string>)
    ensures chunks == Split(tok, s, size, overlap, level)
    decreases |s|, LevelsLeft(level), 0
  {
    hide Split, SplitAll, Merge, Separators, CutLevel, CutRight;
    SplitUnfolds(tok, s, size, overlap, level);
    if |s| == 0 {
      return [];
    }
    if |s| <= 1 || Fits(tok, s, size) {
      return [s];
    }
    if level >= LEVELS {
      var p := |s| / 2;
      var left := RecursiveSplit(tok, s[..p], size, overlap, level + 1);
      var lap := "";
      if overlap > 0 {
        var mid := p / 2;
        if mid > 0 {
          lap := CutRightSide(tok, s[..p][mid..], overlap);
        }
      }
      assert lap + s[p..] == RightHalf(tok, s, overlap);
      var right := RecursiveSplit(tok, lap + s[p..], size, overlap, level + 1);
      return left + right;
    }
    var pieces := CutAtSeparators(s, Separators(level));
    assert pieces == Pieces(s, level);
    pieces := SplitPieces(tok, pieces, size, overlap, level + 1);
    chunks := MergeSmallChunks(tok, pieces, size);
  }

  method SplitPieces(tok: Tokenizer, chunks: seq<string>, size: int, overlap: int, level: nat)
    returns (pieces: seq<string>)
    ensures pieces == SplitAll(tok, chunks, size, overlap, level)
    decreases |Flatten(chunks)|, LevelsLeft(level), 1
  {
    hide Split;
    pieces := [];
    for k := 0 to |chunks|
      invariant pieces + SplitAll(tok, chunks[k..], size, overlap, level)
             == SplitAll(tok, chunks, size, overlap, level)
    {
      FlattenMemberLength(chunks, k);
      SplitAllStep(tok, chunks, k, size, overlap, level);
      var parts := RecursiveSplit(tok, chunks[k], size, overlap, level);
      pieces := pieces + parts;
    }
  }
}
