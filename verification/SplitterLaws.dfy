/** What the splitter promises: every chunk is small enough or unsplittable, the
    chunks retrace the text, and greedy merging is optimal. */
module SplitterLaws {
  import opened Common
  import opened Splitter

  // ----- Chunks are small enough or unsplittable -----

  predicate GoodChunk(tok: Tokenizer, c: string, size: int) {
    c != "" && (Fits(tok, c, size) || |c| == 1)
  }

  predicate GoodChunks(tok: Tokenizer, chunks: seq<string>, size: int) {
    forall k :: 0 <= k < |chunks| ==> GoodChunk(tok, chunks[k], size)
  }

  lemma {:induction false} MergeKeepsGood(tok: Tokenizer, cur: string, chunks: seq<string>, size: int)
    requires cur == "" || GoodChunk(tok, cur, size)
    requires GoodChunks(tok, chunks, size)
    ensures GoodChunks(tok, Merge(tok, cur, chunks, size), size)
    decreases |chunks|
  {
    if chunks != [] {
      var next := if cur != "" && Fits(tok, cur + chunks[0], size) then cur + chunks[0] else chunks[0];
      MergeKeepsGood(tok, next, chunks[1..], size);
    }
  }

  lemma {:induction false} SplitIsGood(tok: Tokenizer, s: string, size: int, overlap: int, level: nat)
    ensures GoodChunks(tok, Split(tok, s, size, overlap, level), size)
    decreases |s|, LevelsLeft(level), 0
  {
    hide Split, SplitAll, Merge, Pieces, RightHalf;
    SplitUnfolds(tok, s, size, overlap, level);
    if |s| <= 1 || Fits(tok, s, size) {
    } else if level >= LEVELS {
      SplitIsGood(tok, s[..|s| / 2], size, overlap, level + 1);
      SplitIsGood(tok, RightHalf(tok, s, overlap), size, overlap, level + 1);
    } else {
      SplitAllIsGood(tok, Pieces(s, level), size, overlap, level + 1);
      MergeKeepsGood(tok, "", SplitAll(tok, Pieces(s, level), size, overlap, level + 1), size);
    }
  }

  lemma {:induction false} SplitAllIsGood(tok: Tokenizer, chunks: seq<string>, size: int, overlap: int, level: nat)
    ensures GoodChunks(tok, SplitAll(tok, chunks, size, overlap, level), size)
    decreases |Flatten(chunks)|, LevelsLeft(level), |chunks|
  {
    hide Split;
    if chunks != [] {
      SplitIsGood(tok, chunks[0], size, overlap, level);
      SplitAllIsGood(tok, chunks[1..], size, overlap, level);
    }
  }

  // ----- Nothing is lost or reordered -----

  /** One step of a walk through s: forward by one character, or, only with
      overlap on, back over a text that fits the overlap. */
  predicate Step(tok: Tokenizer, overlap: int, s: string, a: nat, b: nat)
    requires a < |s| && b < |s|
  {
    b == a + 1 || (overlap > 0 && b <= a && Fits(tok, s[b..a + 1], overlap))
  }

  /** The index walk w reads out off s, from its first character to its last. */
  ghost predicate Walk(tok: Tokenizer, overlap: int, s: string, out: string, w: seq<nat>) {
    && |w| == |out|
    && (forall i :: 0 <= i < |w| ==> w[i] < |s| && s[w[i]] == out[i])
    && (s == "" <==> w == [])
    && (w != [] ==> w[0] == 0 && Last(w) == |s| - 1)
    && (forall i :: 0 < i < |w| ==> Step(tok, overlap, s, w[i - 1], w[i]))
  }

  function Shift(w: seq<nat>, k: nat): (r: seq<nat>)
    ensures |r| == |w| && forall i :: 0 <= i < |w| ==> r[i] == w[i] + k
  {
    seq(|w|, i requires 0 <= i < |w| => w[i] + k)
  }

  /** A walk over s[..p] and one over s[k..] make one over s, when the jump back
      from p to k is allowed. */
  lemma JoinWalks(tok: Tokenizer, overlap: int, s: string, p: nat, k: nat,
                  out1: string, w1: seq<nat>, out2: string, w2: seq<nat>)
    requires k <= p <= |s|
    requires Walk(tok, overlap, s[..p], out1, w1) && Walk(tok, overlap, s[k..], out2, w2)
    requires k == p || (overlap > 0 && p < |s| && Fits(tok, s[k..p], overlap))
    ensures Walk(tok, overlap, s, out1 + out2, w1 + Shift(w2, k))
  {
    var w := w1 + Shift(w2, k);
    assert p == |s| ==> w2 == [];
    forall i | 0 <= i < |w|
      ensures w[i] < |s| && s[w[i]] == (out1 + out2)[i]
    {
      assert i < |w1| ==> s[..p][w1[i]] == s[w1[i]];
    }
    forall i | 0 < i < |w|
      ensures Step(tok, overlap, s, w[i - 1], w[i])
    {
      StepOfJoin(tok, overlap, s, p, k, out1, w1, out2, w2, i);
    }
  }

  lemma StepOfJoin(tok: Tokenizer, overlap: int, s: string, p: nat, k: nat,
                   out1: string, w1: seq<nat>, out2: string, w2: seq<nat>, i: nat)
    requires k <= p <= |s|
    requires Walk(tok, overlap, s[..p], out1, w1) && Walk(tok, overlap, s[k..], out2, w2)
    requires k == p || (overlap > 0 && p < |s| && Fits(tok, s[k..p], overlap))
    requires 0 < i < |w1| + |w2|
    ensures var w := w1 + Shift(w2, k);
            w[i - 1] < |s| && w[i] < |s| && Step(tok, overlap, s, w[i - 1], w[i])
  {
    if i < |w1| {
      assert Step(tok, overlap, s[..p], w1[i - 1], w1[i]);
      assert s[0..p] == s[..p];
      StepInside(tok, overlap, s, 0, p, w1[i - 1], w1[i]);
    } else if i > |w1| {
      var a, b := w2[i - 1 - |w1|], w2[i - |w1|];
      assert Step(tok, overlap, s[k..], a, b);
      assert s[k..|s|] == s[k..];
      StepInside(tok, overlap, s, k, |s|, a, b);
    }
  }

  lemma StepInside(tok: Tokenizer, overlap: int, s: string, k: nat, m: nat, a: nat, b: nat)
    requires k <= m <= |s| && a < m - k && b < m - k
    requires Step(tok, overlap, s[k..m], a, b)
    ensures Step(tok, overlap, s, k + a, k + b)
  {
    if b != a + 1 {
      SliceOfSlice(s, k, m, b, a + 1);
      assert k + (a + 1) == (k + a) + 1;
    }
  }

  lemma SliceOfSlice(s: string, k: nat, m: nat, x: nat, y: nat)
    requires k <= m <= |s| && x <= y <= m - k
    ensures s[k..m][x..y] == s[k + x..k + y]
  {
    var a, b := s[k..m][x..y], s[k + x..k + y];
    assert |a| == y - x && |b| == y - x;
    forall i | 0 <= i < y - x
      ensures a[i] == b[i]
    {
      assert a[i] == s[k..m][x + i] == s[k + (x + i)];
    }
  }

  lemma {:induction false} MergeKeepsText(tok: Tokenizer, cur: string, chunks: seq<string>, size: int)
    ensures Flatten(Merge(tok, cur, chunks, size)) == cur + Flatten(chunks)
    decreases |chunks|
  {
    if chunks == [] {
      assert Flatten([cur]) == cur + Flatten<char>([]);
    } else if cur == "" {
      MergeKeepsText(tok, chunks[0], chunks[1..], size);
    } else if Fits(tok, cur + chunks[0], size) {
      MergeKeepsText(tok, cur + chunks[0], chunks[1..], size);
      assert cur + chunks[0] + Flatten(chunks[1..]) == cur + Flatten(chunks);
    } else {
      MergeKeepsText(tok, chunks[0], chunks[1..], size);
      assert Merge(tok, cur, chunks, size)[1..] == Merge(tok, chunks[0], chunks[1..], size);
    }
  }

  /** The chunks of a text, read one after the other, walk through the text. */
  lemma {:induction false} SplitWalks(tok: Tokenizer, s: string, size: int, overlap: int, level: nat)
    returns (w: seq<nat>)
    ensures Walk(tok, overlap, s, Flatten(Split(tok, s, size, overlap, level)), w)
    decreases |s|, LevelsLeft(level), 0
  {
    hide Split, SplitAll, Merge, Pieces, RightHalf;
    SplitUnfolds(tok, s, size, overlap, level);
    if s == "" {
      w := [];
    } else if |s| <= 1 || Fits(tok, s, size) {
      assert Flatten([s]) == s + Flatten<char>([]) == s;
      w := seq(|s|, i => i);
    } else if level >= LEVELS {
      var p, right := |s| / 2, RightHalf(tok, s, overlap);
      var w1 := SplitWalks(tok, s[..p], size, overlap, level + 1);
      var w2 := SplitWalks(tok, right, size, overlap, level + 1);
      w := JoinHalves(tok, s, size, overlap, level, w1, w2);
    } else {
      var pieces := Pieces(s, level);
      w := SplitAllWalks(tok, pieces, size, overlap, level + 1);
      MergeKeepsText(tok, "", SplitAll(tok, pieces, size, overlap, level + 1), size);
    }
  }

  lemma JoinHalves(tok: Tokenizer, s: string, size: int, overlap: int, level: nat, w1: seq<nat>, w2: seq<nat>)
    returns (w: seq<nat>)
    requires |s| > 1
    requires Walk(tok, overlap, s[..|s| / 2], Flatten(Split(tok, s[..|s| / 2], size, overlap, level + 1)), w1)
    requires Walk(tok, overlap, RightHalf(tok, s, overlap),
                  Flatten(Split(tok, RightHalf(tok, s, overlap), size, overlap, level + 1)), w2)
    ensures Walk(tok, overlap, s, Flatten(Split(tok, s[..|s| / 2], size, overlap, level + 1)
                                        + Split(tok, RightHalf(tok, s, overlap), size, overlap, level + 1)), w)
  {
    hide Split, Walk;
    var left := Split(tok, s[..|s| / 2], size, overlap, level + 1);
    var right := Split(tok, RightHalf(tok, s, overlap), size, overlap, level + 1);
    var k := |s| - |RightHalf(tok, s, overlap)|;
    FlattenAppend(left, right);
    JoinWalks(tok, overlap, s, |s| / 2, k, Flatten(left), w1, Flatten(right), w2);
    w := w1 + Shift(w2, k);
  }

  lemma {:induction false} SplitAllWalks(tok: Tokenizer, chunks: seq<string>, size: int, overlap: int, level: nat)
    returns (w: seq<nat>)
    ensures Walk(tok, overlap, Flatten(chunks), Flatten(SplitAll(tok, chunks, size, overlap, level)), w)
    decreases |Flatten(chunks)|, LevelsLeft(level), |chunks|
  {
    hide Split;
    if chunks == [] {
      w := [];
    } else {
      var s := Flatten(chunks);
      var p := |chunks[0]|;
      var w1 := SplitWalks(tok, chunks[0], size, overlap, level);
      var w2 := SplitAllWalks(tok, chunks[1..], size, overlap, level);
      assert s[..p] == chunks[0] && s[p..] == Flatten(chunks[1..]);
      var first, rest := Split(tok, chunks[0], size, overlap, level), SplitAll(tok, chunks[1..], size, overlap, level);
      FlattenAppend(first, rest);
      JoinWalks(tok, overlap, s, p, p, Flatten(first), w1, Flatten(rest), w2);
      w := w1 + Shift(w2, p);
    }
  }

  lemma {:induction false} WalkReachesBelow(tok: Tokenizer, overlap: int, s: string, out: string, w: seq<nat>, i: nat, j: nat)
    requires Walk(tok, overlap, s, out, w)
    requires i < |w| && j <= w[i]
    ensures exists k :: 0 <= k <= i && w[k] == j
  {
    if j < w[i] {
      if i > 0 {
        assert Step(tok, overlap, s, w[i - 1], w[i]);
        WalkReachesBelow(tok, overlap, s, out, w, i - 1, j);
      }
    }
  }

  lemma {:induction false} ForwardWalk(tok: Tokenizer, overlap: int, s: string, out: string, w: seq<nat>, i: nat)
    requires Walk(tok, overlap, s, out, w) && overlap <= 0
    requires i < |w|
    ensures w[i] == i
  {
    if i > 0 {
      ForwardWalk(tok, overlap, s, out, w, i - 1);
      assert Step(tok, overlap, s, w[i - 1], w[i]);
    }
  }

  /** Splitting loses and reorders nothing, whatever the tokenizer: with overlap
      off the chunks concatenate to the text, otherwise they walk through it and
      read every character of it. */
  lemma {:induction false} SplitConserves(tok: Tokenizer, s: string, size: int, overlap: int)
    ensures var out := Flatten(Split(tok, s, size, overlap, 0));
            && (overlap <= 0 ==> out == s)
            && exists w :: Walk(tok, overlap, s, out, w) && forall j :: 0 <= j < |s| ==> j in w
  {
    var out := Flatten(Split(tok, s, size, overlap, 0));
    var w := SplitWalks(tok, s, size, overlap, 0);
    forall j | 0 <= j < |s|
      ensures j in w
    {
      WalkReachesBelow(tok, overlap, s, out, w, |w| - 1, j);
    }
    if overlap <= 0 {
      forall i | 0 <= i < |w|
        ensures w[i] == i
      {
        ForwardWalk(tok, overlap, s, out, w, i);
      }
    }
  }

  /** A non-empty text has at least one chunk. */
  lemma {:induction false} SplitNonEmpty(tok: Tokenizer, s: string, size: int, overlap: int)
    requires s != ""
    ensures Split(tok, s, size, overlap, 0) != []
  {
    var w := SplitWalks(tok, s, size, overlap, 0);
  }

  // ----- Greedy merging is optimal -----

  ghost predicate SubstringFits(tok: Tokenizer, size: int, a: string, b: string, c: string) {
    Fits(tok, a + b + c, size) ==> Fits(tok, b, size)
  }

  /** Every substring of a text that fits, fits. */
  ghost predicate SubstringClosed(tok: Tokenizer, size: int) {
    forall a, b, c :: SubstringFits(tok, size, a, b, c)
  }

  lemma PartFits(tok: Tokenizer, size: int, a: string, b: string, c: string)
    requires SubstringClosed(tok, size) && Fits(tok, a + b + c, size)
    ensures Fits(tok, b, size)
  {
    assert SubstringFits(tok, size, a, b, c);
  }

  /** A group of pieces that may form one chunk. */
  ghost predicate Admissible(tok: Tokenizer, group: seq<string>, size: int) {
    group != [] && (|group| == 1 || Fits(tok, Flatten(group), size))
  }

  /** An order-preserving grouping of pieces into admissible chunks. */
  ghost predicate Grouping(tok: Tokenizer, groups: seq<seq<string>>, pieces: seq<string>, size: int) {
    Flatten(groups) == pieces && forall k :: 0 <= k < |groups| ==> Admissible(tok, groups[k], size)
  }

  predicate NonEmptyPieces(pieces: seq<string>) {
    forall k :: 0 <= k < |pieces| ==> pieces[k] != ""
  }

  /** Starting from a longer open chunk x + y instead of y changes the number of
      greedy chunks by none or one. */
  lemma {:induction false} GreedyIsMonotone(tok: Tokenizer, x: string, y: string, chunks: seq<string>, size: int)
    requires SubstringClosed(tok, size) && y != "" && NonEmptyPieces(chunks)
    ensures |Merge(tok, y, chunks, size)| <= |Merge(tok, x + y, chunks, size)| <= 1 + |Merge(tok, y, chunks, size)|
    decreases |chunks|
  {
    if chunks != [] {
      var p, rest := chunks[0], chunks[1..];
      assert x + y + p == x + (y + p) == x + (y + p) + "";
      if Fits(tok, x + y + p, size) {
        PartFits(tok, size, x, y + p, "");
        GreedyIsMonotone(tok, x, y + p, rest, size);
      } else if Fits(tok, y + p, size) {
        GreedyIsMonotone(tok, y, p, rest, size);
      }
    }
  }

  lemma {:induction false} FirstPiece(groups: seq<seq<string>>)
    requires groups != [] && groups[0] != []
    ensures var pieces, rest := Flatten(groups), groups[0][1..] + Flatten(groups[1..]);
            && pieces != [] && pieces[0] == groups[0][0] && pieces[1..] == rest
            && (NonEmptyPieces(pieces) ==> pieces[0] != "" && NonEmptyPieces(rest))
  {
    var pieces, rest := Flatten(groups), groups[0][1..] + Flatten(groups[1..]);
    assert pieces == [pieces[0]] + rest;
    assert forall k :: 0 <= k < |rest| ==> rest[k] == pieces[k + 1];
  }

  lemma PiecesAfter(pieces: seq<string>)
    requires pieces != [] && NonEmptyPieces(pieces)
    ensures pieces[0] != "" && NonEmptyPieces(pieces[1..])
  {
  }

  /** With the open chunk cur covering the tail of a group whose remaining pieces
      are g, greedy merging needs at most one chunk for it and one a later group. */
  lemma {:induction false} GreedyStaysAhead(tok: Tokenizer, cur: string, g: seq<string>, groups: seq<seq<string>>, size: int)
    requires SubstringClosed(tok, size) && cur != ""
    requires NonEmptyPieces(g + Flatten(groups))
    requires g == [] || Fits(tok, cur + Flatten(g), size)
    requires forall k :: 0 <= k < |groups| ==> Admissible(tok, groups[k], size)
    ensures |Merge(tok, cur, g + Flatten(groups), size)| <= 1 + |groups|
    decreases |groups|, |g|
  {
    hide SubstringClosed, NonEmptyPieces;
    var pieces := g + Flatten(groups);
    if pieces != [] {
      PiecesAfter(pieces);
    }
    if g != [] {
      assert cur + Flatten(g) == "" + (cur + g[0]) + Flatten(g[1..]);
      PartFits(tok, size, "", cur + g[0], Flatten(g[1..]));
      assert pieces[0] == g[0] && pieces[1..] == g[1..] + Flatten(groups);
      assert cur + g[0] + Flatten(g[1..]) == cur + Flatten(g);
      GreedyStaysAhead(tok, cur + g[0], g[1..], groups, size);
    } else if groups != [] {
      var h, later := groups[0], groups[1..];
      assert Admissible(tok, h, size);
      FirstPiece(groups);
      assert pieces == Flatten(groups);
      GreedyStaysAhead(tok, h[0], h[1..], later, size);
      if Fits(tok, cur + h[0], size) {
        GreedyIsMonotone(tok, cur, h[0], h[1..] + Flatten(later), size);
      }
    }
  }

  /** No order-preserving grouping of the pieces uses fewer chunks than greedy merging. */
  lemma {:induction false} GreedyIsOptimal(tok: Tokenizer, pieces: seq<string>, size: int, groups: seq<seq<string>>)
    requires SubstringClosed(tok, size) && NonEmptyPieces(pieces)
    requires Grouping(tok, groups, pieces, size)
    ensures |Merge(tok, "", pieces, size)| <= |groups|
  {
    if groups != [] {
      var h, later := groups[0], groups[1..];
      assert Admissible(tok, h, size);
      FirstPiece(groups);
      GreedyStaysAhead(tok, h[0], h[1..], later, size);
    }
  }

  /** Greedy merging is itself such a grouping, so the bound above is reached. */
  lemma {:induction false} GreedyIsGrouping(tok: Tokenizer, open: seq<string>, pieces: seq<string>, size: int)
    returns (groups: seq<seq<string>>)
    requires NonEmptyPieces(open + pieces)
    requires open == [] || Admissible(tok, open, size)
    ensures Grouping(tok, groups, open + pieces, size)
    ensures var merged := Merge(tok, Flatten(open), pieces, size);
            |groups| == |merged| && forall k :: 0 <= k < |groups| ==> Flatten(groups[k]) == merged[k]
    decreases |pieces|
  {
    if open != [] {
      assert open[0] == (open + pieces)[0];
      assert Flatten(open) != "";
    }
    if pieces == [] {
      groups := if open == [] then [] else [open];
      assert Flatten([open]) == open + Flatten<string>([]);
      assert open + pieces == open;
    } else {
      var p, rest := pieces[0], pieces[1..];
      assert Flatten([p]) == p + Flatten<char>([]) == p;
      if open == [] || Fits(tok, Flatten(open) + p, size) {
        FlattenSnoc(open, p);
        assert open + [p] + rest == open + pieces;
        groups := GreedyIsGrouping(tok, open + [p], rest, size);
      } else {
        assert [p] + rest == pieces;
        assert forall k :: 0 <= k < |pieces| ==> pieces[k] == (open + pieces)[|open| + k];
        var later := GreedyIsGrouping(tok, [p], rest, size);
        groups := [open] + later;
        assert groups[1..] == later;
      }
    }
  }

  /** The open chunk only grows, so it starts the first merged chunk. */
  lemma {:induction false} MergeStartsWith(tok: Tokenizer, cur: string, chunks: seq<string>, size: int)
    requires cur != ""
    ensures var m := Merge(tok, cur, chunks, size); m != [] && cur <= m[0]
    decreases |chunks|
  {
    if chunks != [] && Fits(tok, cur + chunks[0], size) {
      MergeStartsWith(tok, cur + chunks[0], chunks[1..], size);
    }
  }

  /** No two neighbouring chunks of greedy merging fit together. */
  lemma {:induction false} NoNeighboursFit(tok: Tokenizer, cur: string, chunks: seq<string>, size: int, k: nat)
    requires SubstringClosed(tok, size) && NonEmptyPieces(chunks)
    requires k + 1 < |Merge(tok, cur, chunks, size)|
    ensures var m := Merge(tok, cur, chunks, size); !Fits(tok, m[k] + m[k + 1], size)
    decreases |chunks|
  {
    if chunks != [] {
      var p, rest := chunks[0], chunks[1..];
      if cur == "" {
        NoNeighboursFit(tok, p, rest, size, k);
      } else if Fits(tok, cur + p, size) {
        NoNeighboursFit(tok, cur + p, rest, size, k);
      } else if k > 0 {
        NoNeighboursFit(tok, p, rest, size, k - 1);
      } else {
        var m := Merge(tok, p, rest, size);
        MergeStartsWith(tok, p, rest, size);
        if Fits(tok, cur + m[0], size) {
          assert cur + m[0] == "" + (cur + p) + m[0][|p|..];
          PartFits(tok, size, "", cur + p, m[0][|p|..]);
        }
      }
    }
  }
}
